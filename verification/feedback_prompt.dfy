/** `generate_prompt` of the scoring client: the request asking one persona
    to judge a marketing copy. */
module FeedbackPrompting {
  import opened Common

  type Persona = map<string, Json>

  /** `persona.get(key, '無')` as the f-string inserts it. */
  function Field(persona: Persona, key: string): string {
    Show(Get(persona, key, JStr("無")))
  }

  /** The prompt up to the copy: who the persona is, then the heading of the
      copy. */
  function PersonaSection(persona: Persona): string {
    "\n你現在是一位 Persona：\n=== Persona 描述 ===\n" + Field(persona, "description")
    + "\n學習動機：\n" + Field(persona, "motivation")
    + "\n面臨挑戰：\n" + Field(persona, "challenges")
    + "\n學習目標：\n" + Field(persona, "learning_goals")
    + "\n偏好的學習方式：\n" + Field(persona, "preferred_learning_methods")
    + "\n\n請針對以下行銷文案提供詳細回饋：\n=== 行銷文案 ===\n"
  }

  /** The prompt after the copy: the answer format and the JSON example. It
      reads the same for every copy. */
  const AnswerFormat: string :=
    "\n\n請依照以下格式回答：\n"
    + "1. 購買意願評分（1-10）：\n"
    + "2. 購買理由（條列式列出 1.2.3.）\n"
    + "3. 不購買理由（條列式列出 1.2.3.）\n"
    + "4. 詳細說明：\n\n"
    + "結果請用純 JSON 輸出，例如：\n"
    + "```json\n"
    + "{\n"
    + "  \"score\": ?,\n"
    + "  \"reasons_to_buy\": [\"...\", \"...\"],\n"
    + "  \"reasons_not_to_buy\": [\"...\"]\n"
    + "}\n"

  /** `generate_prompt(persona, marketing_copy)`: the copy sits whole between
      the persona's description and the answer format. */
  function FeedbackPrompt(persona: Persona, copy: string): string {
    PersonaSection(persona) + copy + AnswerFormat
  }

  /** The prompt carries the copy whole, right after the persona's part, so
      one persona's prompts for two different copies differ. */
  lemma FeedbackPromptCarriesCopy(persona: Persona, c1: string, c2: string)
    ensures OccursAt(FeedbackPrompt(persona, c1), c1, |PersonaSection(persona)|)
    ensures FeedbackPrompt(persona, c1) == FeedbackPrompt(persona, c2) ==> c1 == c2
  {
    var head := PersonaSection(persona);
    assert FeedbackPrompt(persona, c1) == Framed(head, c1, AnswerFormat);
    if FeedbackPrompt(persona, c1) == FeedbackPrompt(persona, c2) {
      FramedInjective(head, c1, AnswerFormat, head, c2, AnswerFormat);
    }
  }
}
