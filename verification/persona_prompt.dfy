/** `generate_prompt` of the persona generator: the request sent with the
    source material. */
module PersonaPrompt {
  import opened Common

  function SourceType(isCsv: bool): string {
    if isCsv then "問卷" else "訪談"
  }

  const HeadLead: string := "這是"
  const HeadTail: string := "資料：\n"

  /** The opening line naming the kind of source material. */
  function PromptHead(isCsv: bool): (r: string)
    ensures |r| == 8
  {
    HeadLead + SourceType(isCsv) + HeadTail
  }

  /** The fixed instructions after the source material: the attribute list
      and the fenced JSON example the model is asked to follow. They read the
      same whatever the kind of material. */
  const PromptInstructions: string :=
    "\n\n"
    + "請根據以上資料，統整分析，生成完整的課程受眾 persona 概觀，每個 persona 包含以下欄位：\n"
    + "- persona_id（1開始編號）\n"
    + "- description（受眾整體概括描述）\n"
    + "- motivation（學習動機）\n"
    + "- challenges（面臨挑戰與痛點）\n"
    + "- learning_goals（學習目標）\n"
    + "- preferred_learning_methods（偏好學習方式）\n"
    + "- suggested_learning_resources（推薦學習資源，包含 feature_name, description, justification）\n\n"
    + "請用 JSON 格式輸出，範例如下：\n"
    + "```json\n"
    + "{\n"
    + "  \"persona_id\": \"1\",\n"
    + "  \"description\": \"...\",\n"
    + "  \"motivation\": \"...\",\n"
    + "  \"challenges\": \"...\",\n"
    + "  \"learning_goals\": \"...\",\n"
    + "  \"preferred_learning_methods\": \"...\",\n"
    + "  \"suggested_learning_resources\": [\n"
    + "    {\n"
    + "      \"feature_name\": \"...\",\n"
    + "      \"description\": \"...\",\n"
    + "      \"justification\": \"...\" \n"
    + "    }\n"
    + "  ]\n"
    + "}\n"
    + "```\n"
    + "請確保只輸出上述 JSON，不要有其他文字說明。"

  /** `generate_prompt(full_text, is_csv)`: the source material sits whole
      between the head naming its kind and the fixed instructions. */
  function GeneratePrompt(text: string, isCsv: bool): string {
    PromptHead(isCsv) + text + PromptInstructions
  }

  /** The two kinds of source material open differently. */
  lemma HeadDeterminesKind(x: bool, y: bool)
    ensures PromptHead(x) == PromptHead(y) ==> x == y
  {
    if x != y {
      assert PromptHead(x)[2] != PromptHead(y)[2];
    }
  }

  /** Different material or a different kind of source gives a different
      prompt: the prompt determines both. */
  lemma GeneratePromptInjective(a: string, isCsvA: bool, b: string, isCsvB: bool)
    requires GeneratePrompt(a, isCsvA) == GeneratePrompt(b, isCsvB)
    ensures a == b && isCsvA == isCsvB
  {
    FramedInjective(PromptHead(isCsvA), a, PromptInstructions, PromptHead(isCsvB), b, PromptInstructions);
    HeadDeterminesKind(isCsvA, isCsvB);
  }

  /** For the same material, the survey and the interview prompts differ only
      in the two characters naming the kind: 問卷 against 訪談. */
  lemma SurveyInterviewDiffer(text: string)
    ensures var p, q := GeneratePrompt(text, true), GeneratePrompt(text, false);
      && |p| == |q|
      && (forall k :: 0 <= k < |p| && k != 2 && k != 3 ==> p[k] == q[k])
      && OccursAt(p, SourceType(true), 2) && OccursAt(q, SourceType(false), 2)
  {
    SwapMiddle(HeadLead, SourceType(true), SourceType(false), HeadTail, text, PromptInstructions);
  }

  /** Two texts that differ only in an equally long part after `a`. */
  lemma SwapMiddle(a: string, x: string, y: string, b: string, t: string, c: string)
    requires |x| == |y|
    ensures var p, q := a + x + b + t + c, a + y + b + t + c;
      && |p| == |q|
      && (forall k :: 0 <= k < |p| && !(|a| <= k < |a| + |x|) ==> p[k] == q[k])
      && OccursAt(p, x, |a|) && OccursAt(q, y, |a|)
  {
    var p, q := a + x + b + t + c, a + y + b + t + c;
    assert p[|a|..|a| + |x|] == x;
    assert q[|a|..|a| + |x|] == y;
  }

}
