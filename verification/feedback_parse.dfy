/** `parse_feedback_response` of the scoring client: the record read from the
    model's answer about one persona. */
module FeedbackParsing {
  import opened Common
  import opened Scanners

  /** One persona's feedback record, the dict with keys `persona_id`,
      `score`, `reasons_to_buy`, `reasons_not_to_buy` and `detail_feedback`.
      The middle three hold whatever the model answered. */
  datatype Feedback = Feedback(
    personaId: Json,
    score: Json,
    reasonsToBuy: Json,
    reasonsNotToBuy: Json,
    detail: string)

  const ScoreKey: string := "score"
  const BuyKey: string := "reasons_to_buy"
  const NotBuyKey: string := "reasons_not_to_buy"

  /** The score a record gets when the model's JSON has none, and the score
      of the fallback record. */
  const DefaultScore: int := 5

  const FailureMarker: string := "呼叫失敗"
  const NoResultMessage: string := "API 呼叫失敗，無法取得評估結果"
  const UnparsedReason: string := "無法解析回應"
  const MismatchReason: string := "API 回應格式不符"

  /** The AttributeError of calling `.get` on a value that is not a dict. */
  function NoGetMessage(j: Json): string {
    "'" + TypeName(j) + "' object has no attribute 'get'"
  }

  /** The record built from the decoded JSON object of an answer. */
  function FromObject(fields: map<string, Json>, pid: Json, text: string): Feedback {
    Feedback(pid, Get(fields, ScoreKey, JNum(DefaultScore)), Get(fields, BuyKey, JArr([])),
             Get(fields, NotBuyKey, JArr([])), Strip(text))
  }

  /** The record of an answer that holds text but no JSON. */
  function Fallback(pid: Json, text: string): Feedback {
    Feedback(pid, JNum(DefaultScore), JArr([JStr(UnparsedReason)]), JArr([JStr(MismatchReason)]), Strip(text))
  }

  /** An answer with no JSON in it that reads as a failed call: it mentions
      the failure or is blank. */
  predicate ReadsAsFailure(text: string) {
    Contains(text, FailureMarker) || Strip(text) == []
  }

  /** `parse_feedback_response(response_text, persona_id)`: the greedy
      `{...}` span is decoded when there is one; otherwise a blank or failed
      answer raises and any other text gets the fallback record. Every error
      is re-raised, as the text of the exception. */
  function ParseFeedback(text: string, pid: Json, decode: Decoder): (r: Result<Feedback, string>)
    ensures r.Ok? ==> r.value.personaId == pid && r.value.detail == Strip(text)
    ensures BraceSpan(text).None? ==>
      (r.Err? <==> ReadsAsFailure(text)) && (r.Err? ==> r.error == NoResultMessage)
    ensures BraceSpan(text).Some? ==>
      var (i, j) := BraceSpan(text).value;
      match decode(text[i..j])
      case Err(e) => r == Err(e)
      case Ok(v) => if v.JObj? then r.Ok? else r == Err(NoGetMessage(v))
  {
    var span := BraceSpan(text);
    if span.Some? then
      match decode(text[span.value.0..span.value.1])
      case Err(e) => Err(e)
      case Ok(v) => if v.JObj? then Ok(FromObject(v.fields, pid, text)) else Err(NoGetMessage(v))
    else if ReadsAsFailure(text) then Err(NoResultMessage)
    else Ok(Fallback(pid, text))
  }

  /** An answer whose JSON object sits between brace-free prose is read from
      that object: the decoder sees exactly the object's text, and the fields
      the model left out get their defaults. */
  lemma ParseWrapped(a: string, body: string, c: string, pid: Json, decode: Decoder)
    requires NoBrace(a) && NoBrace(c)
    requires |body| >= 2 && body[0] == '{' && body[|body| - 1] == '}'
    ensures var text := a + body + c;
      ParseFeedback(text, pid, decode) ==
        match decode(body)
        case Err(e) => Err(e)
        case Ok(v) => if v.JObj? then Ok(FromObject(v.fields, pid, text)) else Err(NoGetMessage(v))
  {
    var text := a + body + c;
    BraceSpanOfWrapped(a, body, c);
    assert text[|a|..|a| + |body|] == body;
  }

  /** A record read from the model's JSON keeps the model's score and
      reasons, or gets 5 and empty lists for what the model left out. */
  lemma ParsedScore(text: string, pid: Json, decode: Decoder)
    requires BraceSpan(text).Some?
    requires ParseFeedback(text, pid, decode).Ok?
    ensures var (i, j) := BraceSpan(text).value;
      && decode(text[i..j]).Ok? && decode(text[i..j]).value.JObj?
      && var fields := decode(text[i..j]).value.fields;
      && var f := ParseFeedback(text, pid, decode).value;
      && f.score == Get(fields, ScoreKey, JNum(DefaultScore))
      && f.reasonsToBuy == Get(fields, BuyKey, JArr([]))
      && f.reasonsNotToBuy == Get(fields, NotBuyKey, JArr([]))
  {
  }

  /** Text without JSON that does not read as a failure gets the fallback
      record: score 5 and the reasons saying the answer could not be read. */
  lemma FallbackRecord(text: string, pid: Json, decode: Decoder)
    requires BraceSpan(text).None? && !ReadsAsFailure(text)
    ensures var f := ParseFeedback(text, pid, decode).value;
      ParseFeedback(text, pid, decode).Ok? && f.score == JNum(DefaultScore)
      && f.reasonsToBuy == JArr([JStr(UnparsedReason)]) && f.reasonsNotToBuy == JArr([JStr(MismatchReason)])
  {
  }

  /** An answer that is all whitespace raises, whatever the decoder. */
  lemma BlankAnswerRaises(text: string, pid: Json, decode: Decoder)
    requires AllSpace(text)
    ensures ParseFeedback(text, pid, decode) == Err(NoResultMessage)
  {
    StripEmpty(text);
    assert forall k :: 0 <= k < |text| ==> text[k] != '{';
  }
}
