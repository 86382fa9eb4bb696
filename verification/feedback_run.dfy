/** `run_mcp_feedback` of the scoring client: every selected persona judges
    the copy, two personas per batch; a persona whose evaluation fails gets a
    failure record, and the average is taken over the positive scores. */
module FeedbackRun {
  import opened Common
  import opened FeedbackParsing
  import opened FeedbackCall
  import opened FeedbackPrompting

  /** Personas per batch. */
  const FeedbackBatch: nat := 2

  /** The sleep after each evaluated persona, and between two batches. */
  const CallWait: nat := 3
  const BatchWait: nat := 20

  const UnknownId: Json := JStr("Unknown")

  const FailedReason: string := "評估失敗"
  const RateLimitReason: string := "API 速率限制"
  const FailedPrefix: string := "評估失敗: "

  /** The TypeError `re.search` raises when the call gave back `None`. */
  const NoTextMessage: string := "expected string or bytes-like object, got 'NoneType'"

  /** The record of a persona whose evaluation raised `e`. */
  function FailureRecord(pid: Json, e: string): Feedback {
    Feedback(pid, JNum(0), JArr([JStr(FailedReason)]), JArr([JStr(RateLimitReason)]), FailedPrefix + e)
  }

  // ---------------------------------------------------------------------
  // One persona

  /** The record of one persona, whether it was read from an answer (the
      "成功評估" case, followed by the 3-second sleep), the sleeps made, and
      the index of the next service call. */
  datatype Step = Step(record: Feedback, parsed: bool, pauses: seq<Pause>, next: nat)

  /** How the prompt for a persona and a copy is built. */
  type PromptRule = (Persona, string) -> string

  /** The record read from what the call gave back, or the exception raised
      on the way. */
  function Answered(a: Attempts<Option<string>>, pid: Json, decode: Decoder): Result<Feedback, string> {
    match a.result
    case Err(e) => Err(e)
    case Ok(None) => Err(NoTextMessage)
    case Ok(Some(text)) => ParseFeedback(text, pid, decode)
  }

  /** The body of the inner `for persona in batch` loop, from service call
      number `call`, with `FeedbackPrompt` as `promptOf` and
      `RetryDelaySeconds` as `delay`. */
  function Evaluation(persona: Persona, copy: string, promptOf: PromptRule, svc: Service<string>, delay: DelayRule, decode: Decoder, call: nat): Step {
    var pid := Get(persona, IdKey, UnknownId);
    var a := CallFrom(promptOf(persona, copy), svc, delay, MaxRetries, call, 0);
    match Answered(a, pid, decode)
    case Ok(f) => Step(f, true, a.pauses + [Pacing(CallWait)], a.next)
    case Err(e) => Step(FailureRecord(pid, e), false, a.pauses, a.next)
  }

  method EvaluatePersona(persona: Persona, copy: string, promptOf: PromptRule, svc: Service<string>, delay: DelayRule, decode: Decoder, call: nat)
    returns (s: Step)
    ensures s == Evaluation(persona, copy, promptOf, svc, delay, decode, call)
  {
    var pid := Get(persona, IdKey, UnknownId);
    var prompt := promptOf(persona, copy);
    var a := CallGemini(prompt, svc, delay, MaxRetries, call);
    var parsed: Result<Feedback, string>;
    if a.result.Err? {
      parsed := Err(a.result.error);
    } else if a.result.value.None? {
      parsed := Err(NoTextMessage);
    } else {
      parsed := ParseFeedback(a.result.value.value, pid, decode);
    }
    if parsed.Ok? {
      return Step(parsed.value, true, a.pauses + [Pacing(CallWait)], a.next);
    }
    return Step(FailureRecord(pid, parsed.error), false, a.pauses, a.next);
  }

  /** Every persona gets a record with its own id; only a record read from an
      answer is followed by the 3-second sleep; a failure is recorded with
      score 0, which the average leaves out; one to three calls are made and
      the call never gives back `None`. */
  lemma EvaluationShape(persona: Persona, copy: string, promptOf: PromptRule, svc: Service<string>, delay: DelayRule, decode: Decoder, call: nat)
    ensures var s := Evaluation(persona, copy, promptOf, svc, delay, decode, call);
      && CallFrom(promptOf(persona, copy), svc, delay, MaxRetries, call, 0).result != Ok(None)
      && s.record.personaId == Get(persona, IdKey, UnknownId)
      && Pacings(s.pauses) == PacingsOf(s.pauses, CallWait) == (if s.parsed then 1 else 0)
      && call < s.next <= call + MaxRetries
      && (!s.parsed ==> s.record.score == JNum(0) && StartsWith(s.record.detail, FailedPrefix)
                        && s.record.reasonsToBuy == JArr([JStr(FailedReason)])
                        && s.record.reasonsNotToBuy == JArr([JStr(RateLimitReason)]))
  {
    var prompt := promptOf(persona, copy);
    var a := CallFrom(prompt, svc, delay, MaxRetries, call, 0);
    CallBounds(prompt, svc, delay, MaxRetries, call, 0);
    CallNoPacing(prompt, svc, delay, MaxRetries, call, 0);
    PacingsAppend(a.pauses, [Pacing(CallWait)]);
    assert Pacings([Pacing(CallWait)]) == 1;
    PacingsOfTwo(a.pauses, CallWait, BatchWait);
    PacingsOfAppend(a.pauses, [Pacing(CallWait)], CallWait);
    assert PacingsOf([Pacing(CallWait)], CallWait) == 1;
    var s := Evaluation(persona, copy, promptOf, svc, delay, decode, call);
    if !s.parsed {
      assert s.record.detail[..|FailedPrefix|] == FailedPrefix;
    }
  }

  /** A persona whose three calls all fail gets the failure record carrying
      the last exception text, after exactly three calls. */
  lemma ExhaustedRetriesRecorded(persona: Persona, copy: string, promptOf: PromptRule, svc: Service<string>, delay: DelayRule, decode: Decoder, call: nat)
    requires forall i :: call <= i < call + MaxRetries ==> svc(i, promptOf(persona, copy)).Raised?
    ensures var s := Evaluation(persona, copy, promptOf, svc, delay, decode, call);
      var last := svc(call + MaxRetries - 1, promptOf(persona, copy));
      && !s.parsed && s.next == call + MaxRetries
      && s.record == FailureRecord(Get(persona, IdKey, UnknownId), last.message)
  {
    var prompt := promptOf(persona, copy);
    CallBounds(prompt, svc, delay, MaxRetries, call, 0);
    CallOutcome(prompt, svc, delay, MaxRetries, call, 0);
    var a := CallFrom(prompt, svc, delay, MaxRetries, call, 0);
    assert call <= a.next - 1 < call + MaxRetries;
    assert svc(a.next - 1, prompt).Raised?;
  }

  /** What evaluating one persona from a given service call does. */
  type Judge = (Persona, nat) -> Step

  /** The evaluation of every persona against one copy. */
  function Judging(copy: string, promptOf: PromptRule, svc: Service<string>, delay: DelayRule, decode: Decoder): Judge {
    (persona: Persona, call: nat) => Evaluation(persona, copy, promptOf, svc, delay, decode, call)
  }

  /** What the run relies on about one evaluation: the record carries the
      persona's id, the only pacing sleep is the one after a record read from
      an answer, one to three calls are made, and a failure scores 0. */
  ghost predicate WellJudged(judge: Judge) {
    forall persona: Persona, call: nat ::
      && judge(persona, call).record.personaId == Get(persona, IdKey, UnknownId)
      && Pacings(judge(persona, call).pauses) == PacingsOf(judge(persona, call).pauses, CallWait)
         == (if judge(persona, call).parsed then 1 else 0)
      && call < judge(persona, call).next <= call + MaxRetries
      && (!judge(persona, call).parsed ==> judge(persona, call).record.score == JNum(0))
  }

  lemma JudgingWell(copy: string, promptOf: PromptRule, svc: Service<string>, delay: DelayRule, decode: Decoder)
    ensures WellJudged(Judging(copy, promptOf, svc, delay, decode))
  {
    forall persona: Persona, call: nat
      ensures var s := Judging(copy, promptOf, svc, delay, decode)(persona, call);
        && s.record.personaId == Get(persona, IdKey, UnknownId)
        && Pacings(s.pauses) == PacingsOf(s.pauses, CallWait) == (if s.parsed then 1 else 0)
        && call < s.next <= call + MaxRetries
        && (!s.parsed ==> s.record.score == JNum(0))
    {
      EvaluationShape(persona, copy, promptOf, svc, delay, decode, call);
    }
  }

  // ---------------------------------------------------------------------
  // One batch

  /** The records of a batch so far, how many of them were read from an
      answer, the sleeps made and the next service call. */
  datatype Evaluated = Evaluated(records: seq<Feedback>, parsed: nat, pauses: seq<Pause>, next: nat)

  /** The first `k` personas of a batch, judged one after the other from
      service call number `call`. */
  function EvaluateAll(batch: seq<Persona>, k: nat, judge: Judge, call: nat): Evaluated
    requires k <= |batch|
  {
    if k == 0 then Evaluated([], 0, [], call)
    else
      var acc := EvaluateAll(batch, k - 1, judge, call);
      var s := judge(batch[k - 1], acc.next);
      Evaluated(acc.records + [s.record], acc.parsed + (if s.parsed then 1 else 0), acc.pauses + s.pauses, s.next)
  }

  /** The inner loop: `batch_results` of one batch, each persona evaluated
      by `judge`. */
  method EvaluateBatch(batch: seq<Persona>, judge: Judge, call: nat)
    returns (e: Evaluated)
    ensures e == EvaluateAll(batch, |batch|, judge, call)
  {
    e := Evaluated([], 0, [], call);
    for j := 0 to |batch|
      invariant e == EvaluateAll(batch, j, judge, call)
    {
      var s := judge(batch[j], e.next);
      e := Evaluated(e.records + [s.record], e.parsed + (if s.parsed then 1 else 0), e.pauses + s.pauses, s.next);
    }
  }

  /** One record per persona, in order and with the persona's id; one
      3-second sleep per record read from an answer; one to three calls per
      persona. */
  lemma {:induction false} EvaluateAllShape(batch: seq<Persona>, k: nat, judge: Judge, call: nat)
    requires k <= |batch| && WellJudged(judge)
    ensures var e := EvaluateAll(batch, k, judge, call);
      && |e.records| == k
      && (forall i :: 0 <= i < k ==> e.records[i].personaId == Get(batch[i], IdKey, UnknownId))
      && Pacings(e.pauses) == e.parsed <= k
      && call + k <= e.next <= call + MaxRetries * k
  {
    if k > 0 {
      var acc := EvaluateAll(batch, k - 1, judge, call);
      EvaluateAllShape(batch, k - 1, judge, call);
      var s := judge(batch[k - 1], acc.next);
      PacingsAppend(acc.pauses, s.pauses);
    }
  }

  /** Every pacing sleep of a batch is a 3-second one: none lasts 20 seconds. */
  lemma {:induction false} EvaluateAllPacings(batch: seq<Persona>, k: nat, judge: Judge, call: nat)
    requires k <= |batch| && WellJudged(judge)
    ensures var e := EvaluateAll(batch, k, judge, call);
      PacingsOf(e.pauses, CallWait) == e.parsed && PacingsOf(e.pauses, BatchWait) == 0
  {
    if k > 0 {
      var acc := EvaluateAll(batch, k - 1, judge, call);
      EvaluateAllPacings(batch, k - 1, judge, call);
      var s := judge(batch[k - 1], acc.next);
      PacingsOfAppend(acc.pauses, s.pauses, CallWait);
      PacingsOfAppend(acc.pauses, s.pauses, BatchWait);
      PacingsOfTwo(s.pauses, CallWait, BatchWait);
    }
  }

  // ---------------------------------------------------------------------
  // Scores and their average

  /** The TypeError of comparing a score that is not a number with 0. */
  const CompareHead: string := "'>' not supported between instances of '"

  function CompareMessage(j: Json): (m: string)
    ensures StartsWith(m, CompareHead)
  {
    var m := CompareHead + TypeName(j) + "' and 'int'";
    assert m[..|CompareHead|] == CompareHead;
    m
  }

  /** `item.get('score', 0) > 0`; `True` counts as 1. */
  function Positive(score: Json): Result<bool, string> {
    match score
    case JNum(n) => Ok(n > 0)
    case JBool(b) => Ok(b)
    case _ => Err(CompareMessage(score))
  }

  /** The positive scores of the records, in order, or the TypeError of the
      first score that is not a number. */
  function PositiveScores(records: seq<Feedback>): (r: Result<seq<Json>, string>)
    ensures r.Err? ==> StartsWith(r.error, CompareHead)
  {
    if records == [] then Ok([])
    else match Positive(records[0].score)
      case Err(e) => Err(e)
      case Ok(p) =>
        var rest := PositiveScores(records[1..]);
        if rest.Err? then rest
        else if p then Ok([records[0].score] + rest.value)
        else rest
  }

  /** The comparison raises exactly when some score is not a number; what
      is kept is positive. */
  lemma {:induction false} PositiveScoresMeaning(records: seq<Feedback>)
    ensures var r := PositiveScores(records);
      && (r.Ok? <==> forall i :: 0 <= i < |records| ==> Positive(records[i].score).Ok?)
      && (r.Ok? ==> forall i :: 0 <= i < |r.value| ==> Positive(r.value[i]) == Ok(true))
  {
    if records != [] {
      PositiveScoresMeaning(records[1..]);
      assert forall i :: 1 <= i < |records| ==> records[i] == records[1..][i - 1];
    }
  }

  /** The scores of two runs of records, one after the other. */
  lemma {:induction false} PositiveScoresAppend(a: seq<Feedback>, b: seq<Feedback>)
    requires PositiveScores(a).Ok? && PositiveScores(b).Ok?
    ensures PositiveScores(a + b) == Ok(PositiveScores(a).value + PositiveScores(b).value)
  {
    if a == [] {
      assert a + b == b;
      assert PositiveScores(a).value + PositiveScores(b).value == PositiveScores(b).value;
    } else {
      assert (a + b)[0] == a[0];
      assert (a + b)[1..] == a[1..] + b;
      PositiveScoresAppend(a[1..], b);
      var tail := PositiveScores(a[1..]).value + PositiveScores(b).value;
      if Positive(a[0].score) == Ok(true) {
        assert [a[0].score] + tail == PositiveScores(a).value + PositiveScores(b).value;
      }
    }
  }

  /** One record: its score is kept when positive, dropped otherwise, and
      the comparison's TypeError is raised when it is not a number. With
      `PositiveScoresAppend` this fixes the result for every list. */
  lemma PositiveScoresOne(f: Feedback)
    ensures PositiveScores([f]) ==
      match Positive(f.score)
      case Err(e) => Err(e)
      case Ok(p) => Ok(if p then [f.score] else [])
  {
    assert [f][1..] == [];
    assert [f.score] + [] == [f.score];
  }

  /** Scores 8, 0 and 6: the zero is dropped and the average is 7. */
  lemma AverageExample(a: Feedback, b: Feedback, c: Feedback)
    requires a.score == JNum(8) && b.score == JNum(0) && c.score == JNum(6)
    ensures PositiveScores([a, b, c]) == Ok([JNum(8), JNum(6)])
    ensures Average(PositiveScores([a, b, c]).value) == 7.0
  {
    PositiveScoresOne(a);
    PositiveScoresOne(b);
    PositiveScoresOne(c);
    PositiveScoresAppend([b], [c]);
    assert [b] + [c] == [b, c];
    PositiveScoresAppend([a], [b, c]);
    assert [a] + [b, c] == [a, b, c];
    assert [JNum(8)] + ([] + [JNum(6)]) == [JNum(8), JNum(6)];
    var kept := [JNum(8), JNum(6)];
    assert Sum(kept) == 8 + Sum(kept[1..]) && kept[1..] == [JNum(6)];
    assert Sum([JNum(6)]) == 6 + Sum([JNum(6)][1..]) && [JNum(6)][1..] == [];
  }

  /** The value `sum` adds up. */
  function ScoreValue(j: Json): int {
    match j
    case JNum(n) => n
    case JBool(b) => if b then 1 else 0
    case _ => 0
  }

  function Sum(scores: seq<Json>): int {
    if scores == [] then 0 else ScoreValue(scores[0]) + Sum(scores[1..])
  }

  /** The average over the scores, 0 when there is none. */
  function Average(scores: seq<Json>): real {
    if scores == [] then 0.0 else Sum(scores) as real / |scores| as real
  }

  lemma {:induction false} SumBounds(scores: seq<Json>, lo: int, hi: int)
    requires forall i :: 0 <= i < |scores| ==> lo <= ScoreValue(scores[i]) <= hi
    ensures lo * |scores| <= Sum(scores) <= hi * |scores|
  {
    if scores != [] {
      assert forall i :: 0 <= i < |scores| - 1 ==> scores[1..][i] == scores[i + 1];
      SumBounds(scores[1..], lo, hi);
      assert lo * |scores| == lo + lo * (|scores| - 1);
      assert hi * |scores| == hi + hi * (|scores| - 1);
    }
  }

  /** A quotient by n of a number between lo * n and hi * n lies between
      lo and hi. */
  lemma QuotientBounds(total: int, n: nat, lo: int, hi: int)
    requires n > 0 && lo * n <= total <= hi * n
    ensures lo as real <= total as real / n as real <= hi as real
  {
    var q := total as real / n as real;
    assert q * (n as real) == total as real;
    assert (lo as real) * (n as real) == (lo * n) as real;
    assert (hi as real) * (n as real) == (hi * n) as real;
  }

  /** Scores within a range average within that range. */
  lemma AverageBounds(scores: seq<Json>, lo: int, hi: int)
    requires scores != []
    requires forall i :: 0 <= i < |scores| ==> lo <= ScoreValue(scores[i]) <= hi
    ensures lo as real <= Average(scores) <= hi as real
  {
    SumBounds(scores, lo, hi);
    QuotientBounds(Sum(scores), |scores|, lo, hi);
  }

  // ---------------------------------------------------------------------
  // The whole run

  /** The records and positive scores gathered so far, and how many records
      were read from an answer. */
  datatype Scored = Scored(records: seq<Feedback>, scores: seq<Json>, parsed: nat)

  /** One pass of the outer loop from service call number `call`: the
      batch's records are added and its positive scores kept, then the
      20-second sleep is made unless it was the last batch; the score
      comparison may raise, which ends the run. */
  function Stage(s: Scored, pauses: seq<Pause>, batch: seq<Persona>, last: bool, judge: Judge, call: nat): Attempts<Scored> {
    var e := EvaluateAll(batch, |batch|, judge, call);
    var all := pauses + e.pauses;
    match PositiveScores(e.records)
    case Err(msg) => Attempts(Err(msg), all, e.next)
    case Ok(positive) =>
      Attempts(Ok(Scored(s.records + e.records, s.scores + positive, s.parsed + e.parsed)),
               if last then all else all + [Pacing(BatchWait)], e.next)
  }

  /** The first `k` batches of the outer loop, from service call number
      `call`. */
  function RunBatches(batches: seq<seq<Persona>>, k: nat, judge: Judge, call: nat): Attempts<Scored>
    requires k <= |batches|
  {
    if k == 0 then Attempts(Ok(Scored([], [], 0)), [], call)
    else
      var acc := RunBatches(batches, k - 1, judge, call);
      if acc.result.Err? then acc
      else Stage(acc.result.value, acc.pauses, batches[k - 1], k == |batches|, judge, acc.next)
  }

  /** What `run_mcp_feedback` gives back besides the chart. */
  datatype Report = Report(feedback: seq<Feedback>, average: real)

  /** `run_mcp_feedback(selected_personas, marketing_copy)`, each persona
      evaluated by `judge`. */
  function FeedbackRun(personas: seq<Persona>, judge: Judge, call: nat): Attempts<Report> {
    var batches := Slices(personas, FeedbackBatch);
    var run := RunBatches(batches, |batches|, judge, call);
    match run.result
    case Err(e) => Attempts(Err(e), run.pauses, run.next)
    case Ok(s) => Attempts(Ok(Report(s.records, Average(s.scores))), run.pauses, run.next)
  }

  /** One more batch: run it unless an earlier one raised. */
  lemma RunStep(batches: seq<seq<Persona>>, k: nat, judge: Judge, call: nat)
    requires 0 < k <= |batches|
    ensures var acc := RunBatches(batches, k - 1, judge, call);
      RunBatches(batches, k, judge, call)
        == if acc.result.Err? then acc
           else Stage(acc.result.value, acc.pauses, batches[k - 1], k == |batches|, judge, acc.next)
  {
  }

  /** Once a batch raised, the later ones are not run. */
  lemma {:induction false} RunStops(batches: seq<seq<Persona>>, b: nat, k: nat, judge: Judge, call: nat)
    requires b <= k <= |batches|
    requires RunBatches(batches, b, judge, call).result.Err?
    ensures RunBatches(batches, k, judge, call) == RunBatches(batches, b, judge, call)
    decreases k
  {
    if k > b {
      RunStops(batches, b, k - 1, judge, call);
      RunStep(batches, k, judge, call);
    }
  }

  /** The body of the outer loop. */
  method ScoreBatch(s: Scored, pauses: seq<Pause>, batch: seq<Persona>, last: bool, judge: Judge, call: nat)
    returns (r: Attempts<Scored>)
    ensures r == Stage(s, pauses, batch, last, judge, call)
  {
    var e := EvaluateBatch(batch, judge, call);
    var feedback := s.records + e.records;
    var all := pauses + e.pauses;
    var positive := PositiveScores(e.records);
    if positive.Err? {
      return Attempts(Err(positive.error), all, e.next);
    }
    var scores := s.scores + positive.value;
    if !last {
      all := all + [Pacing(BatchWait)];
    }
    return Attempts(Ok(Scored(feedback, scores, s.parsed + e.parsed)), all, e.next);
  }

  /** The outer loop over the batches, each persona evaluated by `judge`. */
  method RunAll(batches: seq<seq<Persona>>, judge: Judge, call: nat) returns (run: Attempts<Scored>)
    ensures run == RunBatches(batches, |batches|, judge, call)
  {
    run := Attempts(Ok(Scored([], [], 0)), [], call);
    for b := 0 to |batches|
      invariant run.result.Ok? && run == RunBatches(batches, b, judge, call)
    {
      run := ScoreBatch(run.result.value, run.pauses, batches[b], b + 1 == |batches|, judge, run.next);
      if run.result.Err? {
        RunStops(batches, b + 1, |batches|, judge, call);
        return;
      }
    }
  }

  /** `avg_score`: the scores, replaced by `[0]` when there is none, summed
      and divided by their number. */
  method AverageScore(scores: seq<Json>) returns (average: real)
    ensures average == Average(scores)
  {
    var kept := scores;
    if kept == [] {
      kept := [JNum(0)];
      assert Sum(kept) == 0;
    }
    average := Sum(kept) as real / |kept| as real;
  }

  /** The whole run, each persona evaluated by `judge`. */
  method ScoreBatches(personas: seq<Persona>, judge: Judge, call: nat)
    returns (r: Attempts<Report>)
    ensures r == FeedbackRun(personas, judge, call)
  {
    var batches := Slices(personas, FeedbackBatch);
    var run := RunAll(batches, judge, call);
    if run.result.Err? {
      return Attempts(Err(run.result.error), run.pauses, run.next);
    }
    var average := AverageScore(run.result.value.scores);
    return Attempts(Ok(Report(run.result.value.records, average)), run.pauses, run.next);
  }

  /** `run_mcp_feedback(selected_personas, marketing_copy)`: every persona
      evaluated as `EvaluatePersona` does, with the source's prompt and
      retry delay. */
  method RunMcpFeedback(personas: seq<Persona>, copy: string, svc: Service<string>, decode: Decoder, call: nat)
    returns (r: Attempts<Report>)
    ensures r == FeedbackRun(personas, Judging(copy, FeedbackPrompt, svc, RetryDelaySeconds, decode), call)
  {
    r := ScoreBatches(personas, Judging(copy, FeedbackPrompt, svc, RetryDelaySeconds, decode), call);
  }

  /** One record per persona, in order, each carrying its persona's id. */
  predicate IdsMatch(records: seq<Feedback>, personas: seq<Persona>) {
    |records| == |personas|
    && forall i :: 0 <= i < |records| ==> records[i].personaId == Get(personas[i], IdKey, UnknownId)
  }

  lemma IdsMatchAppend(r1: seq<Feedback>, p1: seq<Persona>, r2: seq<Feedback>, p2: seq<Persona>)
    requires IdsMatch(r1, p1) && IdsMatch(r2, p2)
    ensures IdsMatch(r1 + r2, p1 + p2)
  {
    forall i | |r1| <= i < |r1| + |r2|
      ensures (r1 + r2)[i].personaId == Get((p1 + p2)[i], IdKey, UnknownId)
    {
      assert (r1 + r2)[i] == r2[i - |r1|] && (p1 + p2)[i] == p2[i - |r1|];
    }
  }

  /** One pass of the outer loop adds one record per persona of the batch,
      in order and with its id, after the earlier records. */
  lemma StageRecords(s: Scored, pauses: seq<Pause>, batch: seq<Persona>, last: bool, judge: Judge, call: nat)
    requires WellJudged(judge)
    ensures var r := Stage(s, pauses, batch, last, judge, call);
      r.result.Ok? ==>
        var t := r.result.value.records;
        t == s.records + t[|s.records|..] && IdsMatch(t[|s.records|..], batch)
  {
    var e := EvaluateAll(batch, |batch|, judge, call);
    EvaluateAllShape(batch, |batch|, judge, call);
    var r := Stage(s, pauses, batch, last, judge, call);
    if r.result.Ok? {
      assert r.result.value.records[|s.records|..] == e.records;
    }
  }

  /** One pass of the outer loop keeps the positive scores of its records
      after the earlier ones; the only exception it raises is the score
      comparison. */
  lemma StageScores(s: Scored, pauses: seq<Pause>, batch: seq<Persona>, last: bool, judge: Judge, call: nat)
    requires PositiveScores(s.records) == Ok(s.scores)
    ensures var r := Stage(s, pauses, batch, last, judge, call);
      && (r.result.Ok? ==> PositiveScores(r.result.value.records) == Ok(r.result.value.scores))
      && (r.result.Err? ==> StartsWith(r.result.error, CompareHead))
  {
    var e := EvaluateAll(batch, |batch|, judge, call);
    if PositiveScores(e.records).Ok? {
      PositiveScoresAppend(s.records, e.records);
    }
  }

  /** One pass of the outer loop sleeps 3 seconds per record read from an
      answer, then 20 seconds unless it was the last batch. */
  lemma StagePacing(s: Scored, pauses: seq<Pause>, batch: seq<Persona>, last: bool, judge: Judge, call: nat)
    requires WellJudged(judge)
    ensures var r := Stage(s, pauses, batch, last, judge, call);
      r.result.Ok? ==>
        && s.parsed <= r.result.value.parsed
        && Pacings(r.pauses) == Pacings(pauses) + (r.result.value.parsed - s.parsed) + (if last then 0 else 1)
  {
    var e := EvaluateAll(batch, |batch|, judge, call);
    EvaluateAllShape(batch, |batch|, judge, call);
    PacingsAppend(pauses, e.pauses);
    PacingsAppend(pauses + e.pauses, [Pacing(BatchWait)]);
    assert Pacings([Pacing(BatchWait)]) == 1;
  }

  /** The same, counting the two kinds of sleep apart: one 3-second sleep per
      record read from an answer, one 20-second sleep unless it was the last
      batch. */
  lemma StagePacingKinds(s: Scored, pauses: seq<Pause>, batch: seq<Persona>, last: bool, judge: Judge, call: nat)
    requires WellJudged(judge)
    ensures var r := Stage(s, pauses, batch, last, judge, call);
      r.result.Ok? ==>
        && PacingsOf(r.pauses, CallWait) + s.parsed == PacingsOf(pauses, CallWait) + r.result.value.parsed
        && PacingsOf(r.pauses, BatchWait) == PacingsOf(pauses, BatchWait) + (if last then 0 else 1)
  {
    var e := EvaluateAll(batch, |batch|, judge, call);
    EvaluateAllPacings(batch, |batch|, judge, call);
    PacingsOfAppend(pauses, e.pauses, CallWait);
    PacingsOfAppend(pauses, e.pauses, BatchWait);
    PacingsOfAppend(pauses + e.pauses, [Pacing(BatchWait)], CallWait);
    PacingsOfAppend(pauses + e.pauses, [Pacing(BatchWait)], BatchWait);
    assert PacingsOf([Pacing(BatchWait)], CallWait) == 0;
    assert PacingsOf([Pacing(BatchWait)], BatchWait) == 1;
  }

  /** One pass of the outer loop makes one to three calls per persona of the
      batch. */
  lemma StageCalls(s: Scored, pauses: seq<Pause>, batch: seq<Persona>, last: bool, judge: Judge, call: nat)
    requires WellJudged(judge)
    ensures var r := Stage(s, pauses, batch, last, judge, call);
      call + |batch| <= r.next <= call + MaxRetries * |batch|
  {
    EvaluateAllShape(batch, |batch|, judge, call);
  }

  /** The personas of the first `k` batches, in order. */
  lemma DoneStep(batches: seq<seq<Persona>>, k: nat)
    requires 0 < k <= |batches|
    ensures Flatten(batches[..k]) == Flatten(batches[..k - 1]) + batches[k - 1]
  {
    assert batches[..k] == batches[..k - 1] + [batches[k - 1]];
    FlattenAppend(batches[..k - 1], [batches[k - 1]]);
    assert Flatten([batches[k - 1]]) == batches[k - 1] + [];
  }

  /** A stage that succeeds extends records matching `done` to records
      matching `done + batch`. */
  lemma StageKeepsIds(s: Scored, pauses: seq<Pause>, batch: seq<Persona>, last: bool, judge: Judge, call: nat,
                      done: seq<Persona>)
    requires WellJudged(judge) && IdsMatch(s.records, done)
    ensures var r := Stage(s, pauses, batch, last, judge, call);
      r.result.Ok? ==> IdsMatch(r.result.value.records, done + batch)
  {
    StageRecords(s, pauses, batch, last, judge, call);
    var r := Stage(s, pauses, batch, last, judge, call);
    if r.result.Ok? {
      var t := r.result.value.records;
      IdsMatchAppend(s.records, done, t[|s.records|..], batch);
    }
  }

  /** Over the first `k` batches: one record per persona, in order and with
      its id. */
  lemma {:induction false} RunRecords(batches: seq<seq<Persona>>, k: nat, judge: Judge, call: nat)
    requires k <= |batches| && WellJudged(judge)
    ensures var r := RunBatches(batches, k, judge, call);
      r.result.Ok? ==> IdsMatch(r.result.value.records, Flatten(batches[..k]))
  {
    if k > 0 {
      var acc := RunBatches(batches, k - 1, judge, call);
      RunRecords(batches, k - 1, judge, call);
      if acc.result.Ok? {
        DoneStep(batches, k);
        StageKeepsIds(acc.result.value, acc.pauses, batches[k - 1], k == |batches|, judge, acc.next,
                      Flatten(batches[..k - 1]));
      }
    }
  }

  /** Over the first `k` batches, the scores kept are the positive ones among
      the records, in order, and the only exception raised is the score
      comparison. */
  lemma {:induction false} RunScores(batches: seq<seq<Persona>>, k: nat, judge: Judge, call: nat)
    requires k <= |batches|
    ensures var r := RunBatches(batches, k, judge, call);
      && (r.result.Ok? ==> PositiveScores(r.result.value.records) == Ok(r.result.value.scores))
      && (r.result.Err? ==> StartsWith(r.result.error, CompareHead))
  {
    if k > 0 {
      var acc := RunBatches(batches, k - 1, judge, call);
      RunScores(batches, k - 1, judge, call);
      if acc.result.Ok? {
        assert RunBatches(batches, k, judge, call) == Stage(acc.result.value, acc.pauses, batches[k - 1], k == |batches|, judge, acc.next);
        StageScores(acc.result.value, acc.pauses, batches[k - 1], k == |batches|, judge, acc.next);
      }
    }
  }

  /** Over the first `k` batches: one 3-second sleep per record read from an
      answer, plus one 20-second sleep after every batch but the last. */
  lemma {:induction false} RunPacing(batches: seq<seq<Persona>>, k: nat, judge: Judge, call: nat)
    requires k <= |batches| && WellJudged(judge)
    ensures var r := RunBatches(batches, k, judge, call);
      r.result.Ok? ==>
        Pacings(r.pauses) == r.result.value.parsed + (if k == |batches| && k > 0 then k - 1 else k)
  {
    if k > 0 {
      var acc := RunBatches(batches, k - 1, judge, call);
      RunPacing(batches, k - 1, judge, call);
      if acc.result.Ok? {
        assert RunBatches(batches, k, judge, call) == Stage(acc.result.value, acc.pauses, batches[k - 1], k == |batches|, judge, acc.next);
        StagePacing(acc.result.value, acc.pauses, batches[k - 1], k == |batches|, judge, acc.next);
      }
    }
  }

  /** The same, counting the two kinds of sleep apart: the 3-second sleeps
      number the records read from an answer, the 20-second ones the batches
      but the last. */
  lemma {:induction false} RunPacingKinds(batches: seq<seq<Persona>>, k: nat, judge: Judge, call: nat)
    requires k <= |batches| && WellJudged(judge)
    ensures var r := RunBatches(batches, k, judge, call);
      r.result.Ok? ==>
        && PacingsOf(r.pauses, CallWait) == r.result.value.parsed
        && PacingsOf(r.pauses, BatchWait) == (if k == |batches| && k > 0 then k - 1 else k)
  {
    if k > 0 {
      var acc := RunBatches(batches, k - 1, judge, call);
      RunPacingKinds(batches, k - 1, judge, call);
      if acc.result.Ok? {
        assert RunBatches(batches, k, judge, call) == Stage(acc.result.value, acc.pauses, batches[k - 1], k == |batches|, judge, acc.next);
        StagePacingKinds(acc.result.value, acc.pauses, batches[k - 1], k == |batches|, judge, acc.next);
      }
    }
  }

  /** Over the first `k` batches: one to three calls per persona. */
  lemma {:induction false} RunCallBounds(batches: seq<seq<Persona>>, k: nat, judge: Judge, call: nat)
    requires k <= |batches| && WellJudged(judge)
    ensures var r := RunBatches(batches, k, judge, call);
      var done := Flatten(batches[..k]);
      r.result.Ok? ==> call + |done| <= r.next <= call + MaxRetries * |done|
  {
    if k > 0 {
      var acc := RunBatches(batches, k - 1, judge, call);
      RunCallBounds(batches, k - 1, judge, call);
      if acc.result.Ok? {
        var batch := batches[k - 1];
        var before := Flatten(batches[..k - 1]);
        DoneStep(batches, k);
        assert RunBatches(batches, k, judge, call) == Stage(acc.result.value, acc.pauses, batch, k == |batches|, judge, acc.next);
        StageCalls(acc.result.value, acc.pauses, batch, k == |batches|, judge, acc.next);
        assert MaxRetries * (|before| + |batch|) == MaxRetries * |before| + MaxRetries * |batch|;
      }
    }
  }

  /** `run_mcp_feedback`: one record per selected persona, in order and with
      its id; the average is that of the positive scores among the records (0
      when there is none); one to three calls per persona; and the only
      exception that escapes is the comparison of a score that is not a
      number. */
  lemma FeedbackRunShape(personas: seq<Persona>, judge: Judge, call: nat)
    requires WellJudged(judge)
    ensures var r := FeedbackRun(personas, judge, call);
      && (r.result.Ok? ==>
            && IdsMatch(r.result.value.feedback, personas)
            && PositiveScores(r.result.value.feedback).Ok?
            && r.result.value.average == Average(PositiveScores(r.result.value.feedback).value)
            && call + |personas| <= r.next <= call + MaxRetries * |personas|)
      && (r.result.Err? ==> StartsWith(r.result.error, CompareHead))
  {
    var batches := Slices(personas, FeedbackBatch);
    assert batches[..|batches|] == batches;
    SlicesFlatten(personas, FeedbackBatch);
    RunRecords(batches, |batches|, judge, call);
    RunScores(batches, |batches|, judge, call);
    RunCallBounds(batches, |batches|, judge, call);
  }
}
