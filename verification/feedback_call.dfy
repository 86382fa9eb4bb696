/** `sync_call_gemini_model` and `get_retry_delay` of the scoring client:
    every failure is retried, after the wait the exception text suggests,
    until the retries run out. */
module FeedbackCall {
  import opened Common
  import opened Scanners

  /** The default of `max_retries`. */
  const MaxRetries: int := 3

  /** The wait when the exception text suggests none. */
  const DefaultDelay: nat := 17

  /** `get_retry_delay(error_msg)`: the suggested `retry_delay { seconds: N }`
      plus one second, or 17 seconds. */
  function RetryDelaySeconds(e: string): (w: nat)
    ensures w >= 1
    ensures !Contains(e, DelayField) ==> w == DefaultDelay
    ensures SearchSeconds(e, 0).Some? ==> w == SearchSeconds(e, 0).value + 1
    ensures SearchSeconds(e, 0).None? ==> w == DefaultDelay
  {
    match SearchSeconds(e, 0)
    case Some(n) => n + 1
    case None => DefaultDelay
  }

  /** Google's `retry_delay {\n  seconds: N\n}` in an exception text leads to
      a wait of N + 1 seconds. */
  lemma RetryDelayOfPayload(x: string, n: nat, y: string)
    requires !Contains(x, DelayField)
    ensures RetryDelaySeconds(x + SecondsPayload(n) + y) == n + 1
  {
    SecondsOfPayload(x, n, y);
  }

  /** How long to wait after a failure with a given exception text. */
  type DelayRule = string -> nat

  /** The calls of `sync_call_gemini_model(prompt, max_retries)` from the one
      that makes service call number `call` after `retries` failures, waiting
      as `delay` says: the answer, `None` when no call is allowed at all, or
      the last failure. */
  function CallFrom(prompt: string, svc: Service<string>, delay: DelayRule, maxRetries: int, call: nat, retries: nat)
    : Attempts<Option<string>>
    decreases maxRetries - retries
  {
    if retries >= maxRetries then Attempts(Ok(None), [], call)
    else match svc(call, prompt)
      case Answer(text) => Attempts(Ok(Some(text)), [], call + 1)
      case Raised(e) =>
        if retries + 1 < maxRetries then
          var rest := CallFrom(prompt, svc, delay, maxRetries, call + 1, retries + 1);
          Attempts(rest.result, [Backoff(delay(e))] + rest.pauses, rest.next)
        else Attempts(Err(e), [], call + 1)
  }

  /** Attempts preceded by earlier waits. */
  function After<T>(waits: seq<Pause>, a: Attempts<T>): Attempts<T> {
    Attempts(a.result, waits + a.pauses, a.next)
  }

  /** One failure with retries left: its wait, then the calls after it. */
  lemma CallStep(prompt: string, svc: Service<string>, delay: DelayRule, maxRetries: int, call: nat, retries: nat)
    requires retries + 1 < maxRetries && svc(call, prompt).Raised?
    ensures CallFrom(prompt, svc, delay, maxRetries, call, retries)
            == After([Backoff(delay(svc(call, prompt).message))],
                     CallFrom(prompt, svc, delay, maxRetries, call + 1, retries + 1))
  {
  }

  /** `sync_call_gemini_model(prompt, max_retries)`: the `while retries <
      max_retries` loop, run with `RetryDelaySeconds` as `delay`; the
      `retry_delay` argument is never read. */
  method CallGemini(prompt: string, svc: Service<string>, delay: DelayRule, maxRetries: int, call: nat)
    returns (r: Attempts<Option<string>>)
    ensures r == CallFrom(prompt, svc, delay, maxRetries, call, 0)
  {
    var retries: nat := 0;
    var n := call;
    var pauses: seq<Pause> := [];
    while retries < maxRetries
      invariant n == call + retries
      invariant CallFrom(prompt, svc, delay, maxRetries, call, 0) == After(pauses, CallFrom(prompt, svc, delay, maxRetries, n, retries))
      decreases maxRetries - retries
    {
      var outcome := svc(n, prompt);
      if outcome.Answer? {
        assert pauses + [] == pauses;
        return Attempts(Ok(Some(outcome.value)), pauses, n + 1);
      }
      var wait := delay(outcome.message);
      if retries + 1 >= maxRetries {
        assert pauses + [] == pauses;
        return Attempts(Err(outcome.message), pauses, n + 1);
      }
      CallStep(prompt, svc, delay, maxRetries, n, retries);
      assert pauses + ([Backoff(wait)] + CallFrom(prompt, svc, delay, maxRetries, n + 1, retries + 1).pauses)
             == (pauses + [Backoff(wait)]) + CallFrom(prompt, svc, delay, maxRetries, n + 1, retries + 1).pauses;
      retries := retries + 1;
      pauses := pauses + [Backoff(wait)];
      n := n + 1;
    }
    assert pauses + [] == pauses;
    return Attempts(Ok(None), pauses, n);
  }

  /** `None` comes back exactly when no call is allowed; otherwise one to
      `max_retries` calls are made, with a wait between two calls, and the
      answer or the last failure comes back. */
  lemma {:induction false} CallBounds(prompt: string, svc: Service<string>, delay: DelayRule, maxRetries: int, call: nat, retries: nat)
    ensures var r := CallFrom(prompt, svc, delay, maxRetries, call, retries);
      && (r.result == Ok(None) <==> retries >= maxRetries)
      && (retries >= maxRetries ==> r.next == call && r.pauses == [])
      && (retries < maxRetries ==> call < r.next <= call + maxRetries - retries && |r.pauses| == r.next - call - 1)
    decreases maxRetries - retries
  {
    if retries < maxRetries && svc(call, prompt).Raised? && retries + 1 < maxRetries {
      CallBounds(prompt, svc, delay, maxRetries, call + 1, retries + 1);
    }
  }

  /** Every call but the last failed, and the i-th wait is the delay its
      exception text suggests. */
  lemma {:induction false} CallPause(prompt: string, svc: Service<string>, delay: DelayRule, maxRetries: int, call: nat, retries: nat, i: nat)
    requires i < |CallFrom(prompt, svc, delay, maxRetries, call, retries).pauses|
    ensures svc(call + i, prompt).Raised?
    ensures CallFrom(prompt, svc, delay, maxRetries, call, retries).pauses[i]
            == Backoff(delay(svc(call + i, prompt).message))
    decreases i
  {
    assert retries < maxRetries && svc(call, prompt).Raised? && retries + 1 < maxRetries;
    if i > 0 {
      CallPause(prompt, svc, delay, maxRetries, call + 1, retries + 1, i - 1);
      assert call + 1 + (i - 1) == call + i;
    }
  }

  /** The last call decides the result: its answer, or its failure, which is
      re-raised only once all `max_retries` calls were made. */
  lemma {:induction false} CallOutcome(prompt: string, svc: Service<string>, delay: DelayRule, maxRetries: int, call: nat, retries: nat)
    requires retries < maxRetries
    ensures var r := CallFrom(prompt, svc, delay, maxRetries, call, retries);
      r.next > call &&
      match svc(r.next - 1, prompt)
      case Answer(text) => r.result == Ok(Some(text))
      case Raised(e) => r.result == Err(e) && r.next == call + maxRetries - retries
    decreases maxRetries - retries
  {
    if svc(call, prompt).Raised? && retries + 1 < maxRetries {
      CallOutcome(prompt, svc, delay, maxRetries, call + 1, retries + 1);
    }
  }

  /** The sleeps of a call are all retry waits, none a pacing delay. */
  lemma {:induction false} CallNoPacing(prompt: string, svc: Service<string>, delay: DelayRule, maxRetries: int, call: nat, retries: nat)
    ensures Pacings(CallFrom(prompt, svc, delay, maxRetries, call, retries).pauses) == 0
    decreases maxRetries - retries
  {
    if retries < maxRetries && svc(call, prompt).Raised? && retries + 1 < maxRetries {
      var rest := CallFrom(prompt, svc, delay, maxRetries, call + 1, retries + 1);
      CallNoPacing(prompt, svc, delay, maxRetries, call + 1, retries + 1);
      assert ([Backoff(delay(svc(call, prompt).message))] + rest.pauses)[1..] == rest.pauses;
    }
  }
}
