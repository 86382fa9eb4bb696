/** One generation request (`_generate_personas`): the prompt, the records
    pulled out of the model's messages, and the rate-limit retry loop. */
module PersonaGeneration {
  import opened Common
  import opened Scanners

  // ---------------------------------------------------------------------
  // Records pulled out of the model's messages

  /** What one fenced block adds: the object itself, every element of a
      list, nothing for another value or text that does not decode. */
  function Contribution(decoded: Result<Json, string>): (r: seq<Json>)
    ensures decoded.Ok? && decoded.value.JObj? ==> r == [decoded.value]
    ensures decoded.Ok? && decoded.value.JArr? ==> r == decoded.value.items
    ensures !(decoded.Ok? && (decoded.value.JObj? || decoded.value.JArr?)) ==> r == []
  {
    match decoded
    case Ok(JObj(f)) => [JObj(f)]
    case Ok(JArr(items)) => items
    case _ => []
  }

  /** The records of a sequence of blocks, in block order. */
  function FromBlocks(blocks: seq<string>, decode: Decoder): seq<Json> {
    if blocks == [] then [] else Contribution(decode(blocks[0])) + FromBlocks(blocks[1..], decode)
  }

  /** The records of a stream of messages, in message and block order. */
  function FromMessages(msgs: seq<string>, decode: Decoder): seq<Json> {
    if msgs == [] then [] else FromBlocks(Blocks(msgs[0]), decode) + FromMessages(msgs[1..], decode)
  }

  lemma {:induction false} FromBlocksAppend(a: seq<string>, b: seq<string>, decode: Decoder)
    ensures FromBlocks(a + b, decode) == FromBlocks(a, decode) + FromBlocks(b, decode)
  {
    if a == [] {
      assert a + b == b;
    } else {
      assert (a + b)[0] == a[0];
      assert (a + b)[1..] == a[1..] + b;
      FromBlocksAppend(a[1..], b, decode);
    }
  }

  /** Concatenation of what `per` gives for each message, in order. */
  function Gather(msgs: seq<string>, per: string -> seq<Json>): seq<Json> {
    if msgs == [] then [] else per(msgs[0]) + Gather(msgs[1..], per)
  }

  lemma {:induction false} GatherAppend(a: seq<string>, b: seq<string>, per: string -> seq<Json>)
    ensures Gather(a + b, per) == Gather(a, per) + Gather(b, per)
  {
    if a == [] {
      assert a + b == b;
    } else {
      assert (a + b)[0] == a[0];
      assert (a + b)[1..] == a[1..] + b;
      GatherAppend(a[1..], b, per);
    }
  }

  lemma {:induction false} FromMessagesGather(msgs: seq<string>, decode: Decoder)
    ensures FromMessages(msgs, decode) == Gather(msgs, m => FromBlocks(Blocks(m), decode))
  {
    if msgs != [] {
      FromMessagesGather(msgs[1..], decode);
    }
  }

  /** Later messages only add records after those of earlier ones. */
  lemma FromMessagesAppend(a: seq<string>, b: seq<string>, decode: Decoder)
    ensures FromMessages(a + b, decode) == FromMessages(a, decode) + FromMessages(b, decode)
  {
    FromMessagesGather(a + b, decode);
    FromMessagesGather(a, decode);
    FromMessagesGather(b, decode);
    GatherAppend(a, b, m => FromBlocks(Blocks(m), decode));
  }

  /** One more block adds its own records at the end. */
  lemma FromBlocksSnoc(blocks: seq<string>, b: string, decode: Decoder)
    ensures FromBlocks(blocks + [b], decode) == FromBlocks(blocks, decode) + Contribution(decode(b))
  {
    FromBlocksAppend(blocks, [b], decode);
    assert FromBlocks([b], decode) == Contribution(decode(b)) + FromBlocks([], decode);
  }

  /** One more message adds the records of its blocks at the end. */
  lemma FromMessagesSnoc(msgs: seq<string>, m: string, decode: Decoder)
    ensures FromMessages(msgs + [m], decode) == FromMessages(msgs, decode) + FromBlocks(Blocks(m), decode)
  {
    FromMessagesAppend(msgs, [m], decode);
    assert FromMessages([m], decode) == FromBlocks(Blocks(m), decode) + FromMessages([], decode);
  }

  /** A block that does not decode adds nothing and the blocks after it are
      still read. */
  lemma SkipUndecodable(a: seq<string>, x: string, b: seq<string>, decode: Decoder)
    requires decode(x).Err?
    ensures FromBlocks(a + [x] + b, decode) == FromBlocks(a, decode) + FromBlocks(b, decode)
  {
    var c := [x] + b;
    assert c[0] == x && c[1..] == b;
    assert FromBlocks(c, decode) == FromBlocks(b, decode);
    assert a + [x] + b == a + c;
    FromBlocksAppend(a, c, decode);
  }

  /** A message made of fenced blocks in plain prose yields the records of
      its bodies in order. */
  lemma ExtractFenced(segments: seq<(string, string)>, tail: string, decode: Decoder)
    requires forall k :: 0 <= k < |segments| ==> NoBacktick(segments[k].0) && !Contains(segments[k].1, FenceClose)
    requires NoBacktick(tail)
    ensures FromMessages([Fenced(segments, tail)], decode) == FromBlocks(Bodies(segments), decode)
  {
    var m := Fenced(segments, tail);
    assert m[0..|m|] == m;
    BlocksOfFenced(m, 0, segments, tail);
    assert [m][1..] == [];
    assert FromBlocks(Bodies(segments), decode) + [] == FromBlocks(Bodies(segments), decode);
  }

  /** The records of one message's blocks appended to those found so far:
      the inner loop over `blocks`. */
  method AppendRecords(before: seq<Json>, blocks: seq<string>, decode: Decoder) returns (personas: seq<Json>)
    ensures personas == before + FromBlocks(blocks, decode)
  {
    personas := before;
    for b := 0 to |blocks|
      invariant personas == before + FromBlocks(blocks[..b], decode)
    {
      assert FromBlocks(blocks[..b + 1], decode) == FromBlocks(blocks[..b], decode) + Contribution(decode(blocks[b])) by {
        assert blocks[..b + 1] == blocks[..b] + [blocks[b]];
        FromBlocksSnoc(blocks[..b], blocks[b], decode);
      }
      personas := personas + Contribution(decode(blocks[b]));
    }
    assert blocks[..|blocks|] == blocks;
  }

  /** The extraction loop of `_generate_personas`: every message, every
      fenced block in it, each decoded block's records appended. */
  lemma FromMessagesPrefix(stream: seq<string>, m: nat, decode: Decoder)
    requires m < |stream|
    ensures FromMessages(stream[..m + 1], decode) == FromMessages(stream[..m], decode) + FromBlocks(Blocks(stream[m]), decode)
  {
    assert stream[..m + 1] == stream[..m] + [stream[m]];
    FromMessagesSnoc(stream[..m], stream[m], decode);
  }

  method ExtractPersonas(stream: seq<string>, decode: Decoder) returns (personas: seq<Json>)
    ensures personas == FromMessages(stream, decode)
  {
    personas := [];
    for m := 0 to |stream|
      invariant personas == FromMessages(stream[..m], decode)
    {
      FromMessagesPrefix(stream, m, decode);
      personas := AppendRecords(personas, Blocks(stream[m]), decode);
    }
    assert stream[..|stream|] == stream;
  }

  // ---------------------------------------------------------------------
  // The rate-limit retry loop

  /** What a retrying loop does with the text of a failure: wait the given
      number of seconds and call again, or (None) re-raise it. */
  type RetryPolicy = string -> Option<nat>

  const MaxAttempts: nat := 5
  const DefaultWait: nat := 50

  /** Only failures naming both the 429 status and RateLimitError are retried. */
  predicate RateLimited(e: string) {
    Contains(e, "429") && Contains(e, "RateLimitError")
  }

  /** The wait before the next attempt: the advertised retryDelay plus one
      second, or 50 seconds when the text advertises none. */
  function RateLimitWait(e: string): (w: nat)
    ensures !Contains(e, DelayKey) ==> w == DefaultWait
    ensures RetryDelayHint(e).Some? ==> w == RetryDelayHint(e).value + 1
    ensures RetryDelayHint(e).None? ==> w == DefaultWait
  {
    match RetryDelayHint(e)
    case Some(n) => n + 1
    case None => DefaultWait
  }

  /** The policy of `_generate_personas`. */
  function RateLimitPolicy(e: string): Option<nat> {
    if RateLimited(e) then Some(RateLimitWait(e)) else None
  }

  /** Google's payload `'retryDelay': '<n>s'` in a rate-limit error leads to a
      wait of n + 1 seconds; any other failure is re-raised. */
  lemma RateLimitPolicyOfPayload(x: string, n: nat, y: string)
    requires !Contains(x, HintLead)
    ensures RateLimitPolicy(x + HintPayload(n) + y) ==
      if RateLimited(x + HintPayload(n) + y) then Some(n + 1) else None
  {
    HintOfPayload(x, n, y);
    PolicyOfHint(x + HintPayload(n) + y, n);
  }

  lemma PolicyOfHint(e: string, n: nat)
    requires RetryDelayHint(e) == Some(n)
    ensures RateLimitPolicy(e) == if RateLimited(e) then Some(n + 1) else None
  {
  }

  /** A rate-limit error that does not mention retryDelay waits 50 seconds. */
  lemma RateLimitPolicyDefault(e: string)
    requires RateLimited(e) && !Contains(e, DelayKey)
    ensures RateLimitPolicy(e) == Some(DefaultWait)
  {
  }

  /** The attempts of one retrying call, from the attempt that makes service
      call number `call` after `failures` retried failures: the answer, or
      the failure that ended the attempts. */
  function RetryFrom<T>(prompt: string, svc: Service<T>, retry: RetryPolicy, call: nat, failures: nat): Attempts<T>
    requires failures < MaxAttempts
    decreases MaxAttempts - failures
  {
    match svc(call, prompt)
    case Answer(v) => Attempts(Ok(v), [], call + 1)
    case Raised(e) =>
      match retry(e)
      case Some(wait) =>
        if failures + 1 < MaxAttempts then
          var rest := RetryFrom(prompt, svc, retry, call + 1, failures + 1);
          Attempts(rest.result, [Backoff(wait)] + rest.pauses, rest.next)
        else Attempts(Err(e), [], call + 1)
      case None => Attempts(Err(e), [], call + 1)
  }

  /** The records of the answering call's messages in place of the messages. */
  function WithRecords(a: Attempts<seq<string>>, decode: Decoder): Attempts<seq<Json>> {
    match a.result
    case Ok(stream) => Attempts(Ok(FromMessages(stream, decode)), a.pauses, a.next)
    case Err(e) => Attempts(Err(e), a.pauses, a.next)
  }

  /** Attempts preceded by earlier waits. */
  function Prepend<T>(waits: seq<Pause>, a: Attempts<T>): Attempts<T> {
    Attempts(a.result, waits + a.pauses, a.next)
  }

  /** One retried failure: its wait, then the attempts after it. */
  lemma RetryStep<T>(prompt: string, svc: Service<T>, retry: RetryPolicy, call: nat, failures: nat)
    requires failures + 1 < MaxAttempts
    requires svc(call, prompt).Raised? && retry(svc(call, prompt).message).Some?
    ensures RetryFrom(prompt, svc, retry, call, failures)
            == Prepend([Backoff(retry(svc(call, prompt).message).value)], RetryFrom(prompt, svc, retry, call + 1, failures + 1))
  {
  }

  lemma PrependTwice<T>(ps: seq<Pause>, qs: seq<Pause>, a: Attempts<T>)
    ensures Prepend(ps, Prepend(qs, a)) == Prepend(ps + qs, a)
  {
    assert ps + (qs + a.pauses) == (ps + qs) + a.pauses;
  }

  /** The `while True` loop of `_generate_personas` with its retry counter:
      a failure the policy retries is followed by the wait it names and a
      new attempt, until five attempts have been made. */
  method RetryLoop(prompt: string, svc: Service<seq<string>>, decode: Decoder, retry: RetryPolicy, call: nat)
    returns (r: Attempts<seq<Json>>)
    ensures r == WithRecords(RetryFrom(prompt, svc, retry, call, 0), decode)
  {
    var retryCount := 0;
    var n := call;
    var pauses: seq<Pause> := [];
    while true
      invariant retryCount < MaxAttempts
      invariant RetryFrom(prompt, svc, retry, call, 0) == Prepend(pauses, RetryFrom(prompt, svc, retry, n, retryCount))
      decreases MaxAttempts - retryCount
    {
      var outcome := svc(n, prompt);
      if outcome.Answer? {
        var personas := ExtractPersonas(outcome.value, decode);
        assert pauses + [] == pauses;
        return Attempts(Ok(personas), pauses, n + 1);
      }
      var e := outcome.message;
      var wait := retry(e);
      if wait.None? || retryCount + 1 >= MaxAttempts {
        assert pauses + [] == pauses;
        return Attempts(Err(e), pauses, n + 1);
      }
      RetryStep(prompt, svc, retry, n, retryCount);
      PrependTwice(pauses, [Backoff(wait.value)], RetryFrom(prompt, svc, retry, n + 1, retryCount + 1));
      retryCount := retryCount + 1;
      pauses := pauses + [Backoff(wait.value)];
      n := n + 1;
    }
  }

  /** `_generate_personas(prompt)`: the loop run with the rate-limit policy
      written into it. */
  method GeneratePersonas(prompt: string, svc: Service<seq<string>>, decode: Decoder, call: nat)
    returns (r: Attempts<seq<Json>>)
    ensures r == WithRecords(RetryFrom(prompt, svc, RateLimitPolicy, call, 0), decode)
  {
    r := RetryLoop(prompt, svc, decode, RateLimitPolicy, call);
  }

  /** At least one call and at most five are made, with one wait between
      two calls. */
  lemma {:induction false} RetryBounds<T>(prompt: string, svc: Service<T>, retry: RetryPolicy, call: nat, failures: nat)
    requires failures < MaxAttempts
    ensures var r := RetryFrom(prompt, svc, retry, call, failures);
      call < r.next <= call + MaxAttempts - failures && |r.pauses| == r.next - call - 1
    decreases MaxAttempts - failures
  {
    var o := svc(call, prompt);
    if o.Raised? && retry(o.message).Some? && failures + 1 < MaxAttempts {
      RetryBounds(prompt, svc, retry, call + 1, failures + 1);
    }
  }

  /** Every call but the last failed with an error the policy retries, and
      the i-th wait is the one the policy chose for the i-th failure. */
  lemma {:induction false} RetryPause<T>(prompt: string, svc: Service<T>, retry: RetryPolicy, call: nat, failures: nat, i: nat)
    requires failures < MaxAttempts
    requires i < |RetryFrom(prompt, svc, retry, call, failures).pauses|
    ensures svc(call + i, prompt).Raised? && retry(svc(call + i, prompt).message).Some?
    ensures RetryFrom(prompt, svc, retry, call, failures).pauses[i]
            == Backoff(retry(svc(call + i, prompt).message).value)
    decreases i
  {
    var o := svc(call, prompt);
    assert o.Raised? && retry(o.message).Some? && failures + 1 < MaxAttempts;
    if i > 0 {
      RetryPause(prompt, svc, retry, call + 1, failures + 1, i - 1);
      assert call + 1 + (i - 1) == call + i;
    }
  }

  /** The last call decides the result: its answer, or its own error, which
      is one the policy re-raises unless the attempts ran out. */
  lemma {:induction false} RetryOutcome<T>(prompt: string, svc: Service<T>, retry: RetryPolicy, call: nat, failures: nat)
    requires failures < MaxAttempts
    ensures var r := RetryFrom(prompt, svc, retry, call, failures);
      r.next > call &&
      match svc(r.next - 1, prompt)
      case Answer(v) => r.result == Ok(v)
      case Raised(e) => r.result == Err(e) && (retry(e).Some? ==> r.next == call + MaxAttempts - failures)
    decreases MaxAttempts - failures
  {
    var o := svc(call, prompt);
    if o.Raised? && retry(o.message).Some? && failures + 1 < MaxAttempts {
      RetryOutcome(prompt, svc, retry, call + 1, failures + 1);
    }
  }

  /** A failure the policy does not retry ends the call at once with that
      failure and no wait. */
  lemma OtherErrorsRaise<T>(prompt: string, svc: Service<T>, retry: RetryPolicy, call: nat, failures: nat)
    requires failures < MaxAttempts
    requires svc(call, prompt).Raised? && retry(svc(call, prompt).message).None?
    ensures RetryFrom(prompt, svc, retry, call, failures) == Attempts(Err(svc(call, prompt).message), [], call + 1)
  {
  }

  /** A service that keeps failing with errors the policy retries is called
      five times, waited on four times, and its fifth error is raised. */
  lemma {:induction false} PersistentFailure<T>(prompt: string, svc: Service<T>, retry: RetryPolicy, call: nat, failures: nat)
    requires failures < MaxAttempts
    requires forall j :: call <= j < call + MaxAttempts - failures ==>
               svc(j, prompt).Raised? && retry(svc(j, prompt).message).Some?
    ensures var r := RetryFrom(prompt, svc, retry, call, failures);
      && r.next == call + MaxAttempts - failures
      && |r.pauses| == MaxAttempts - failures - 1
      && svc(r.next - 1, prompt).Raised?
      && r.result == Err(svc(r.next - 1, prompt).message)
    decreases MaxAttempts - failures
  {
    assert svc(call, prompt).Raised?;
    if failures + 1 < MaxAttempts {
      PersistentFailure(prompt, svc, retry, call + 1, failures + 1);
    }
  }
}
