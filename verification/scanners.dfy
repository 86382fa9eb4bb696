/** Hand-written scanners for the regular expressions the pipelines apply to
    model output and to exception texts. Each follows the matching rules of
    Python's `re` for its one pattern: leftmost match, lazy or greedy as the
    pattern says, and `findall` resuming after the previous match. */
module Scanners {
  import opened Common

  // ---------------------------------------------------------------------
  // re.findall(r"```json\n(.*?)\n```", text, re.DOTALL)

  const FenceOpen: string := "```json\n"
  const FenceClose: string := "\n```"

  lemma SliceOccurs(s: string, p: string, base: nat, b: string, t: nat)
    requires base + |b| <= |s| && b == s[base..base + |b|]
    requires OccursAt(b, p, t)
    ensures OccursAt(s, p, base + t)
  {
    forall i | 0 <= i < |p| ensures s[base + t + i] == p[i] {
      assert b[t + i] == s[base + t + i];
    }
  }

  lemma SliceOccursBack(s: string, p: string, base: nat, b: string, t: nat)
    requires base + |b| <= |s| && b == s[base..base + |b|]
    requires t + |p| <= |b|
    ensures OccursAt(s, p, base + t) ==> OccursAt(b, p, t)
  {
    var bs, ss := b[t..t + |p|], s[base + t..base + t + |p|];
    forall i | 0 <= i < |p| ensures bs[i] == ss[i] {
      assert b[t + i] == s[base + t + i];
    }
    assert bs == ss;
  }

  /** `re.findall` of `open(.*?)close` under `re.DOTALL`, from position `pos`
      on: each match starts at the first `open`, ends at the first `close`
      after it, and the scan resumes after that `close`. */
  function SpansFrom(s: string, open: string, close: string, pos: nat): seq<string>
    requires |open| > 0
    decreases |s| - pos
  {
    match FindFrom(s, open, pos)
    case None => []
    case Some(i) =>
      match FindFrom(s, close, i + |open|)
      case None => []
      case Some(j) => [s[i + |open|..j]] + SpansFrom(s, open, close, j + |close|)
  }

  /** The bodies of the fenced JSON blocks found from position `pos` on. */
  function BlocksFrom(s: string, pos: nat): seq<string> {
    SpansFrom(s, FenceOpen, FenceClose, pos)
  }

  lemma SpansUnfold(s: string, open: string, close: string, from: nat, i: nat, j: nat)
    requires |open| > 0
    requires FindFrom(s, open, from) == Some(i)
    requires FindFrom(s, close, i + |open|) == Some(j)
    ensures SpansFrom(s, open, close, from) == [s[i + |open|..j]] + SpansFrom(s, open, close, j + |close|)
  {
  }

  /** The match is lazy: no match holds `close`. */
  lemma {:induction false} SpansLazy(s: string, open: string, close: string, pos: nat)
    requires |open| > 0 && |close| > 0
    ensures forall k :: 0 <= k < |SpansFrom(s, open, close, pos)| ==> !Contains(SpansFrom(s, open, close, pos)[k], close)
    decreases |s| - pos
  {
    match FindFrom(s, open, pos)
    case None =>
    case Some(i) =>
      match FindFrom(s, close, i + |open|)
      case None =>
      case Some(j) =>
        FindFromFirstOccurrence(s, close, i + |open|);
        LazyBody(s, close, i + |open|, j, s[i + |open|..j]);
        SpansLazy(s, open, close, j + |close|);
        SpansUnfold(s, open, close, pos, i, j);
  }

  /** The match is lazy: no block holds a closing fence. */
  lemma BlocksLazy(s: string, pos: nat)
    ensures forall k :: 0 <= k < |BlocksFrom(s, pos)| ==> !Contains(BlocksFrom(s, pos)[k], FenceClose)
  {
    SpansLazy(s, FenceOpen, FenceClose, pos);
  }

  /** A lazily matched body holds no occurrence of the closing pattern. */
  lemma LazyBody(s: string, close: string, start: nat, j: nat, b: string)
    requires |close| > 0
    requires start <= j <= |s| && b == s[start..j]
    requires forall k :: start <= k < j ==> !OccursAt(s, close, k)
    ensures !Contains(b, close)
  {
    if Contains(b, close) {
      FindFromFirstOccurrence(b, close, 0);
      var t := FindFrom(b, close, 0).value;
      SliceOccurs(s, close, start, b, t);
      assert false;
    }
  }

  /** Every fenced block of a model message, in order. */
  function Blocks(s: string): seq<string> {
    BlocksFrom(s, 0)
  }

  /** A message laid out as prose, block, prose, block, ..., trailing prose,
      each block between `open` and `close`. */
  function FencedWith(segments: seq<(string, string)>, tail: string, open: string, close: string): string {
    if segments == [] then tail
    else segments[0].0 + open + segments[0].1 + close + FencedWith(segments[1..], tail, open, close)
  }

  /** The same layout with the JSON fences. */
  function Fenced(segments: seq<(string, string)>, tail: string): string {
    if segments == [] then tail
    else segments[0].0 + FenceOpen + segments[0].1 + FenceClose + Fenced(segments[1..], tail)
  }

  lemma {:induction false} FencedIsFencedWith(segments: seq<(string, string)>, tail: string)
    ensures Fenced(segments, tail) == FencedWith(segments, tail, FenceOpen, FenceClose)
    decreases |segments|
  {
    if segments != [] {
      FencedIsFencedWith(segments[1..], tail);
    }
  }

  predicate NoBacktick(s: string) {
    forall i :: 0 <= i < |s| ==> s[i] != '`'
  }

  function Bodies(segments: seq<(string, string)>): (r: seq<string>)
    ensures |r| == |segments|
  {
    if segments == [] then [] else [segments[0].1] + Bodies(segments[1..])
  }

  /** An opening pattern that starts with a backtick cannot start inside
      prose without backticks. */
  predicate OpensWithBacktick(open: string) {
    |open| > 0 && open[0] == '`'
  }

  /** A closing pattern whose first character does not recur in it cannot
      overlap an occurrence of itself. */
  predicate LeadUnique(close: string) {
    |close| > 0 && forall m :: 0 < m < |close| ==> close[m] != close[0]
  }

  lemma FencesShape()
    ensures OpensWithBacktick(FenceOpen) && LeadUnique(FenceClose)
  {
  }

  /** No opening pattern starts inside prose without backticks. */
  lemma NoOpenInProse(s: string, open: string, from: nat, prose: string)
    requires OpensWithBacktick(open)
    requires from + |prose| <= |s| && s[from..from + |prose|] == prose && NoBacktick(prose)
    ensures forall k :: from <= k < from + |prose| ==> !OccursAt(s, open, k)
  {
    forall k | from <= k < from + |prose| ensures !OccursAt(s, open, k) {
      assert s[k] == prose[k - from];
      assert k + |open| <= |s| ==> s[k..k + |open|][0] == s[k];
    }
  }

  /** Where a body holding no `close` is followed by `close`, the first
      `close` after the body's start is that one. */
  lemma CloseAfterBody(s: string, close: string, start: nat, body: string)
    requires LeadUnique(close)
    requires start + |body| <= |s| && s[start..start + |body|] == body
    requires OccursAt(s, close, start + |body|)
    requires !Contains(body, close)
    ensures FindFrom(s, close, start) == Some(start + |body|)
  {
    var e := start + |body|;
    assert s[e] == s[e..e + |close|][0] == close[0];
    FindFromFirstOccurrence(body, close, 0);
    forall k | start <= k < e ensures !OccursAt(s, close, k) {
      if k + |close| <= e {
        SliceOccursBack(s, close, start, body, k - start);
      } else {
        // an occurrence here would overlap the real one and put a later
        // character of `close` where its first character is
        assert 0 < e - k < |close| && close[e - k] != s[e];
        assert k + |close| <= |s| ==> s[k..k + |close|][e - k] == s[e];
      }
    }
    FindFromFirst(s, close, start, e);
  }

  lemma FindFromFirst(s: string, p: string, from: nat, e: nat)
    requires from <= e && OccursAt(s, p, e)
    requires forall k :: from <= k < e ==> !OccursAt(s, p, k)
    ensures FindFrom(s, p, from) == Some(e)
    decreases e - from
  {
    MatchesAtOccurs(s, p, from);
    if from < e {
      FindFromFirst(s, p, from + 1, e);
    }
  }

  lemma FindFromNone(s: string, p: string, from: nat)
    requires forall k :: from <= k ==> !OccursAt(s, p, k)
    ensures FindFrom(s, p, from) == None
    decreases |s| - from
  {
    MatchesAtOccurs(s, p, from);
    if from + |p| <= |s| {
      FindFromNone(s, p, from + 1);
    }
  }

  /** Where the text from `from` on is one block and more, each part sits
      at its place. */
  lemma FencedParts(s: string, open: string, close: string, from: nat, prose: string, body: string, rest: string)
    requires from <= |s| && s[from..] == prose + open + body + close + rest
    ensures var i := from + |prose|; var j := i + |open| + |body|;
      && j + |close| <= |s|
      && s[from..i] == prose
      && OccursAt(s, open, i)
      && s[i + |open|..j] == body
      && OccursAt(s, close, j)
      && s[j + |close|..] == rest
  {
    var t := s[from..];
    var i := |prose|;
    var j := i + |open| + |body|;
    assert t[..i] == prose;
    assert t[i..i + |open|] == open;
    assert t[i + |open|..j] == body;
    assert t[j..j + |close|] == close;
    assert t[j + |close|..] == rest;
  }

  lemma OpenAfterProse(s: string, open: string, from: nat, prose: string)
    requires OpensWithBacktick(open)
    requires from + |prose| <= |s| && s[from..from + |prose|] == prose && NoBacktick(prose)
    requires OccursAt(s, open, from + |prose|)
    ensures FindFrom(s, open, from) == Some(from + |prose|)
  {
    NoOpenInProse(s, open, from, prose);
    FindFromFirst(s, open, from, from + |prose|);
  }

  /** In a text laid out as prose, block and rest, the first `open` is the
      block's and the first `close` after it ends the block. */
  lemma BlockFound(s: string, open: string, close: string, from: nat, prose: string, body: string, rest: string)
    requires OpensWithBacktick(open) && LeadUnique(close)
    requires NoBacktick(prose) && !Contains(body, close)
    requires from <= |s| && s[from..] == prose + open + body + close + rest
    ensures var i := from + |prose|; var j := i + |open| + |body|;
      && FindFrom(s, open, from) == Some(i)
      && FindFrom(s, close, i + |open|) == Some(j)
      && s[i + |open|..j] == body
      && j + |close| <= |s| && s[j + |close|..] == rest
  {
    var i := from + |prose|;
    FencedParts(s, open, close, from, prose, body, rest);
    OpenAfterProse(s, open, from, prose);
    CloseAfterBody(s, close, i + |open|, body);
  }

  /** With the first `open` at `i` and the first `close` after it at `j`,
      the match is the text between them and the scan resumes after `j`. */
  lemma SpansMatch(s: string, open: string, close: string, from: nat, i: nat, j: nat, body: string, next: nat)
    requires |open| > 0
    requires FindFrom(s, open, from) == Some(i)
    requires FindFrom(s, close, i + |open|) == Some(j)
    requires i + |open| <= j && s[i + |open|..j] == body && next == j + |close|
    ensures SpansFrom(s, open, close, from) == [body] + SpansFrom(s, open, close, next)
  {
    SpansUnfold(s, open, close, from, i, j);
  }

  /** Prose without backticks holds no match. */
  lemma NoSpansInProse(s: string, open: string, close: string, from: nat, tail: string)
    requires OpensWithBacktick(open)
    requires from <= |s| && s[from..] == tail && NoBacktick(tail)
    ensures SpansFrom(s, open, close, from) == []
  {
    assert s[from..from + |tail|] == tail;
    NoOpenInProse(s, open, from, tail);
    FindFromNone(s, open, from);
  }

  /** Extraction recovers exactly the bodies of a laid-out message, whatever
      prose surrounds them, provided the prose has no backticks and no body
      holds `close`. */
  lemma {:induction false} SpansOfFenced(s: string, open: string, close: string, from: nat,
                                         segments: seq<(string, string)>, tail: string)
    requires OpensWithBacktick(open) && LeadUnique(close)
    requires forall k :: 0 <= k < |segments| ==> NoBacktick(segments[k].0) && !Contains(segments[k].1, close)
    requires NoBacktick(tail)
    requires from <= |s| && s[from..] == FencedWith(segments, tail, open, close)
    ensures SpansFrom(s, open, close, from) == Bodies(segments)
    decreases |segments|
  {
    if segments == [] {
      NoSpansInProse(s, open, close, from, tail);
    } else {
      var prose, body := segments[0].0, segments[0].1;
      var rest := FencedWith(segments[1..], tail, open, close);
      var i := from + |prose|;
      var next := i + |open| + |body| + |close|;
      BlockFound(s, open, close, from, prose, body, rest);
      SpansMatch(s, open, close, from, i, i + |open| + |body|, body, next);
      SpansOfFenced(s, open, close, next, segments[1..], tail);
      assert Bodies(segments) == [body] + Bodies(segments[1..]);
    }
  }

  /** Extraction recovers exactly the bodies of a message built from fenced
      blocks, whatever prose surrounds them, provided the prose has no
      backticks and no body holds a closing fence. */
  lemma BlocksOfFenced(s: string, from: nat, segments: seq<(string, string)>, tail: string)
    requires forall k :: 0 <= k < |segments| ==> NoBacktick(segments[k].0) && !Contains(segments[k].1, FenceClose)
    requires NoBacktick(tail)
    requires from <= |s| && s[from..] == Fenced(segments, tail)
    ensures BlocksFrom(s, from) == Bodies(segments)
  {
    FencesShape();
    FencedIsFencedWith(segments, tail);
    SpansOfFenced(s, FenceOpen, FenceClose, from, segments, tail);
  }

  /** Prose without backticks holds no block. */
  lemma NoBlocksInProse(s: string, from: nat, tail: string)
    requires from <= |s| && s[from..] == tail && NoBacktick(tail)
    ensures BlocksFrom(s, from) == []
  {
    FencesShape();
    NoSpansInProse(s, FenceOpen, FenceClose, from, tail);
  }

  function SkipSpaces(s: string, i: nat): (j: nat)
    requires i <= |s|
    ensures i <= j <= |s|
    ensures forall k :: i <= k < j ==> IsSpace(s[k])
    ensures j == |s| || !IsSpace(s[j])
    decreases |s| - i
  {
    if i < |s| && IsSpace(s[i]) then SkipSpaces(s, i + 1) else i
  }

  function SkipDigits(s: string, i: nat): (j: nat)
    requires i <= |s|
    ensures i <= j <= |s|
    ensures forall k :: i <= k < j ==> IsDigit(s[k])
    ensures j == |s| || !IsDigit(s[j])
    decreases |s| - i
  {
    if i < |s| && IsDigit(s[i]) then SkipDigits(s, i + 1) else i
  }

  // ---------------------------------------------------------------------
  // The retryDelay patterns of the persona generator:
  //   'retryDelay':\s*'(\d+)s'      "retryDelay":\s*"(\d+)s"
  //   retryDelay["']:\s*["'](\d+)s["']
  // Each is `lead retryDelay Q : \s* Q (\d+) s Q` with Q drawn from `quotes`.

  const DelayKey: string := "retryDelay"

  /** The number captured by a match starting exactly at position k. */
  function DelayMatchAt(s: string, k: nat, lead: string, quotes: set<char>): (r: Option<nat>)
    ensures r.Some? ==> OccursAt(s, lead + DelayKey, k)
  {
    if !OccursAt(s, lead + DelayKey, k) then None
    else ColonFrom(s, k + |lead| + |DelayKey|, quotes)
  }

  /** `Q:` after the key, then the rest of the pattern. */
  function ColonFrom(s: string, p: nat, quotes: set<char>): Option<nat> {
    if p + 2 > |s| || s[p] !in quotes || s[p + 1] != ':' then None
    else QuotedNumberFrom(s, p + 2, quotes)
  }

  /** `\s*Q(\d+)sQ`: the captured number. */
  function QuotedNumberFrom(s: string, i: nat, quotes: set<char>): Option<nat>
    requires i <= |s|
  {
    var q := SkipSpaces(s, i);
    if q >= |s| || s[q] !in quotes then None
    else
      var d := SkipDigits(s, q + 1);
      if d == q + 1 || d + 2 > |s| || s[d] != 's' || s[d + 1] !in quotes then None
      else Some(DigitsValue(s[q + 1..d]))
  }

  /** `re.search` of one pattern: the leftmost match at or after k. */
  function SearchDelay(s: string, lead: string, quotes: set<char>, k: nat): (r: Option<nat>)
    ensures r.Some? ==> Contains(s, DelayKey)
    decreases |s| + 1 - k
  {
    if k > |s| then None
    else match DelayMatchAt(s, k, lead, quotes)
      case Some(v) =>
        OccursAtAppend(s, lead, DelayKey, k);
        ContainsWitness(s, DelayKey, k + |lead|);
        Some(v)
      case None => SearchDelay(s, lead, quotes, k + 1)
  }

  /** The three patterns tried in order, as the generator does. */
  function RetryDelayHint(e: string): (r: Option<nat>)
    ensures r.Some? ==> Contains(e, DelayKey)
  {
    match SearchDelay(e, "'", {'\''}, 0)
    case Some(v) => Some(v)
    case None =>
      match SearchDelay(e, "\"", {'"'}, 0)
      case Some(v) => Some(v)
      case None => SearchDelay(e, "", {'"', '\''}, 0)
  }

  lemma NoMatchBefore(s: string, lead: string, quotes: set<char>, from: nat, k: nat)
    requires from <= k <= |s|
    requires forall m :: from <= m < k ==> DelayMatchAt(s, m, lead, quotes).None?
    ensures SearchDelay(s, lead, quotes, from) == SearchDelay(s, lead, quotes, k)
    decreases k - from
  {
    if from < k {
      NoMatchBefore(s, lead, quotes, from + 1, k);
    }
  }

  /** A key none of whose proper suffixes is also a prefix of it. */
  predicate Borderless(key: string) {
    forall d :: 0 < d < |key| ==> key[d..] != key[..|key| - d]
  }

  /** In `x + key + rest`, when `x` does not contain a borderless key, the
      first occurrence of the key is the one after `x`. */
  lemma FirstOccurrenceAfter(x: string, key: string, rest: string)
    requires !Contains(x, key) && Borderless(key)
    ensures forall m :: 0 <= m < |x| ==> !OccursAt(x + key + rest, key, m)
  {
    var s := x + key + rest;
    FindFromFirstOccurrence(x, key, 0);
    forall m | 0 <= m < |x| ensures !OccursAt(s, key, m) {
      if m + |key| <= |x| {
        SliceOccursBack(s, key, 0, x, m);
      } else if m + |key| <= |s| {
        var d := |x| - m;
        assert s[m..m + |key|][d..] == s[|x|..m + |key|] == key[..|key| - d];
      }
    }
  }

  /** The characters the three patterns accept as quotes. */
  predicate IsQuote(q: char) {
    q == '\'' || q == '"'
  }

  /** The key with its opening quote: `'retryDelay` or `"retryDelay`. */
  function HintLeadOf(q: char): string {
    [q] + DelayKey
  }

  const HintLead: string := HintLeadOf('\'')

  lemma HintLeadBorderless(q: char)
    requires IsQuote(q)
    ensures Borderless(HintLeadOf(q))
  {
    var lead := HintLeadOf(q);
    forall d | 0 < d < |lead| ensures lead[d..] != lead[..|lead| - d] {
      assert lead[d..][0] == DelayKey[d - 1] != q == lead[..|lead| - d][0];
    }
  }

  /** The retry hint as Google's rate-limit payload writes it, quoted with
      `q`: `'retryDelay': '<n>s'` or `"retryDelay": "<n>s"`. */
  function HintPayloadOf(q: char, n: nat): string {
    HintLeadOf(q) + [q, ':', ' ', q] + NatToString(n) + ['s', q]
  }

  /** The single-quoted payload, as a Python dict prints it. */
  function HintPayload(n: nat): string {
    HintPayloadOf('\'', n)
  }

  /** The pieces of the payload, located in `s`. */
  lemma HintPayloadPieces(s: string, k: nat, n: nat, q: char)
    requires OccursAt(s, HintPayloadOf(q, n), k)
    ensures var d := k + 15 + |NatToString(n)|;
      && OccursAt(s, HintLeadOf(q), k)
      && OccursAt(s, [q, ':', ' ', q], k + 11)
      && OccursAt(s, NatToString(n), k + 15)
      && OccursAt(s, ['s', q], d)
  {
    var digits := NatToString(n);
    OccursAtAppend(s, HintLeadOf(q) + [q, ':', ' ', q] + digits, ['s', q], k);
    OccursAtAppend(s, HintLeadOf(q) + [q, ':', ' ', q], digits, k);
    OccursAtAppend(s, HintLeadOf(q), [q, ':', ' ', q], k);
  }

  lemma QuotedNumberOfPayload(s: string, k: nat, n: nat, q: char)
    requires IsQuote(q) && k + 15 <= |s|
    requires OccursAt(s, [q, ':', ' ', q], k + 11) && OccursAt(s, NatToString(n), k + 15)
    requires OccursAt(s, ['s', q], k + 15 + |NatToString(n)|)
    ensures QuotedNumberFrom(s, k + 13, {q}) == Some(n)
  {
    var d := k + 15 + |NatToString(n)|;
    var gap := s[k + 11..k + 15];
    assert s[k + 13] == gap[2] == ' ' && s[k + 14] == gap[3] == q;
    var close := s[d..d + 2];
    assert s[d] == close[0] == 's' && s[d + 1] == close[1] == q;
    QuoteNotSpace(q);
    QuotedNumberAt(s, k + 13, n, {q});
  }

  lemma QuoteNotSpace(q: char)
    requires IsQuote(q)
    ensures !IsSpace(q)
  {
  }

  /** One space, a quote, the digits of n, `s` and a quote. */
  lemma QuotedNumberAt(s: string, i: nat, n: nat, quotes: set<char>)
    requires i + 2 <= |s| && IsSpace(s[i]) && s[i + 1] in quotes && !IsSpace(s[i + 1])
    requires OccursAt(s, NatToString(n), i + 2)
    requires var d := i + 2 + |NatToString(n)|; d + 2 <= |s| && s[d] == 's' && s[d + 1] in quotes
    ensures QuotedNumberFrom(s, i, quotes) == Some(n)
  {
    QuotedDigitsAt(s, i, NatToString(n), quotes);
    DigitsValueOfNatToString(n);
  }

  /** The same for any run of digits. */
  lemma QuotedDigitsAt(s: string, i: nat, digits: string, quotes: set<char>)
    requires |digits| >= 1 && forall m :: 0 <= m < |digits| ==> IsDigit(digits[m])
    requires i + 2 <= |s| && IsSpace(s[i]) && s[i + 1] in quotes && !IsSpace(s[i + 1])
    requires OccursAt(s, digits, i + 2)
    requires var d := i + 2 + |digits|; d + 2 <= |s| && s[d] == 's' && s[d + 1] in quotes
    ensures QuotedNumberFrom(s, i, quotes) == Some(DigitsValue(digits))
  {
    var d := i + 2 + |digits|;
    SkipSpacesOver(s, i, i + 1);
    DigitStringAt(s, i + 2, digits);
    QuotedNumberParts(s, i, quotes, i + 1, d);
  }

  /** Where the quote, the digits and the closing `s` and quote sit. */
  lemma QuotedNumberParts(s: string, i: nat, quotes: set<char>, q: nat, d: nat)
    requires i <= |s| && SkipSpaces(s, i) == q && q < |s| && s[q] in quotes
    requires SkipDigits(s, q + 1) == d && d != q + 1
    requires d + 2 <= |s| && s[d] == 's' && s[d + 1] in quotes
    ensures QuotedNumberFrom(s, i, quotes) == Some(DigitsValue(s[q + 1..d]))
  {
  }


  /** The decimal rendering of n, followed by a non-digit, is read as n. */
  lemma DigitsAt(s: string, c: nat, n: nat)
    requires OccursAt(s, NatToString(n), c)
    requires c + |NatToString(n)| < |s| && !IsDigit(s[c + |NatToString(n)|])
    ensures SkipDigits(s, c) == c + |NatToString(n)|
    ensures DigitsValue(s[c..SkipDigits(s, c)]) == n
  {
    DigitStringAt(s, c, NatToString(n));
    DigitsValueOfNatToString(n);
  }

  /** A run of digits followed by a non-digit is skipped whole. */
  lemma DigitStringAt(s: string, c: nat, digits: string)
    requires forall m :: 0 <= m < |digits| ==> IsDigit(digits[m])
    requires OccursAt(s, digits, c)
    requires c + |digits| < |s| && !IsDigit(s[c + |digits|])
    ensures SkipDigits(s, c) == c + |digits|
    ensures s[c..c + |digits|] == digits
  {
    var d := c + |digits|;
    assert forall m :: c <= m < d ==> s[m] == s[c..d][m - c];
    DigitsRun(s, c, d);
  }

  lemma HintMatchAt(s: string, k: nat, n: nat, q: char)
    requires IsQuote(q) && OccursAt(s, HintPayloadOf(q, n), k)
    ensures DelayMatchAt(s, k, [q], {q}) == Some(n)
  {
    HintPayloadPieces(s, k, n, q);
    var gap := s[k + 11..k + 15];
    assert s[k + 11] == gap[0] == q && s[k + 12] == gap[1] == ':';
    QuotedNumberOfPayload(s, k, n, q);
  }

  /** The pattern quoted with `q` reads the payload quoted with `q` back as n
      when nothing before it holds the quoted key. */
  lemma {:induction false} SearchOfPayload(x: string, n: nat, y: string, q: char)
    requires IsQuote(q) && !Contains(x, HintLeadOf(q))
    ensures SearchDelay(x + HintPayloadOf(q, n) + y, [q], {q}, 0) == Some(n)
  {
    var lead := HintLeadOf(q);
    var s := x + HintPayloadOf(q, n) + y;
    var rest := HintPayloadOf(q, n)[|lead|..] + y;
    assert s == x + lead + rest;
    HintLeadBorderless(q);
    FirstOccurrenceAfter(x, lead, rest);
    assert forall m :: 0 <= m < |x| ==> DelayMatchAt(s, m, [q], {q}).None?;
    NoMatchBefore(s, [q], {q}, 0, |x|);
    OccursAtMiddle(x, HintPayloadOf(q, n), y);
    HintMatchAt(s, |x|, n, q);
  }

  /** The hint Google's rate-limit payload carries, `'retryDelay': '<n>s'`, is
      read back as n when nothing before it mentions retryDelay. */
  lemma HintOfPayload(x: string, n: nat, y: string)
    requires !Contains(x, HintLead)
    ensures RetryDelayHint(x + HintPayload(n) + y) == Some(n)
  {
    SearchOfPayload(x, n, y, '\'');
  }

  /** Text without an apostrophe never matches the single-quoted pattern. */
  lemma {:induction false} NoApostropheNoMatch(s: string, k: nat)
    requires forall i :: 0 <= i < |s| ==> s[i] != '\''
    ensures SearchDelay(s, "'", {'\''}, k) == None
    decreases |s| + 1 - k
  {
    if k <= |s| {
      NoApostropheNoMatch(s, k + 1);
    }
  }

  /** The double-quoted payload has no apostrophe. */
  lemma DoubleQuotedPayloadPlain(n: nat)
    ensures forall i :: 0 <= i < |HintPayloadOf('"', n)| ==> HintPayloadOf('"', n)[i] != '\''
  {
    var digits := NatToString(n);
    var p := HintPayloadOf('"', n);
    forall i | 0 <= i < |p| ensures p[i] != '\'' {
      if i < 11 {
        assert p[i] == HintLeadOf('"')[i];
      } else if i < 15 {
        assert p[i] == ['"', ':', ' ', '"'][i - 11];
      } else if i < 15 + |digits| {
        assert p[i] == digits[i - 15];
      } else {
        assert p[i] == ['s', '"'][i - 15 - |digits|];
      }
    }
  }

  /** The payload as JSON writes it, `"retryDelay": "<n>s"`, falls through the
      single-quoted pattern and is read back as n by the double-quoted one,
      when the text has no apostrophe and nothing before the payload holds
      `"retryDelay`. */
  lemma DoubleQuotedHintOfPayload(x: string, n: nat, y: string)
    requires !Contains(x, HintLeadOf('"'))
    requires forall i :: 0 <= i < |x| ==> x[i] != '\''
    requires forall i :: 0 <= i < |y| ==> y[i] != '\''
    ensures RetryDelayHint(x + HintPayloadOf('"', n) + y) == Some(n)
  {
    var p := HintPayloadOf('"', n);
    var s := x + p + y;
    DoubleQuotedPayloadPlain(n);
    forall i | 0 <= i < |s| ensures s[i] != '\'' {
      if i < |x| {
        assert s[i] == x[i];
      } else if i < |x| + |p| {
        assert s[i] == p[i - |x|];
      } else {
        assert s[i] == y[i - |x| - |p|];
      }
    }
    NoApostropheNoMatch(s, 0);
    SearchOfPayload(x, n, y, '"');
  }

  lemma DigitsRun(s: string, i: nat, d: nat)
    requires i <= d < |s| && !IsDigit(s[d])
    requires forall k :: i <= k < d ==> IsDigit(s[k])
    ensures SkipDigits(s, i) == d
    decreases d - i
  {
    if i < d {
      DigitsRun(s, i + 1, d);
    }
  }

  // ---------------------------------------------------------------------
  // The scoring client's pattern: retry_delay\s*{\s*seconds:\s*(\d+)\s*}

  const DelayField: string := "retry_delay"
  const SecondsField: string := "seconds:"

  /** The number captured by a match starting exactly at position k. */
  function SecondsMatchAt(s: string, k: nat): (r: Option<nat>)
    ensures r.Some? ==> OccursAt(s, DelayField, k)
  {
    if !OccursAt(s, DelayField, k) then None else BraceFrom(s, k + |DelayField|)
  }

  /** `\s*{` then the rest of the pattern. */
  function BraceFrom(s: string, i: nat): Option<nat>
    requires i <= |s|
  {
    var a := SkipSpaces(s, i);
    if a >= |s| || s[a] != '{' then None else FieldFrom(s, a + 1)
  }

  /** `\s*seconds:` then the rest of the pattern. */
  function FieldFrom(s: string, i: nat): Option<nat>
    requires i <= |s|
  {
    var b := SkipSpaces(s, i);
    if !OccursAt(s, SecondsField, b) then None else NumberFrom(s, b + |SecondsField|)
  }

  /** `\s*(\d+)\s*}`: the captured number. */
  function NumberFrom(s: string, i: nat): Option<nat>
    requires i <= |s|
  {
    var c := SkipSpaces(s, i);
    var d := SkipDigits(s, c);
    if d == c then None
    else
      var e := SkipSpaces(s, d);
      if e >= |s| || s[e] != '}' then None
      else Some(DigitsValue(s[c..d]))
  }

  /** `re.search`: the number captured by the leftmost match at or after k. */
  function SearchSeconds(s: string, k: nat): (r: Option<nat>)
    ensures r.Some? ==> Contains(s, DelayField)
    decreases |s| + 1 - k
  {
    if k > |s| then None
    else match SecondsMatchAt(s, k)
      case Some(v) => ContainsWitness(s, DelayField, k); Some(v)
      case None => SearchSeconds(s, k + 1)
  }

  lemma NoSecondsBefore(s: string, from: nat, k: nat)
    requires from <= k <= |s|
    requires forall m :: from <= m < k ==> SecondsMatchAt(s, m).None?
    ensures SearchSeconds(s, from) == SearchSeconds(s, k)
    decreases k - from
  {
    if from < k {
      assert SecondsMatchAt(s, from).None?;
      assert SearchSeconds(s, from) == SearchSeconds(s, from + 1);
      NoSecondsBefore(s, from + 1, k);
    }
  }

  lemma DelayFieldBorderless()
    ensures Borderless(DelayField)
  {
    forall d | 0 < d < |DelayField| ensures DelayField[d..] != DelayField[..|DelayField| - d] {
      if d == 3 {
        assert DelayField[d..][1] != DelayField[..|DelayField| - d][1];
      } else {
        assert DelayField[d..][0] != DelayField[..|DelayField| - d][0];
      }
    }
  }

  /** The retry hint as the protobuf text of Google's client writes it. */
  function SecondsPayload(n: nat): string {
    DelayField + " {\n  " + SecondsField + " " + NatToString(n) + "\n}"
  }

  /** The pieces of the payload, located in `s`. */
  lemma SecondsPayloadPieces(s: string, k: nat, n: nat)
    requires OccursAt(s, SecondsPayload(n), k)
    ensures var d := k + 25 + |NatToString(n)|;
      && OccursAt(s, DelayField, k)
      && OccursAt(s, " {\n  ", k + 11)
      && OccursAt(s, SecondsField, k + 16)
      && OccursAt(s, " ", k + 24)
      && OccursAt(s, NatToString(n), k + 25)
      && OccursAt(s, "\n}", d)
  {
    var digits := NatToString(n);
    var a := DelayField + " {\n  ";
    OccursAtAppend(s, a + SecondsField + " " + digits, "\n}", k);
    OccursAtAppend(s, a + SecondsField + " ", digits, k);
    OccursAtAppend(s, a + SecondsField, " ", k);
    OccursAtAppend(s, a, SecondsField, k);
    OccursAtAppend(s, DelayField, " {\n  ", k);
  }


  /** A run of whitespace ended by a non-space is skipped whole. */
  lemma SkipSpaceStep(s: string, i: nat)
    requires i < |s| && IsSpace(s[i])
    ensures SkipSpaces(s, i) == SkipSpaces(s, i + 1)
  {
  }

  lemma SkipSpacesOver(s: string, i: nat, j: nat)
    requires i <= j < |s| && !IsSpace(s[j])
    requires forall k :: i <= k < j ==> IsSpace(s[k])
    ensures SkipSpaces(s, i) == j
    decreases j - i
  {
    if i < j {
      SkipSpacesOver(s, i + 1, j);
    }
  }

  lemma NumberFromPayload(s: string, k: nat, n: nat)
    requires k + 25 <= |s|
    requires OccursAt(s, " ", k + 24) && OccursAt(s, NatToString(n), k + 25)
    requires OccursAt(s, "\n}", k + 25 + |NatToString(n)|)
    ensures NumberFrom(s, k + 24) == Some(n)
  {
    var d := k + 25 + |NatToString(n)|;
    assert s[k + 24] == s[k + 24..k + 25][0] == ' ';
    var close := s[d..d + 2];
    assert s[d] == close[0] == '\n' && s[d + 1] == close[1] == '}';
    NumberDigitsAt(s, k + 24, NatToString(n));
    DigitsValueOfNatToString(n);
  }

  /** A space, a run of digits, a newline and `}`: the digits are read. */
  lemma NumberDigitsAt(s: string, i: nat, digits: string)
    requires |digits| >= 1 && forall m :: 0 <= m < |digits| ==> IsDigit(digits[m])
    requires i < |s| && s[i] == ' ' && OccursAt(s, digits, i + 1)
    requires var d := i + 1 + |digits|; d + 2 <= |s| && s[d] == '\n' && s[d + 1] == '}'
    ensures NumberFrom(s, i) == Some(DigitsValue(digits))
  {
    var c := i + 1;
    var d := c + |digits|;
    DigitsThenBrace(s, c, digits);
    SkipSpacesOver(s, i, c);
    NumberParts(s, i, c, d, d + 1, digits);
  }

  lemma DigitsThenBrace(s: string, c: nat, digits: string)
    requires |digits| >= 1 && forall m :: 0 <= m < |digits| ==> IsDigit(digits[m])
    requires OccursAt(s, digits, c)
    requires var d := c + |digits|; d + 2 <= |s| && s[d] == '\n' && s[d + 1] == '}'
    ensures var d := c + |digits|;
      && !IsSpace(s[c]) && SkipDigits(s, c) == d && s[c..d] == digits
      && SkipSpaces(s, d) == d + 1
  {
    var d := c + |digits|;
    assert s[c] == s[c..d][0] == digits[0];
    DigitStringAt(s, c, digits);
    SkipSpacesOver(s, d, d + 1);
  }

  /** Where the digits and the closing brace sit. */
  lemma NumberParts(s: string, i: nat, c: nat, d: nat, e: nat, digits: string)
    requires i <= |s| && SkipSpaces(s, i) == c
    requires SkipDigits(s, c) == d && d != c && s[c..d] == digits
    requires SkipSpaces(s, d) == e && e < |s| && s[e] == '}'
    ensures forall m :: 0 <= m < |digits| ==> IsDigit(digits[m])
    ensures NumberFrom(s, i) == Some(DigitsValue(digits))
  {
  }

  lemma BraceFromPayload(s: string, k: nat)
    requires k + 24 <= |s|
    requires OccursAt(s, " {\n  ", k + 11) && OccursAt(s, SecondsField, k + 16)
    ensures BraceFrom(s, k + 11) == FieldFrom(s, k + 13)
    ensures FieldFrom(s, k + 13) == NumberFrom(s, k + 24)
  {
    var a := k + 11;
    var gap := s[a..a + 5];
    assert s[a] == gap[0] == ' ' && s[a + 1] == gap[1] == '{';
    assert s[a + 2] == gap[2] == '\n' && s[a + 3] == gap[3] == ' ' && s[a + 4] == gap[4] == ' ';
    BraceAt(s, a);
    FieldAt(s, a + 2);
  }

  /** One space, then the brace. */
  lemma BraceAt(s: string, a: nat)
    requires a + 2 <= |s| && s[a] == ' ' && s[a + 1] == '{'
    ensures BraceFrom(s, a) == FieldFrom(s, a + 2)
  {
    SkipSpacesOver(s, a, a + 1);
  }

  /** A newline and two spaces, then the field name. */
  lemma FieldAt(s: string, b: nat)
    requires OccursAt(s, SecondsField, b + 3)
    requires IsSpace(s[b]) && IsSpace(s[b + 1]) && IsSpace(s[b + 2])
    ensures FieldFrom(s, b) == NumberFrom(s, b + 3 + |SecondsField|)
  {
    assert s[b + 3] == s[b + 3..b + 3 + |SecondsField|][0] == 's';
    SkipSpaceStep(s, b);
    SkipSpaceStep(s, b + 1);
    SkipSpaceStep(s, b + 2);
    SkipSpacesOver(s, b + 3, b + 3);
    FieldParts(s, b, b + 3);
  }

  lemma FieldParts(s: string, b: nat, f: nat)
    requires b <= |s| && SkipSpaces(s, b) == f && OccursAt(s, SecondsField, f)
    ensures FieldFrom(s, b) == NumberFrom(s, f + |SecondsField|)
  {
  }


  lemma SecondsMatchAtPayload(s: string, k: nat, n: nat)
    requires OccursAt(s, SecondsPayload(n), k)
    ensures SecondsMatchAt(s, k) == Some(n)
  {
    SecondsPayloadPieces(s, k, n);
    BraceFromPayload(s, k);
    NumberFromPayload(s, k, n);
  }

  /** The protobuf text Google's client puts in its exception,
      `retry_delay {\n  seconds: <n>\n}`, is read back as n when nothing
      before it mentions retry_delay. */
  lemma {:induction false} SecondsOfPayload(x: string, n: nat, y: string)
    requires !Contains(x, DelayField)
    ensures SearchSeconds(x + SecondsPayload(n) + y, 0) == Some(n)
  {
    var s := x + SecondsPayload(n) + y;
    var rest := SecondsPayload(n)[|DelayField|..] + y;
    assert s == x + DelayField + rest;
    DelayFieldBorderless();
    FirstOccurrenceAfter(x, DelayField, rest);
    NoSecondsBefore(s, 0, |x|);
    OccursAtMiddle(x, SecondsPayload(n), y);
    SecondsMatchAtPayload(s, |x|, n);
  }

  // ---------------------------------------------------------------------
  // re.search(r"\{.*\}", text, re.DOTALL): from the first '{' to the last '}'

  function LastIndexOf(s: string, c: char): (r: Option<nat>)
    ensures r.Some? ==> r.value < |s| && s[r.value] == c && forall k :: r.value < k < |s| ==> s[k] != c
    ensures r.None? ==> forall k :: 0 <= k < |s| ==> s[k] != c
    decreases |s|
  {
    if s == [] then None
    else if s[|s| - 1] == c then Some(|s| - 1)
    else LastIndexOf(s[..|s| - 1], c)
  }

  function FirstIndexOf(s: string, c: char): (r: Option<nat>)
    ensures r.Some? ==> r.value < |s| && s[r.value] == c && forall k :: 0 <= k < r.value ==> s[k] != c
    ensures r.None? ==> forall k :: 0 <= k < |s| ==> s[k] != c
  {
    FindFromFirstOccurrence(s, [c], 0);
    match FindFrom(s, [c], 0)
    case None =>
      assert forall k :: 0 <= k < |s| ==> s[k] != c by {
        forall k | 0 <= k < |s| ensures s[k] != c {
          assert s[k..k + 1] == [s[k]];
          assert !OccursAt(s, [c], k);
        }
      }
      None
    case Some(i) =>
      assert forall k :: 0 <= k < i ==> s[k] != c by {
        forall k | 0 <= k < i ensures s[k] != c {
          assert s[k..k + 1] == [s[k]];
          assert !OccursAt(s, [c], k);
        }
      }
      assert s[i..i + 1] == [c];
      Some(i)
  }

  /** The greedy brace span as a half-open range [i, j): it starts at the
      first '{' and ends after the last '}', and exists exactly when some '}'
      follows some '{'. */
  function BraceSpan(s: string): (r: Option<(nat, nat)>)
    ensures r.Some? ==> var (i, j) := r.value;
      i + 2 <= j <= |s| && s[i] == '{' && s[j - 1] == '}'
      && (forall k :: 0 <= k < i ==> s[k] != '{')
      && (forall k :: j <= k < |s| ==> s[k] != '}')
    ensures r.None? <==> forall a, b :: 0 <= a < b < |s| && s[a] == '{' ==> s[b] != '}'
  {
    match (FirstIndexOf(s, '{'), LastIndexOf(s, '}'))
    case (Some(i), Some(l)) =>
      if i < l then Some((i, l + 1))
      else None
    case _ => None
  }

  predicate NoBrace(s: string) {
    forall k :: 0 <= k < |s| ==> s[k] != '{' && s[k] != '}'
  }

  /** JSON wrapped in brace-free prose is found whole. */
  lemma {:induction false} BraceSpanOfWrapped(a: string, body: string, c: string)
    requires NoBrace(a) && NoBrace(c)
    requires |body| >= 2 && body[0] == '{' && body[|body| - 1] == '}'
    ensures BraceSpan(a + body + c) == Some((|a|, |a| + |body|))
  {
    var s := a + body + c;
    assert s[|a|] == '{';
    assert s[|a| + |body| - 1] == '}';
    assert forall k :: 0 <= k < |a| ==> s[k] == a[k];
    assert forall k :: |a| + |body| <= k < |s| ==> s[k] == c[k - |a| - |body|];
    var first := FirstIndexOf(s, '{');
    var last := LastIndexOf(s, '}');
    assert first == Some(|a|);
    assert last == Some(|a| + |body| - 1);
  }
}
