/** Values, text helpers and the abstract environment (model service, JSON
    decoder, sleeps) shared by the persona-generation and scoring pipelines. */
module Common {

  datatype Option<T> = None | Some(value: T)

  datatype Result<T, E> = Ok(value: T) | Err(error: E)

  /** A decoded JSON value, as `json.loads` returns it (numbers are integers). */
  datatype Json =
    | JNull
    | JBool(b: bool)
    | JNum(n: int)
    | JStr(s: string)
    | JArr(items: seq<Json>)
    | JObj(fields: map<string, Json>)

  /** `json.loads`: the decoded value, or the text of the decoding error. */
  type Decoder = string -> Result<Json, string>

  /** What one call of the model service does: it answers, or it raises an
      exception whose text is given. */
  datatype Outcome<T> = Answer(value: T) | Raised(message: string)

  /** The model service seen by the pipeline: the outcome of the n-th call
      made with a given prompt. */
  type Service<T> = (nat, string) -> Outcome<T>

  /** A sleep: a wait chosen by a retry policy, or a fixed pacing delay. */
  datatype Pause = Backoff(secs: nat) | Pacing(secs: nat)

  /** The end of a retrying call: its result (or the text of the exception it
      re-raised), the sleeps it made, and the index of the next service call. */
  datatype Attempts<T> = Attempts(result: Result<T, string>, pauses: seq<Pause>, next: nat)

  // ---------------------------------------------------------------------
  // Python truthiness and dict access

  predicate Truthy(j: Json) {
    match j
    case JNull => false
    case JBool(b) => b
    case JNum(n) => n != 0
    case JStr(s) => s != ""
    case JArr(items) => items != []
    case JObj(fields) => fields != map[]
  }

  /** The placeholder value the prompts use for "fill this in". */
  const Placeholder: Json := JStr("...")

  /** The filter `v and v != '...'` applied to attribute values. */
  predicate Kept(j: Json) {
    Truthy(j) && j != Placeholder
  }

  /** Python's name for the type of a decoded value, as exception texts
      print it. */
  function TypeName(j: Json): string {
    match j
    case JNull => "NoneType"
    case JBool(_) => "bool"
    case JNum(_) => "int"
    case JStr(_) => "str"
    case JArr(_) => "list"
    case JObj(_) => "dict"
  }

  /** The key of a persona's identifier, in saved personas and in feedback
      records alike. */
  const IdKey: string := "persona_id"

  /** `d.get(k, default)` */
  function Get(d: map<string, Json>, k: string, default: Json): (r: Json)
    ensures k in d ==> r == d[k]
    ensures k !in d ==> r == default
  {
    if k in d then d[k] else default
  }

  // ---------------------------------------------------------------------
  // Decimal rendering (Python `str` of integers) and digit parsing

  function DigitChar(d: nat): char
    requires d < 10
  {
    "0123456789"[d]
  }

  predicate IsDigit(c: char) {
    '0' <= c <= '9'
  }

  function NatToString(n: nat): (r: string)
    ensures |r| >= 1
    ensures forall i :: 0 <= i < |r| ==> IsDigit(r[i])
    decreases n
  {
    if n < 10 then [DigitChar(n)] else NatToString(n / 10) + [DigitChar(n % 10)]
  }

  function DigitValue(c: char): nat
    requires IsDigit(c)
  {
    c as int - '0' as int
  }

  /** `int(ds)` for a string of decimal digits. */
  function DigitsValue(ds: string): (v: nat)
    requires forall i :: 0 <= i < |ds| ==> IsDigit(ds[i])
    decreases |ds|
  {
    if ds == [] then 0 else 10 * DigitsValue(ds[..|ds| - 1]) + DigitValue(ds[|ds| - 1])
  }

  /** Parsing the decimal rendering of a number gives the number back. */
  lemma {:induction false} DigitsValueOfNatToString(n: nat)
    ensures DigitsValue(NatToString(n)) == n
    decreases n
  {
    var r := NatToString(n);
    var last := DigitChar(n % 10);
    assert DigitValue(last) == n % 10 by {
      assert last == "0123456789"[n % 10];
    }
    if n >= 10 {
      DigitsValueOfNatToString(n / 10);
      assert r == NatToString(n / 10) + [last];
      assert r[..|r| - 1] == NatToString(n / 10);
      assert r[|r| - 1] == last;
      assert n == 10 * (n / 10) + n % 10;
    } else {
      assert r == [last] && r[..0] == [];
    }
  }

  function IntToString(n: int): string {
    if n < 0 then "-" + NatToString(-n) else NatToString(n)
  }

  /** Python `str(x)` of a decoded value, as an f-string inserts it. Strings
      and scalars are rendered exactly; containers are rendered in outline. */
  function Show(j: Json): string {
    match j
    case JNull => "None"
    case JBool(b) => if b then "True" else "False"
    case JNum(n) => IntToString(n)
    case JStr(s) => s
    case JArr(_) => "[...]"
    case JObj(_) => "{...}"
  }

  // ---------------------------------------------------------------------
  // Substring search

  predicate OccursAt(s: string, p: string, k: nat) {
    k + |p| <= |s| && s[k..k + |p|] == p
  }

  /** An occurrence of a concatenation is an occurrence of each part, one
      after the other. */
  lemma OccursAtAppend(s: string, a: string, b: string, k: nat)
    ensures OccursAt(s, a + b, k) <==> OccursAt(s, a, k) && OccursAt(s, b, k + |a|)
  {
    if k + |a| + |b| <= |s| {
      var w := s[k..k + |a| + |b|];
      assert w[..|a|] == s[k..k + |a|] && w[|a|..] == s[k + |a|..k + |a| + |b|];
      if OccursAt(s, a, k) && OccursAt(s, b, k + |a|) {
        assert w == w[..|a|] + w[|a|..];
      }
    }
  }

  /** A text occurs where it was put. */
  lemma OccursAtMiddle(x: string, p: string, y: string)
    ensures OccursAt(x + p + y, p, |x|)
  {
    assert (x + p + y)[|x|..|x| + |p|] == p;
  }

  predicate StartsWith(s: string, p: string) {
    OccursAt(s, p, 0)
  }

  /** `OccursAt`, compared one character at a time; the search below uses
      it so that its unfolding stays small. */
  predicate MatchesAt(s: string, p: string, k: nat)
    decreases |p|
  {
    k + |p| <= |s| && (p == [] || (s[k] == p[0] && MatchesAt(s, p[1..], k + 1)))
  }

  lemma {:induction false} MatchesAtOccurs(s: string, p: string, k: nat)
    ensures MatchesAt(s, p, k) <==> OccursAt(s, p, k)
    decreases |p|
  {
    if k + |p| <= |s| && p != [] {
      MatchesAtOccurs(s, p[1..], k + 1);
      assert s[k..k + |p|] == [s[k]] + s[k + 1..k + |p|];
      assert p == [p[0]] + p[1..];
    }
  }

  /** The first occurrence of `p` in `s` at or after `from` (`str.find`). */
  function FindFrom(s: string, p: string, from: nat): (r: Option<nat>)
    ensures r.Some? ==> from <= r.value && r.value + |p| <= |s|
    decreases |s| - from
  {
    if from + |p| > |s| then None
    else if MatchesAt(s, p, from) then Some(from)
    else FindFrom(s, p, from + 1)
  }

  /** What is found is an occurrence, the first one, and none is missed. */
  lemma {:induction false} FindFromFirstOccurrence(s: string, p: string, from: nat)
    ensures FindFrom(s, p, from).Some? ==> from <= FindFrom(s, p, from).value && OccursAt(s, p, FindFrom(s, p, from).value)
    ensures FindFrom(s, p, from).Some? ==> forall k :: from <= k < FindFrom(s, p, from).value ==> !OccursAt(s, p, k)
    ensures FindFrom(s, p, from).None? ==> forall k :: from <= k ==> !OccursAt(s, p, k)
    decreases |s| - from
  {
    MatchesAtOccurs(s, p, from);
    if from + |p| <= |s| && !OccursAt(s, p, from) {
      FindFromFirstOccurrence(s, p, from + 1);
    }
  }

  /** Python `p in s`. */
  predicate Contains(s: string, p: string) {
    FindFrom(s, p, 0).Some?
  }

  /** `p in s` exactly when `p` occurs somewhere in `s`. */
  lemma ContainsWitness(s: string, p: string, k: nat)
    requires OccursAt(s, p, k)
    ensures Contains(s, p)
  {
    FindFromFirstOccurrence(s, p, 0);
  }

  /** A text placed between a fixed head and a fixed tail, as the prompt
      templates place the material they are given. */
  function Framed(head: string, text: string, tail: string): (r: string)
    ensures |r| == |head| + |text| + |tail|
    ensures StartsWith(r, head)
    ensures OccursAt(r, text, |head|)
    ensures r[|head| + |text|..] == tail
  {
    var r := head + text + tail;
    assert r[..|head|] == head;
    assert r[|head|..|head| + |text|] == text;
    r
  }

  /** Heads and tails of the same lengths frame the same text only when all
      three agree. */
  lemma FramedInjective(h1: string, a: string, t1: string, h2: string, b: string, t2: string)
    requires |h1| == |h2| && |t1| == |t2|
    requires Framed(h1, a, t1) == Framed(h2, b, t2)
    ensures h1 == h2 && a == b && t1 == t2
  {
    var r := Framed(h1, a, t1);
    assert r[..|h1|] == h1 && r[..|h2|] == h2;
    assert r[|h1|..|h1| + |a|] == a && r[|h2|..|h2| + |b|] == b;
  }

  // ---------------------------------------------------------------------
  // Whitespace (Python `str.isspace`) and `str.strip`

  predicate IsSpace(c: char) {
    c == ' ' || c == '\t' || c == '\n' || c == '\r' || c == '\U{000B}' || c == '\U{000C}'
    || ('\U{001C}' <= c <= '\U{001F}') || c == '\U{0085}' || c == '\U{00A0}' || c == '\U{1680}'
    || ('\U{2000}' <= c <= '\U{200A}') || c == '\U{2028}' || c == '\U{2029}' || c == '\U{202F}'
    || c == '\U{205F}' || c == '\U{3000}'
  }

  predicate AllSpace(s: string) {
    forall i :: 0 <= i < |s| ==> IsSpace(s[i])
  }

  function TrimStart(s: string): (r: string)
    ensures |r| <= |s| && r == s[|s| - |r|..]
    ensures AllSpace(s[..|s| - |r|])
    ensures r != [] ==> !IsSpace(r[0])
    decreases |s|
  {
    if s != [] && IsSpace(s[0]) then TrimStart(s[1..]) else s
  }

  function TrimEnd(s: string): (r: string)
    ensures |r| <= |s| && r == s[..|r|]
    ensures AllSpace(s[|r|..])
    ensures r != [] ==> !IsSpace(r[|r| - 1])
    decreases |s|
  {
    if s != [] && IsSpace(s[|s| - 1]) then
      var t := s[..|s| - 1];
      var r := TrimEnd(t);
      assert r == t[..|r|] == s[..|r|];
      assert s[|r|..] == t[|r|..] + [s[|s| - 1]];
      r
    else s
  }

  /** `r` sits in `s` at offset `i`, with only whitespace before and after it. */
  predicate StrippedAt(s: string, r: string, i: int) {
    0 <= i <= |s| - |r| && r == s[i..i + |r|] && AllSpace(s[..i]) && AllSpace(s[i + |r|..])
  }

  /** `str.strip()`: the result is a slice of `s` that neither starts nor ends
      with whitespace, and only whitespace was removed around it. */
  function Strip(s: string): (r: string)
    ensures |r| <= |s|
    ensures r != [] ==> !IsSpace(r[0]) && !IsSpace(r[|r| - 1])
    ensures exists i :: StrippedAt(s, r, i)
  {
    var a := TrimStart(s);
    var r := TrimEnd(a);
    StripSlice(s, a, r);
    r
  }

  /** The stripped text sits in `s` after the leading whitespace. */
  lemma StripSlice(s: string, a: string, r: string)
    requires |a| <= |s| && a == s[|s| - |a|..] && AllSpace(s[..|s| - |a|])
    requires a != [] ==> !IsSpace(a[0])
    requires |r| <= |a| && r == a[..|r|] && AllSpace(a[|r|..])
    requires r != [] ==> !IsSpace(r[|r| - 1])
    ensures |r| <= |s|
    ensures r != [] ==> !IsSpace(r[0]) && !IsSpace(r[|r| - 1])
    ensures exists i :: StrippedAt(s, r, i)
  {
    SuffixPrefix(s, a, r);
    assert StrippedAt(s, r, |s| - |a|);
  }

  /** A prefix of a suffix is a slice, and what follows it is a suffix. */
  lemma SuffixPrefix<T>(s: seq<T>, a: seq<T>, r: seq<T>)
    requires |a| <= |s| && a == s[|s| - |a|..] && |r| <= |a| && r == a[..|r|]
    ensures r == s[|s| - |a|..|s| - |a| + |r|] && a[|r|..] == s[|s| - |a| + |r|..]
  {
  }

  /** The stripped text is empty exactly when the text is all whitespace. */
  lemma StripEmpty(s: string)
    ensures Strip(s) == [] <==> AllSpace(s)
  {
    var a := TrimStart(s);
    var r := TrimEnd(a);
    if r == [] {
      assert a[|r|..] == a;
      if a != [] {
        assert false;
      }
      assert s[..|s|] == s;
    } else if AllSpace(s) {
      assert false;
    }
  }

  // ---------------------------------------------------------------------
  // Counting fixed pacing delays

  /** How many of the sleeps are fixed pacing delays (not retry waits). */
  function Pacings(ps: seq<Pause>): nat {
    if ps == [] then 0 else (if ps[0].Pacing? then 1 else 0) + Pacings(ps[1..])
  }

  lemma {:induction false} PacingsAppend(a: seq<Pause>, b: seq<Pause>)
    ensures Pacings(a + b) == Pacings(a) + Pacings(b)
  {
    if a == [] {
      assert a + b == b;
    } else {
      assert (a + b)[0] == a[0];
      assert (a + b)[1..] == a[1..] + b;
      PacingsAppend(a[1..], b);
    }
  }

  /** How many of the sleeps are pacing delays of `secs` seconds. */
  function PacingsOf(ps: seq<Pause>, secs: nat): nat {
    if ps == [] then 0 else (if ps[0] == Pacing(secs) then 1 else 0) + PacingsOf(ps[1..], secs)
  }

  lemma {:induction false} PacingsOfAppend(a: seq<Pause>, b: seq<Pause>, secs: nat)
    ensures PacingsOf(a + b, secs) == PacingsOf(a, secs) + PacingsOf(b, secs)
  {
    if a == [] {
      assert a + b == b;
    } else {
      assert (a + b)[0] == a[0];
      assert (a + b)[1..] == a[1..] + b;
      PacingsOfAppend(a[1..], b, secs);
    }
  }

  /** Pacing delays of two different lengths are counted apart. */
  lemma {:induction false} PacingsOfTwo(ps: seq<Pause>, x: nat, y: nat)
    requires x != y
    ensures PacingsOf(ps, x) + PacingsOf(ps, y) <= Pacings(ps)
  {
    if ps != [] {
      PacingsOfTwo(ps[1..], x, y);
    }
  }

  // ---------------------------------------------------------------------
  // Fixed-size slicing: `[s[i:i+n] for i in range(0, len(s), n)]`

  function Flatten<T>(ss: seq<seq<T>>): seq<T> {
    if ss == [] then [] else ss[0] + Flatten(ss[1..])
  }

  lemma {:induction false} FlattenAppend<T>(a: seq<seq<T>>, b: seq<seq<T>>)
    ensures Flatten(a + b) == Flatten(a) + Flatten(b)
  {
    if a != [] {
      assert (a + b)[0] == a[0];
      assert (a + b)[1..] == a[1..] + b;
      FlattenAppend(a[1..], b);
    } else {
      assert a + b == b;
    }
  }

  /** Consecutive slices of length `n`, the last one possibly shorter; none
      is empty. */
  function Slices<T>(s: seq<T>, n: nat): (r: seq<seq<T>>)
    requires n > 0
    ensures forall i :: 0 <= i < |r| ==> 0 < |r[i]| <= n
    ensures forall i :: 0 <= i < |r| - 1 ==> |r[i]| == n
    decreases |s|
  {
    if s == [] then []
    else if |s| <= n then [s]
    else [s[..n]] + Slices(s[n..], n)
  }

  /** The slices give back the sequence. */
  lemma {:induction false} SlicesFlatten<T>(s: seq<T>, n: nat)
    requires n > 0
    ensures Flatten(Slices(s, n)) == s
    decreases |s|
  {
    if s != [] && |s| > n {
      var rest := Slices(s[n..], n);
      SlicesFlatten(s[n..], n);
      assert ([s[..n]] + rest)[1..] == rest;
      assert s == s[..n] + s[n..];
    }
  }

  /** There are ceil(|s| / n) slices. */
  lemma {:induction false} SlicesCount<T>(s: seq<T>, n: nat)
    requires n > 0
    ensures |Slices(s, n)| * n >= |s|
    ensures |Slices(s, n)| == 0 || (|Slices(s, n)| - 1) * n < |s|
    decreases |s|
  {
    if s != [] && |s| > n {
      var m := |Slices(s[n..], n)|;
      SlicesCount(s[n..], n);
      assert |Slices(s, n)| == m + 1;
      assert (m + 1) * n == m * n + n;
    }
  }
}
