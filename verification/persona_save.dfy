/** The selection and identifier rewriting `_save_personas` applies before
    writing the personas out. */
module PersonaSaving {
  import opened Common
  import opened PersonaCleaning

  /** Which entry point produced the personas; it names their files and
      prefixes their identifiers. */
  datatype Namespace = Csv | Csv2 | Md

  function Prefix(ns: Namespace): string {
    match ns
    case Csv => "csv"
    case Csv2 => "csv2"
    case Md => "md"
  }

  /** The `f"{prefix}_"` every saved identifier starts with. */
  function IdPrefix(ns: Namespace): (r: string)
    ensures |r| >= 3 && (r[0] == 'c' || r[0] == 'm')
  {
    Prefix(ns) + "_"
  }

  /** `str(pid)` only starts with a namespace prefix when pid is a string:
      numbers start with a digit or '-', the other values with
      'N', 'T', 'F', '[' or '{'. */
  lemma PrefixedIsString(ns: Namespace, j: Json)
    requires StartsWith(Show(j), IdPrefix(ns))
    ensures j.JStr?
  {
    var s := Show(j);
    assert s[0] == IdPrefix(ns)[0];
  }

  /** The identifier rewrite of one persona: an identifier whose text lacks
      the prefix gets it, a missing one becomes `prefix_unknown`, and no other
      attribute changes. */
  function NormalizeId(ns: Namespace, p: map<string, Json>): (r: map<string, Json>)
    ensures IdKey in r && r[IdKey].JStr? && StartsWith(r[IdKey].s, IdPrefix(ns))
    ensures forall k :: k != IdKey ==> (k in r <==> k in p)
    ensures forall k :: k in r && k != IdKey ==> r[k] == p[k]
    ensures IdKey !in p ==> r[IdKey] == JStr(IdPrefix(ns) + "unknown")
    ensures IdKey in p && StartsWith(Show(p[IdKey]), IdPrefix(ns)) ==> r == p
    ensures IdKey in p && !StartsWith(Show(p[IdKey]), IdPrefix(ns)) ==>
              r[IdKey] == JStr(IdPrefix(ns) + Show(p[IdKey]))
  {
    var pid := Get(p, IdKey, JStr("unknown"));
    if StartsWith(Show(pid), IdPrefix(ns)) then
      PrefixedIsString(ns, pid);
      p
    else
      var id := IdPrefix(ns) + Show(pid);
      assert id[..|IdPrefix(ns)|] == IdPrefix(ns);
      p[IdKey := JStr(id)]
  }

  /** Rewriting an identifier that was already rewritten changes nothing. */
  lemma NormalizeIdTwice(ns: Namespace, p: map<string, Json>)
    ensures NormalizeId(ns, NormalizeId(ns, p)) == NormalizeId(ns, p)
  {
    var r := NormalizeId(ns, p);
    assert Show(r[IdKey]) == r[IdKey].s;
  }

  /** `[clean_persona(p) for p in personas if len(clean_persona(p)) > 1]`. */
  function Survivors(ps: seq<Json>): (r: Result<seq<map<string, Json>>, string>)
    ensures r.Ok? <==> forall i :: 0 <= i < |ps| ==> CleanPersona(ps[i]).Ok?
    ensures r.Ok? ==> |r.value| <= |ps|
    ensures r.Ok? ==> forall i :: 0 <= i < |r.value| ==> |r.value[i]| >= 2
  {
    if ps == [] then Ok([])
    else match CleanPersona(ps[0])
      case Err(e) => Err(e)
      case Ok(c) =>
        var rest := Survivors(ps[1..]);
        if rest.Err? then rest
        else if |c| > 1 then Ok([c] + rest.value)
        else rest
  }

  /** The selection acts persona by persona: selecting from a concatenation
      selects from each part, keeping their order, and raises the first
      part's error. */
  lemma {:induction false} SurvivorsAppend(a: seq<Json>, b: seq<Json>)
    ensures Survivors(a + b) == Then(Survivors(a), Survivors(b))
  {
    if a == [] {
      assert a + b == b;
      if Survivors(b).Ok? {
        assert [] + Survivors(b).value == Survivors(b).value;
      }
    } else {
      var ab := a + b;
      assert ab[0] == a[0];
      assert ab[1..] == a[1..] + b;
      SurvivorsAppend(a[1..], b);
      match CleanPersona(a[0])
      case Ok(c) =>
        var ra, rb := Survivors(a[1..]), Survivors(b);
        if ra.Ok? && rb.Ok? && |c| > 1 {
          assert [c] + (ra.value + rb.value) == [c] + ra.value + rb.value;
        }
      case Err(_) =>
    }
  }

  /** What one persona contributes: its cleaned form when that has at least
      two attributes, nothing otherwise. */
  lemma SurvivorsOne(p: Json)
    ensures Survivors([p]) ==
      match CleanPersona(p)
      case Err(e) => Err(e)
      case Ok(c) => if |c| >= 2 then Ok([c]) else Ok([])
  {
    assert [p][1..] == [];
    if CleanPersona(p).Ok? {
      var c := CleanPersona(p).value;
      assert [c] + [] == [c];
    }
  }

  function NormalizeAll(ns: Namespace, cs: seq<map<string, Json>>): (r: seq<map<string, Json>>)
    ensures |r| == |cs|
    ensures forall i :: 0 <= i < |cs| ==> r[i] == NormalizeId(ns, cs[i])
  {
    if cs == [] then [] else [NormalizeId(ns, cs[0])] + NormalizeAll(ns, cs[1..])
  }

  /** What `_save_personas` returns: `("", "", "", [])` when no persona
      survives, the written personas otherwise (file paths are left out). */
  datatype Saved = NoPersonas | Written(personas: seq<map<string, Json>>)

  function SavedPersonas(ps: seq<Json>, ns: Namespace): Result<Saved, string> {
    match Survivors(ps)
    case Err(e) => Err(e)
    case Ok(cs) => if cs == [] then Ok(NoPersonas) else Ok(Written(NormalizeAll(ns, cs)))
  }

  /** The loop over the survivors that rewrites each identifier in place. */
  method PrefixIds(cleaned: seq<map<string, Json>>, ns: Namespace) returns (r: seq<map<string, Json>>)
    ensures r == NormalizeAll(ns, cleaned)
  {
    r := cleaned;
    for i := 0 to |r|
      invariant |r| == |cleaned|
      invariant forall j :: 0 <= j < i ==> r[j] == NormalizeId(ns, cleaned[j])
      invariant forall j :: i <= j < |r| ==> r[j] == cleaned[j]
    {
      r := r[i := NormalizeId(ns, r[i])];
    }
  }

  /** `_save_personas` without the file writes: select the survivors, then
      rewrite each one's identifier. */
  method SavePersonas(ps: seq<Json>, ns: Namespace) returns (r: Result<Saved, string>)
    ensures r == SavedPersonas(ps, ns)
  {
    var survivors := Survivors(ps);
    if survivors.Err? {
      return Err(survivors.error);
    }
    if survivors.value == [] {
      return Ok(NoPersonas);
    }
    var cleaned := PrefixIds(survivors.value, ns);
    return Ok(Written(cleaned));
  }

  /** Every written persona has at least two attributes and a string
      identifier starting with its namespace prefix; every other attribute is
      the one cleaning left. Nothing is written exactly when no cleaned
      persona kept two attributes. */
  lemma SavedShape(ps: seq<Json>, ns: Namespace)
    requires SavedPersonas(ps, ns).Ok?
    ensures var cs := Survivors(ps).value; var s := SavedPersonas(ps, ns).value;
      && (s == NoPersonas <==> cs == [])
      && (s.Written? ==> |s.personas| == |cs|)
      && (s.Written? ==> forall i :: 0 <= i < |s.personas| ==>
            && |s.personas[i]| >= 2
            && IdKey in s.personas[i] && s.personas[i][IdKey].JStr?
            && StartsWith(s.personas[i][IdKey].s, IdPrefix(ns))
            && forall k :: k != IdKey && k in cs[i] ==> k in s.personas[i] && s.personas[i][k] == cs[i][k])
  {
    var cs := Survivors(ps).value;
    var s := SavedPersonas(ps, ns).value;
    if s.Written? {
      forall i | 0 <= i < |s.personas| ensures |s.personas[i]| >= 2 {
        NormalizeIdSize(ns, cs[i]);
      }
    }
  }

  /** The rewrite never removes an attribute. */
  lemma NormalizeIdSize(ns: Namespace, p: map<string, Json>)
    ensures |NormalizeId(ns, p)| >= |p|
  {
    var r := NormalizeId(ns, p);
    if IdKey in p {
      assert p.Keys <= r.Keys;
    } else {
      assert p.Keys + {IdKey} <= r.Keys;
    }
  }

  /** Rewriting the identifiers of already saved personas again changes
      nothing: the prefix is never added twice. */
  lemma {:induction false} NormalizeAllTwice(ns: Namespace, cs: seq<map<string, Json>>)
    ensures NormalizeAll(ns, NormalizeAll(ns, cs)) == NormalizeAll(ns, cs)
  {
    var once := NormalizeAll(ns, cs);
    forall i | 0 <= i < |cs| ensures NormalizeAll(ns, once)[i] == once[i] {
      NormalizeIdTwice(ns, cs[i]);
    }
  }
}
