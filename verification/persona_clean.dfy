/** `clean_persona`: the attribute filter applied to every generated persona
    before it is saved. */
module PersonaCleaning {
  import opened Common

  const ResourcesKey: string := "suggested_learning_resources"

  /** `{k: v for k, v in d.items() if v and v != '...'}`: exactly the
      attributes whose value is truthy and not the placeholder, unchanged. */
  function KeepFields(d: map<string, Json>): (r: map<string, Json>)
    ensures forall k :: k in r <==> k in d && Kept(d[k])
    ensures forall k :: k in r ==> r[k] == d[k]
  {
    map k | k in d && Kept(d[k]) :: d[k]
  }

  /** Filtering twice keeps what filtering once kept. */
  lemma KeepFieldsTwice(d: map<string, Json>)
    ensures KeepFields(KeepFields(d)) == KeepFields(d)
  {
    var once := KeepFields(d);
    assert forall k :: k in once ==> Kept(once[k]);
  }

  /** The resource list as JSON values. */
  function Objects(ms: seq<map<string, Json>>): (r: seq<Json>)
    ensures |r| == |ms|
    ensures forall i :: 0 <= i < |ms| ==> r[i] == JObj(ms[i])
  {
    if ms == [] then [] else [JObj(ms[0])] + Objects(ms[1..])
  }

  /** The nested comprehension over `suggested_learning_resources`: entries
      with nothing left after filtering are dropped, the others keep only
      their kept attributes. The first entry that is not an object raises. */
  function CleanResources(rs: seq<Json>): (r: Result<seq<map<string, Json>>, string>)
    ensures r.Ok? <==> forall i :: 0 <= i < |rs| ==> rs[i].JObj?
    ensures r.Ok? ==> |r.value| <= |rs|
    ensures r.Ok? ==> forall i :: 0 <= i < |r.value| ==> r.value[i] != map[]
  {
    if rs == [] then Ok([])
    else match rs[0]
      case JObj(f) =>
        var rest := CleanResources(rs[1..]);
        if rest.Err? then rest
        else
          var kept := KeepFields(f);
          if kept != map[] then Ok([kept] + rest.value) else rest
      case other => Err("'" + TypeName(other) + "' object has no attribute 'values'")
  }

  /** Two results in sequence: the first error, or both values joined. */
  function Then<T>(x: Result<seq<T>, string>, y: Result<seq<T>, string>): Result<seq<T>, string> {
    if x.Err? then x else if y.Err? then y else Ok(x.value + y.value)
  }

  /** The filter acts entry by entry: cleaning a concatenation cleans each
      part, keeping their order, and raises the first part's error. */
  lemma {:induction false} CleanResourcesAppend(a: seq<Json>, b: seq<Json>)
    ensures CleanResources(a + b) == Then(CleanResources(a), CleanResources(b))
  {
    if a == [] {
      assert a + b == b;
      assert CleanResources(a) == Ok([]);
      if CleanResources(b).Ok? {
        assert [] + CleanResources(b).value == CleanResources(b).value;
      }
    } else {
      var ab := a + b;
      assert ab[0] == a[0];
      assert ab[1..] == a[1..] + b;
      CleanResourcesAppend(a[1..], b);
      match a[0]
      case JObj(f) =>
        var kept := KeepFields(f);
        var ra, rb := CleanResources(a[1..]), CleanResources(b);
        if ra.Ok? && rb.Ok? && kept != map[] {
          assert [kept] + (ra.value + rb.value) == [kept] + ra.value + rb.value;
        }
      case _ =>
    }
  }

  /** What one entry contributes: nothing when none of its values is kept. */
  lemma CleanResourcesOne(f: map<string, Json>)
    ensures CleanResources([JObj(f)]) ==
      if (exists k :: k in f && Kept(f[k])) then Ok([KeepFields(f)]) else Ok([])
  {
    assert [JObj(f)][1..] == [];
    if exists k :: k in f && Kept(f[k]) {
      var k :| k in f && Kept(f[k]);
      assert k in KeepFields(f);
      assert [KeepFields(f)] + [] == [KeepFields(f)];
    } else {
      assert KeepFields(f) == map[];
    }
  }

  /** An entry that is not an object makes the comprehension raise. */
  lemma CleanResourcesNotObject(x: Json)
    requires !x.JObj?
    ensures CleanResources([x]) == Err("'" + TypeName(x) + "' object has no attribute 'values'")
  {
  }

  /** A cleaned resource list is left as it is by a second cleaning. */
  lemma {:induction false} CleanResourcesTwice(rs: seq<Json>)
    requires CleanResources(rs).Ok?
    ensures CleanResources(Objects(CleanResources(rs).value)) == CleanResources(rs)
  {
    if rs != [] {
      var f := rs[0].fields;
      CleanResourcesTwice(rs[1..]);
      var rest := CleanResources(rs[1..]).value;
      var kept := KeepFields(f);
      if kept != map[] {
        assert Objects([kept] + rest) == [JObj(kept)] + Objects(rest);
        KeepFieldsTwice(f);
        assert [JObj(kept)] + Objects(rest) == [JObj(kept)] + Objects(rest);
        assert Objects([kept] + rest)[1..] == Objects(rest);
      }
    }
  }

  /** Why iterating a kept `suggested_learning_resources` value that is not a
      list fails: a string or dict yields strings, which have no `values`, and
      a number or boolean is not iterable. */
  function NotAList(v: Json): string {
    match v
    case JNum(_) => "'int' object is not iterable"
    case JBool(_) => "'bool' object is not iterable"
    case _ => "'str' object has no attribute 'values'"
  }

  /** `clean_persona(persona)`. */
  function CleanPersona(p: Json): (r: Result<map<string, Json>, string>)
    ensures r.Ok? <==> p.JObj? && (ResourcesKey in KeepFields(p.fields) ==>
                                   p.fields[ResourcesKey].JArr? &&
                                   forall i :: 0 <= i < |p.fields[ResourcesKey].items| ==>
                                     p.fields[ResourcesKey].items[i].JObj?)
    ensures !p.JObj? ==> r == Err("'" + TypeName(p) + "' object has no attribute 'items'")
    ensures r.Ok? ==> forall k :: k in r.value <==> k in p.fields && Kept(p.fields[k])
    ensures r.Ok? ==> forall k :: k in r.value && k != ResourcesKey ==> r.value[k] == p.fields[k]
    ensures r.Ok? && ResourcesKey in r.value ==>
              r.value[ResourcesKey] == JArr(Objects(CleanResources(p.fields[ResourcesKey].items).value))
  {
    match p
    case JObj(fields) =>
      var cleaned := KeepFields(fields);
      if ResourcesKey !in cleaned then Ok(cleaned)
      else
        var resources := cleaned[ResourcesKey];
        (match resources
         case JArr(items) =>
           (match CleanResources(items)
            case Ok(rs) => Ok(cleaned[ResourcesKey := JArr(Objects(rs))])
            case Err(e) => Err(e))
         case other => Err(NotAList(other)))
    case _ => Err("'" + TypeName(p) + "' object has no attribute 'items'")
  }

  /** Cleaning is not idempotent: a resource list that cleaning emptied is
      kept as `[]`, which is falsy, so a second cleaning drops the key.
      Everything else survives a second cleaning unchanged. */
  lemma CleanPersonaTwice(p: Json)
    requires CleanPersona(p).Ok?
    ensures var c := CleanPersona(p).value;
      CleanPersona(JObj(c)) ==
        if ResourcesKey in c && c[ResourcesKey] == JArr([]) then Ok(c - {ResourcesKey}) else Ok(c)
  {
    var f := p.fields;
    var c := CleanPersona(p).value;
    var once := KeepFields(f);
    KeepFieldsTwice(f);
    if ResourcesKey in c {
      var items := f[ResourcesKey].items;
      var rs := CleanResources(items).value;
      CleanResourcesTwice(items);
      if rs == [] {
        assert c[ResourcesKey] == JArr([]);
        assert KeepFields(c) == c - {ResourcesKey};
      } else {
        assert Objects(rs)[0] == JObj(rs[0]);
        assert Kept(c[ResourcesKey]);
        assert KeepFields(c) == c;
        assert CleanResources(Objects(rs)) == Ok(rs);
        assert c[ResourcesKey := JArr(Objects(rs))] == c;
      }
    } else {
      assert c == once;
      assert KeepFields(c) == c;
    }
  }
}
