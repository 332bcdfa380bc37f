/** What _require_safe_evidence rules out, said by paths into the evidence. */
module SafeEvidence {
  import opened Json
  import opened PythonValues
  import opened Coordinator

  datatype Place = Key(k: string) | Index(i: nat)

  /** The value at the end of a path, if it leads anywhere. */
  function At(j: Json, path: seq<Place>): Option<Json> {
    if path == [] then Some(j)
    else
      match path[0]
      case Key(k) => if j.Obj? && k in j.members then At(j.members[k], path[1..]) else None
      case Index(i) => if j.Arr? && i < |j.items| then At(j.items[i], path[1..]) else None
  }

  /** Some dict inside the value, however deep, has the key. */
  ghost predicate Has(j: Json, k: string) {
    exists path :: At(j, path).Some? && At(j, path).value.Obj? && k in At(j, path).value.members
  }

  lemma {:induction false} SafeAt(rt: Runtime, j: Json, path: seq<Place>)
    requires Safe(rt, j) && At(j, path).Some?
    ensures Safe(rt, At(j, path).value)
    decreases |path|
  {
    if path != [] {
      match path[0]
      case Key(k) => SafeAt(rt, j.members[k], path[1..]);
      case Index(i) => SafeAt(rt, j.items[i], path[1..]);
    }
  }

  lemma HasBelow(j: Json, place: Place, k: string)
    requires At(j, [place]).Some? && Has(At(j, [place]).value, k)
    ensures Has(j, k)
  {
    var v := At(j, [place]).value;
    var path :| At(v, path).Some? && At(v, path).value.Obj? && k in At(v, path).value.members;
    OneStep(j, place, path);
    assert At(j, [place] + path) == At(v, path);
  }

  lemma OneStep(j: Json, place: Place, path: seq<Place>)
    requires At(j, [place]).Some?
    ensures At(j, [place] + path) == At(At(j, [place]).value, path)
  {
    assert ([place] + path)[1..] == path && [place][1..] == [];
    match place
    case Key(k) => assert At(j.members[k], []) == Some(j.members[k]);
    case Index(i) => assert At(j.items[i], []) == Some(j.items[i]);
  }

  lemma {:induction false} UnsafeHas(rt: Runtime, j: Json)
    requires !Safe(rt, j)
    ensures exists k :: rt.sensitive(k) && Has(j, k)
  {
    match j
    case Obj(m) =>
      var k :| k in m && (rt.sensitive(k) || !Safe(rt, m[k]));
      if rt.sensitive(k) {
        assert At(j, []) == Some(j);
        assert Has(j, k);
      } else {
        UnsafeHas(rt, m[k]);
        var f :| rt.sensitive(f) && Has(m[k], f);
        assert [Key(k)][1..] == [] && At(m[k], []) == Some(m[k]);
        HasBelow(j, Key(k), f);
      }
    case Arr(items) =>
      var i :| 0 <= i < |items| && !Safe(rt, items[i]);
      UnsafeHas(rt, items[i]);
      var f :| rt.sensitive(f) && Has(items[i], f);
      assert [Index(i)][1..] == [] && At(items[i], []) == Some(items[i]);
      HasBelow(j, Index(i), f);
    case _ => assert false;
  }

  /** Evidence is safe exactly when no dict in it, at any depth and inside any list, has a key that looks like a
      secret's. */
  lemma SafeExactly(rt: Runtime, j: Json)
    ensures Safe(rt, j) <==> forall k :: Has(j, k) ==> !rt.sensitive(k)
  {
    if Safe(rt, j) {
      forall k | Has(j, k) ensures !rt.sensitive(k) {
        var path :| At(j, path).Some? && At(j, path).value.Obj? && k in At(j, path).value.members;
        SafeAt(rt, j, path);
      }
    } else {
      UnsafeHas(rt, j);
    }
  }
}
