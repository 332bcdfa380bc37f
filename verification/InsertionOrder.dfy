/** The serializer as it runs: dicts in their insertion order, sorted when written out. */
module InsertionOrder {
  import opened Json
  import opened CanonicalJson

  type Scalar = j: Json | !j.Arr? && !j.Obj? witness Null

  /** A JSON document whose dicts list their items in insertion order. */
  datatype Doc = Leaf(v: Scalar) | List(docs: seq<Doc>) | Table(items: seq<(string, Doc)>)

  ghost predicate UniqueKeys(items: seq<(string, Doc)>) {
    forall i, j :: 0 <= i < j < |items| ==> items[i].0 != items[j].0
  }

  /** Every dict of the document has each key once. */
  ghost predicate WellKeyed(d: Doc) {
    match d
    case Leaf(_) => true
    case List(docs) => forall x :: x in docs ==> WellKeyed(x)
    case Table(items) => UniqueKeys(items) && forall it :: it in items ==> WellKeyed(it.1)
  }

  /** What the document means: dicts forget their insertion order. */
  function Value(d: Doc): Json
    decreases d, 1
  {
    match d
    case Leaf(v) => v
    case List(docs) => Arr(seq(|docs|, i requires 0 <= i < |docs| => Value(docs[i])))
    case Table(items) => Obj(TableValue(d, |items|))
  }

  function TableValue(d: Doc, n: nat): Dict
    requires d.Table? && n <= |d.items|
    decreases d, 0, n
  {
    if n == 0 then map[] else TableValue(d, n - 1)[d.items[n - 1].0 := Value(d.items[n - 1].1)]
  }

  // ---- sorting the items of one dict

  function Insert(item: (string, Doc), sorted: seq<(string, Doc)>): (r: seq<(string, Doc)>)
    ensures multiset(r) == multiset(sorted) + multiset{item}
  {
    if sorted == [] then [item]
    else if Leq(item.0, sorted[0].0) then [item] + sorted
    else
      var rest := Insert(item, sorted[1..]);
      assert sorted == [sorted[0]] + sorted[1..];
      [sorted[0]] + rest
  }

  function SortItems(items: seq<(string, Doc)>): (r: seq<(string, Doc)>)
    ensures multiset(r) == multiset(items)
  {
    if items == [] then []
    else
      assert items == [items[0]] + items[1..];
      Insert(items[0], SortItems(items[1..]))
  }

  lemma SortKeepsItems(items: seq<(string, Doc)>)
    ensures forall it :: it in SortItems(items) <==> it in items
  {
    forall it ensures it in SortItems(items) <==> it in items {
      assert it in multiset(SortItems(items)) <==> it in multiset(items);
    }
  }

  function KeysOf(items: seq<(string, Doc)>): (r: seq<string>)
    ensures |r| == |items| && forall i :: 0 <= i < |r| ==> r[i] == items[i].0
  {
    seq(|items|, i requires 0 <= i < |items| => items[i].0)
  }

  ghost predicate Ordered(items: seq<(string, Doc)>) {
    forall i, j :: 0 <= i < j < |items| ==> Leq(items[i].0, items[j].0)
  }

  lemma {:induction false} InsertOrdered(item: (string, Doc), sorted: seq<(string, Doc)>)
    requires Ordered(sorted)
    ensures Ordered(Insert(item, sorted))
  {
    if sorted == [] {
    } else if Leq(item.0, sorted[0].0) {
      forall j | 0 <= j < |sorted| ensures Leq(item.0, sorted[j].0) {
        if j > 0 { LeqTransitive(item.0, sorted[0].0, sorted[j].0); }
      }
    } else {
      var rest := Insert(item, sorted[1..]);
      InsertOrdered(item, sorted[1..]);
      LeqTotal(item.0, sorted[0].0);
      forall j | 0 <= j < |rest| ensures Leq(sorted[0].0, rest[j].0) {
        assert rest[j] in multiset(rest);
        assert rest[j] == item || rest[j] in sorted[1..];
      }
    }
  }

  lemma {:induction false} SortOrdered(items: seq<(string, Doc)>)
    ensures Ordered(SortItems(items))
  {
    if items != [] {
      SortOrdered(items[1..]);
      InsertOrdered(items[0], SortItems(items[1..]));
    }
  }

  lemma {:induction false} InsertUnique(item: (string, Doc), sorted: seq<(string, Doc)>)
    requires UniqueKeys(sorted) && forall it :: it in sorted ==> it.0 != item.0
    ensures UniqueKeys(Insert(item, sorted))
  {
    if sorted != [] && !Leq(item.0, sorted[0].0) {
      var rest := Insert(item, sorted[1..]);
      InsertUnique(item, sorted[1..]);
      forall j | 0 <= j < |rest| ensures sorted[0].0 != rest[j].0 {
        assert rest[j] in multiset(rest);
        assert rest[j] == item || rest[j] in sorted[1..];
      }
    }
  }

  lemma {:induction false} SortUnique(items: seq<(string, Doc)>)
    requires UniqueKeys(items)
    ensures UniqueKeys(SortItems(items))
  {
    if items != [] {
      SortUnique(items[1..]);
      SortKeepsItems(items[1..]);
      InsertUnique(items[0], SortItems(items[1..]));
    }
  }

  /** Two strictly increasing lists of the same keys are the same list. */
  lemma {:induction false} IncreasingUnique(a: seq<string>, b: seq<string>)
    requires Increasing(a) && Increasing(b)
    requires forall k :: k in a <==> k in b
    ensures a == b
  {
    assert |b| > 0 ==> b[0] in a;
    if a != [] {
      assert a[0] in b;
      assert b[0] in a;
      if a[0] != b[0] { LeqAntisymmetric(a[0], b[0]); }
      forall k ensures k in a[1..] <==> k in b[1..] {
        assert k in a[1..] <==> k in a && k != a[0];
        assert k in b[1..] <==> k in b && k != b[0];
      }
      IncreasingUnique(a[1..], b[1..]);
    }
  }

  // ---- the serializer

  function Dump(d: Doc): string
    decreases d, 1
  {
    match d
    case Leaf(v) => Print(v)
    case List(docs) => if docs == [] then "[]" else "[" + Dump(docs[0]) + DumpList(d, 1)
    case Table(items) =>
      SortKeepsItems(items);
      var sorted := SortItems(items);
      if sorted == [] then "{}" else "{" + DumpItem(d, sorted[0]) + DumpItems(d, sorted, 1)
  }

  function DumpList(d: Doc, i: nat): string
    requires d.List? && i <= |d.docs|
    decreases d, 0, |d.docs| - i
  {
    if i == |d.docs| then "]" else "," + Dump(d.docs[i]) + DumpList(d, i + 1)
  }

  function DumpItem(d: Doc, it: (string, Doc)): string
    requires d.Table? && it in d.items
    decreases d, 0, 0
  {
    Quote(it.0) + ":" + Dump(it.1)
  }

  function DumpItems(d: Doc, sorted: seq<(string, Doc)>, i: nat): string
    requires d.Table? && i <= |sorted| && forall it :: it in sorted ==> it in d.items
    decreases d, 0, |sorted| - i + 1
  {
    if i == |sorted| then "}" else "," + DumpItem(d, sorted[i]) + DumpItems(d, sorted, i + 1)
  }

  lemma {:induction false} TableValueKeys(d: Doc, n: nat)
    requires d.Table? && n <= |d.items|
    ensures forall k :: k in TableValue(d, n) <==> k in KeysOf(d.items)[..n]
    decreases n
  {
    hide Value;
    if n > 0 {
      TableValueKeys(d, n - 1);
      assert KeysOf(d.items)[..n] == KeysOf(d.items)[..n - 1] + [d.items[n - 1].0];
    }
  }

  lemma {:induction false} TableValueHolds(d: Doc, n: nat)
    requires d.Table? && n <= |d.items| && UniqueKeys(d.items)
    ensures forall i :: 0 <= i < n ==>
              d.items[i].0 in TableValue(d, n) && TableValue(d, n)[d.items[i].0] == Value(d.items[i].1)
    decreases n
  {
    hide Value;
    if n > 0 { TableValueHolds(d, n - 1); }
  }

  lemma TableItemValue(d: Doc, it: (string, Doc))
    requires d.Table? && UniqueKeys(d.items) && it in d.items
    ensures it.0 in Value(d).members && Value(d).members[it.0] == Value(it.1)
  {
    TableValueHolds(d, |d.items|);
  }

  lemma SortKeepsKeys(items: seq<(string, Doc)>)
    ensures forall k :: k in KeysOf(SortItems(items)) <==> k in KeysOf(items)
  {
    hide SortItems, Value;
    var sorted := SortItems(items);
    SortKeepsItems(items);
    forall k ensures k in KeysOf(sorted) <==> k in KeysOf(items) {
      if k in KeysOf(sorted) {
        var i :| 0 <= i < |sorted| && sorted[i].0 == k;
        assert sorted[i] in items;
        var m :| 0 <= m < |items| && items[m] == sorted[i];
        assert KeysOf(items)[m] == k;
      }
      if k in KeysOf(items) {
        var i :| 0 <= i < |items| && items[i].0 == k;
        assert items[i] in sorted;
        var m :| 0 <= m < |sorted| && sorted[m] == items[i];
        assert KeysOf(sorted)[m] == k;
      }
    }
  }

  lemma SortedTableKeys(d: Doc)
    requires d.Table? && UniqueKeys(d.items)
    ensures KeysOf(SortItems(d.items)) == SortedKeys(Value(d).members.Keys)
  {
    hide SortItems, TableValue;
    var sorted := SortItems(d.items);
    SortOrdered(d.items);
    SortUnique(d.items);
    SortKeepsKeys(d.items);
    TableValueKeys(d, |d.items|);
    assert KeysOf(d.items)[..|d.items|] == KeysOf(d.items);
    IncreasingUnique(KeysOf(sorted), SortedKeys(Value(d).members.Keys));
  }

  /** The bytes written depend only on the value: insertion order, at any depth, does not show. */
  lemma {:induction false} DumpIsPrint(d: Doc)
    requires WellKeyed(d)
    ensures Dump(d) == Print(Value(d))
    decreases d, 1
  {
    hide SortItems, TableValue, DumpItem, DumpItems, DumpList, PrintItems, PrintMember, PrintMembers, UniqueKeys;
    match d
    case Leaf(_) =>
    case List(docs) =>
      if docs != [] {
        DumpIsPrint(docs[0]);
        DumpListIsPrint(d, 1);
      }
    case Table(items) =>
      SortKeepsItems(items);
      SortedTableKeys(d);
      var sorted := SortItems(items);
      if sorted != [] {
        DumpItemIsPrint(d, sorted[0]);
        DumpItemsIsPrint(d, sorted, 1);
      }
  }

  lemma {:induction false} DumpListIsPrint(d: Doc, i: nat)
    requires d.List? && WellKeyed(d) && i <= |d.docs|
    ensures DumpList(d, i) == PrintItems(Value(d), i)
    decreases d, 0, |d.docs| - i
  {
    if i < |d.docs| {
      DumpIsPrint(d.docs[i]);
      DumpListIsPrint(d, i + 1);
    }
  }

  lemma {:induction false} DumpItemIsPrint(d: Doc, it: (string, Doc))
    requires d.Table? && WellKeyed(d) && it in d.items
    ensures it.0 in Value(d).members && DumpItem(d, it) == PrintMember(Value(d), it.0)
    decreases d, 0, 0
  {
    TableItemValue(d, it);
    DumpIsPrint(it.1);
  }

  lemma {:induction false} DumpItemsIsPrint(d: Doc, sorted: seq<(string, Doc)>, i: nat)
    requires d.Table? && WellKeyed(d) && i <= |sorted| && forall it :: it in sorted ==> it in d.items
    requires forall k :: k in KeysOf(sorted) ==> k in Value(d).members
    ensures DumpItems(d, sorted, i) == PrintMembers(Value(d), KeysOf(sorted), i)
    decreases d, 0, |sorted| - i + 1
  {
    if i < |sorted| {
      DumpItemIsPrint(d, sorted[i]);
      DumpItemsIsPrint(d, sorted, i + 1);
    }
  }

  /** Canonical bytes decide equality of values: same bytes exactly when same value. */
  lemma CanonicalBytes(a: Doc, b: Doc)
    requires WellKeyed(a) && WellKeyed(b)
    ensures Dump(a) == Dump(b) <==> Value(a) == Value(b)
  {
    DumpIsPrint(a);
    DumpIsPrint(b);
    if Dump(a) == Dump(b) { PrintInjective(Value(a), Value(b)); }
  }
}
