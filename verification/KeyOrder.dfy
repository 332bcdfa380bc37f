/** The canonical text of a document, said without its sorting: which bytes they are. */
module KeyOrder {
  import opened CanonicalJson
  import opened InsertionOrder

  /** Up to n the keys are the same; there the first one ends, or has the smaller character. */
  predicate DiffersAt(a: string, b: string, n: nat) {
    && n <= |a| && n < |b| && a[..n] == b[..n]
    && (n == |a| || a[n] < b[n])
  }

  /** The order of code points, as Python compares two different strings. */
  ghost predicate Precedes(a: string, b: string) { exists n: nat :: DiffersAt(a, b, n) }

  lemma {:induction false} LeqPrecedes(a: string, b: string)
    ensures Leq(a, b) && a != b <==> Precedes(a, b)
  {
    if |a| > 0 && |b| > 0 && a[0] == b[0] {
      LeqPrecedes(a[1..], b[1..]);
      assert a == [a[0]] + a[1..] && b == [b[0]] + b[1..];
      if n: nat :| DiffersAt(a[1..], b[1..], n) {
        assert a[..n + 1] == [a[0]] + a[1..][..n] && b[..n + 1] == [b[0]] + b[1..][..n];
        assert DiffersAt(a, b, n + 1);
      }
      if n: nat :| DiffersAt(a, b, n) {
        assert n > 0;
        assert a[1..][..n - 1] == a[..n][1..] && b[1..][..n - 1] == b[..n][1..];
        assert DiffersAt(a[1..], b[1..], n - 1);
      }
    } else if |b| > 0 && (|a| == 0 || a[0] < b[0]) {
      assert DiffersAt(a, b, 0);
    } else if n: nat :| DiffersAt(a, b, n) {
      FirstDecides(a, b, n);
    }
  }

  lemma FirstDecides(a: string, b: string, n: nat)
    requires DiffersAt(a, b, n)
    ensures |b| > 0 && (|a| == 0 || a[0] <= b[0])
  {
    if n > 0 { assert a[..n][0] == a[0] && b[..n][0] == b[0]; }
  }

  ghost predicate Ascending(items: seq<(string, Doc)>) {
    forall i, j :: 0 <= i < j < |items| ==> Precedes(items[i].0, items[j].0)
  }

  function Joined(texts: seq<string>): string {
    if texts == [] then "" else if |texts| == 1 then texts[0] else texts[0] + "," + Joined(texts[1..])
  }

  function MemberText(it: (string, Doc)): string { Quote(it.0) + ":" + Dump(it.1) }

  function MemberTexts(items: seq<(string, Doc)>): seq<string> {
    seq(|items|, i requires 0 <= i < |items| => MemberText(items[i]))
  }

  function ItemTexts(docs: seq<Doc>): seq<string> {
    seq(|docs|, i requires 0 <= i < |docs| => Dump(docs[i]))
  }

  /** A permutation that ascends strictly is the only one. */
  lemma {:induction false} ListingUnique(a: seq<(string, Doc)>, b: seq<(string, Doc)>)
    requires Ascending(a) && Ascending(b) && multiset(a) == multiset(b)
    ensures a == b
  {
    if a == [] {
      assert |multiset(b)| == 0;
    } else {
      hide Precedes;
      HeadsIn(a, b);
      SameHead(a, b);
      TailsMatch(a, b);
      ListingUnique(a[1..], b[1..]);
      assert a == [a[0]] + a[1..] && b == [b[0]] + b[1..];
    }
  }

  lemma TailsMatch(a: seq<(string, Doc)>, b: seq<(string, Doc)>)
    requires a != [] && b != [] && a[0] == b[0] && multiset(a) == multiset(b)
    ensures multiset(a[1..]) == multiset(b[1..])
  {
    assert a == [a[0]] + a[1..] && b == [b[0]] + b[1..];
    assert multiset(a[1..]) == multiset(a) - multiset{a[0]};
    assert multiset(b[1..]) == multiset(b) - multiset{b[0]};
  }

  lemma HeadsIn(a: seq<(string, Doc)>, b: seq<(string, Doc)>)
    requires a != [] && multiset(a) == multiset(b)
    ensures b != [] && a[0] in b && b[0] in a
  {
    assert a[0] in multiset(b);
    assert b[0] in multiset(a);
  }

  lemma SameHead(a: seq<(string, Doc)>, b: seq<(string, Doc)>)
    requires Ascending(a) && Ascending(b) && a != [] && b != [] && a[0] in b && b[0] in a
    ensures a[0] == b[0]
  {
    if a[0] != b[0] {
      LeqPrecedes(a[0].0, b[0].0);
      LeqPrecedes(b[0].0, a[0].0);
      LeqAntisymmetric(a[0].0, b[0].0);
      assert false;
    }
  }

  lemma SortAscends(items: seq<(string, Doc)>)
    requires UniqueKeys(items)
    ensures Ascending(SortItems(items)) && multiset(SortItems(items)) == multiset(items)
  {
    hide SortItems;
    var sorted := SortItems(items);
    SortOrdered(items);
    SortUnique(items);
    forall i, j | 0 <= i < j < |sorted| ensures Precedes(sorted[i].0, sorted[j].0) {
      LeqPrecedes(sorted[i].0, sorted[j].0);
    }
  }

  lemma JoinedFirst(texts: seq<string>)
    requires texts != []
    ensures Joined(texts) == texts[0] + (if |texts| == 1 then "" else "," + Joined(texts[1..]))
  {
  }

  lemma {:induction false} DumpItemsJoined(d: Doc, sorted: seq<(string, Doc)>, i: nat)
    requires d.Table? && i < |sorted| && forall it :: it in sorted ==> it in d.items
    ensures DumpItem(d, sorted[i]) + DumpItems(d, sorted, i + 1) == Joined(MemberTexts(sorted)[i..]) + "}"
    decreases |sorted| - i
  {
    hide Joined, DumpItem, MemberText;
    var texts := MemberTexts(sorted)[i..];
    JoinedFirst(texts);
    MemberTextIsItem(d, sorted[i]);
    if i + 1 < |sorted| {
      DumpItemsJoined(d, sorted, i + 1);
      assert texts[1..] == MemberTexts(sorted)[i + 1..];
      assert DumpItems(d, sorted, i + 1) == "," + (Joined(texts[1..]) + "}");
    } else {
      assert DumpItems(d, sorted, i + 1) == "}";
    }
  }

  lemma MemberTextIsItem(d: Doc, it: (string, Doc))
    requires d.Table? && it in d.items
    ensures DumpItem(d, it) == MemberText(it)
  {
    hide Dump, Quote;
  }

  lemma {:induction false} DumpListJoined(d: Doc, i: nat)
    requires d.List? && i < |d.docs|
    ensures Dump(d.docs[i]) + DumpList(d, i + 1) == Joined(ItemTexts(d.docs)[i..]) + "]"
    decreases |d.docs| - i
  {
    hide Joined, Dump;
    var texts := ItemTexts(d.docs)[i..];
    JoinedFirst(texts);
    if i + 1 < |d.docs| {
      DumpListJoined(d, i + 1);
      assert texts[1..] == ItemTexts(d.docs)[i + 1..];
      assert DumpList(d, i + 1) == "," + (Joined(texts[1..]) + "]");
    } else {
      assert DumpList(d, i + 1) == "]";
    }
  }

  lemma TableHead(d: Doc)
    requires d.Table? && SortItems(d.items) != []
    ensures SortItems(d.items)[0] in d.items && forall it :: it in SortItems(d.items) ==> it in d.items
    ensures Dump(d) == "{" + (DumpItem(d, SortItems(d.items)[0]) + DumpItems(d, SortItems(d.items), 1))
  {
    hide SortItems, DumpItem, DumpItems;
    SortKeepsItems(d.items);
  }

  lemma ListHead(d: Doc)
    requires d.List? && d.docs != []
    ensures Dump(d) == "[" + (Dump(d.docs[0]) + DumpList(d, 1))
  {
    hide DumpList;
  }

  lemma DumpSorted(d: Doc)
    requires d.Table?
    ensures Dump(d) == "{" + Joined(MemberTexts(SortItems(d.items))) + "}"
  {
    hide SortItems, DumpItem, DumpItems, MemberText;
    var sorted := SortItems(d.items);
    if sorted != [] {
      TableHead(d);
      DumpItemsJoined(d, sorted, 0);
      assert MemberTexts(sorted)[0..] == MemberTexts(sorted);
    }
  }

  /** Every dict is written as its members joined by commas, in the one listing whose keys ascend code point
      by code point, whatever the order its items were put in; and there is such a listing. */
  lemma TableText(d: Doc)
    requires d.Table? && WellKeyed(d)
    ensures exists listing :: multiset(listing) == multiset(d.items) && Ascending(listing)
    ensures forall listing :: multiset(listing) == multiset(d.items) && Ascending(listing) ==>
              Dump(d) == "{" + Joined(MemberTexts(listing)) + "}"
  {
    hide SortItems, Ascending, Joined, MemberTexts, Dump;
    SortAscends(d.items);
    DumpSorted(d);
    forall listing | multiset(listing) == multiset(d.items) && Ascending(listing)
      ensures Dump(d) == "{" + Joined(MemberTexts(listing)) + "}"
    {
      ListingUnique(listing, SortItems(d.items));
    }
  }

  /** Every list is written as its items joined by commas, in their order. */
  lemma ListText(d: Doc)
    requires d.List?
    ensures Dump(d) == "[" + Joined(ItemTexts(d.docs)) + "]"
  {
    hide DumpList;
    if d.docs != [] {
      ListHead(d);
      DumpListJoined(d, 0);
      assert ItemTexts(d.docs)[0..] == ItemTexts(d.docs);
    }
  }

  // ---- strings

  /** No other text that reads as one character is as short as the one written for it. */
  lemma CharShortest(c: char, s: string, rest: string)
    requires s != [] && ReadChar(s) == Done(c, rest)
    ensures |s| >= |rest| + |EscapeChar(c)|
    ensures |s| == |rest| + |EscapeChar(c)| ==> s == EscapeChar(c) + rest
  {
    hide HexDigit, HexValue;
    if s[0] != '\\' {
      assert s == [s[0]] + rest;
    } else if |s| == |rest| + 2 {
      assert s == [s[0], s[1]] + rest;
    } else {
      UnicodeShortest(c, s, rest);
    }
  }

  lemma UnicodeShortest(c: char, s: string, rest: string)
    requires s != [] && ReadChar(s) == Done(c, rest) && s[0] == '\\' && |s| != |rest| + 2
    ensures |s| == |rest| + 6 && |EscapeChar(c)| <= 6
    ensures |EscapeChar(c)| == 6 ==> s == EscapeChar(c) + rest
  {
    hide HexDigit, HexValue;
    HexValueWrites(s[4]);
    HexValueWrites(s[5]);
    assert rest == s[6..] && s == "\\u00" + [s[4], s[5]] + rest;
  }

  lemma HexValueWrites(h: char)
    ensures HexValue(h) < 16 ==> HexDigit(HexValue(h)) == h
  {
  }

  /** A string is written in the shortest way that reads as it, and no other way is as short. */
  lemma {:induction false} StringShortest(text: string, s: string, rest: string)
    requires ReadText(s) == Done(text, rest)
    ensures |s| >= |Escape(text)| + 1 + |rest|
    ensures |s| == |Escape(text)| + 1 + |rest| ==> s == Escape(text) + "\"" + rest
    decreases |text|
  {
    hide ReadChar, EscapeChar;
    if s[0] == '"' {
      assert s == "\"" + rest;
    } else {
      var c, tail := ReadChar(s).value, ReadChar(s).rest;
      CharShortest(c, s, tail);
      StringShortest(text[1..], tail, rest);
      assert Escape(text) == EscapeChar(c) + Escape(text[1..]);
    }
  }
}
