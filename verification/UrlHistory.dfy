/** One asset through a run of promotions: what stands under its URL key at the end, read off the first
    release and the run. */
module UrlHistory {
  import opened AssetKeys
  import opened Json
  import opened Retagging
  import opened Promotions

  function Run(t: Text, ps: seq<Promotion>, r: Dict): Option<Dict> {
    if ps == [] then Some(r)
    else
      var first := Promote(t, ps[0], r);
      if first.None? then None else Run(t, ps[1..], first.value)
  }

  predicate Single(k: string) { k == "asset_url" || Occurrences(k) == 1 }

  /** The name key the sequential loop reads for a URL key. */
  function ReadName(k: string): string
    requires IsUrlKey(k)
  {
    if Single(k) then NameKeyOf(k) else ReplaceAll(k)
  }

  function Lookup(r: Dict, k: string): Option<Json> { if k in r then Some(r[k]) else None }

  // ---- keys with a repeated pattern

  predicate HasAs(s: string) { exists i :: 0 <= i < |s| - 1 && s[i] == 'a' && s[i + 1] == 's' }

  lemma HasAsMoves(head: string, s: string)
    requires HasAs(s)
    ensures HasAs(head + s)
  {
    var i :| 0 <= i < |s| - 1 && s[i] == 'a' && s[i + 1] == 's';
    assert (head + s)[|head| + i] == 'a' && (head + s)[|head| + i + 1] == 's';
  }

  lemma PatternHasAs(s: string)
    ensures HasAs(NAME_SUFFIX + s)
  {
    assert (NAME_SUFFIX + s)[1] == 'a' && (NAME_SUFFIX + s)[2] == 's';
  }

  /** Where the pattern is repeated, the name read has another one before its own suffix. */
  lemma {:induction false} RepeatedRead(k: string)
    requires EndsWith(k, URL_SUFFIX) && Occurrences(k) != 1
    ensures var m := ReplaceAll(k); |m| >= 11 && HasAs(m[..|m| - 11])
    decreases |k|
  {
    hide HasAs, EndsWith;
    EndsLong(k);
    if StartsUrl(k) {
      RestEnds(k);
      var rest := ReplaceAll(k[10..]);
      ReplaceEnds(k[10..]);
      NameLong(rest);
      assert ReplaceAll(k)[..|rest|] == NAME_SUFFIX + rest[..|rest| - 11];
      PatternHasAs(rest[..|rest| - 11]);
    } else {
      if |k| == 10 { OnlyPattern(k); }
      TailEndsUrl(k);
      RepeatedRead(k[1..]);
      var rest := ReplaceAll(k[1..]);
      assert ReplaceAll(k)[..|rest| - 10] == [k[0]] + rest[..|rest| - 11];
      HasAsMoves([k[0]], rest[..|rest| - 11]);
    }
  }

  lemma PatternOnce(k: string)
    requires StartsUrl(k)
    ensures |k| == 10 ==> Occurrences(k) == 1
  {
    if |k| == 10 { assert k[10..] == []; }
  }

  lemma RestEnds(k: string)
    requires EndsWith(k, URL_SUFFIX) && StartsUrl(k) && Occurrences(k) != 1
    ensures |k| >= 20 && EndsWith(k[10..], URL_SUFFIX)
  {
    NoOverlap(k);
    PatternOnce(k);
    assert k[10..][|k| - 20..] == k[|k| - 10..];
  }

  lemma NameLong(n: string)
    requires EndsWith(n, NAME_SUFFIX)
    ensures |n| >= 11
  {
  }

  lemma OwnHasNoAs(kind: Kind)
    ensures var n := OwnName(kind); |n| >= 11 && !HasAs(n[..|n| - 11])
  {
    var n := OwnName(kind);
    assert n[..|n| - 11] == OwnStem(kind);
    StemsOnce(kind);
  }

  lemma OwnIsSingle(kind: Kind)
    ensures IsNameKey(OwnName(kind)) && UrlKeyOf(OwnName(kind)) == OwnUrl(kind) && Single(OwnUrl(kind))
  {
    hide IsNameKey, UrlKeyOf, Occurrences, OwnStem, IsUrlKey, NameKeyOf;
    OwnKeys(kind);
  }

  /** What the sequential loop reads for another asset is neither the own name nor a field it changes. */
  lemma ReadApart(p: Promotion, n: string)
    requires IsNameKey(n) && n != OwnName(p.kind)
    ensures IsUrlKey(UrlKeyOf(n))
    ensures var m := ReadName(UrlKeyOf(n));
      m != OwnName(p.kind) && !IsUrlKey(m) && !IsTagField(m) && (Single(UrlKeyOf(n)) ==> m == n)
  {
    hide IsNameKey, IsUrlKey, UrlKeyOf, NameKeyOf, Occurrences, OwnStem, EndsWith, ReplaceAll, HasAs, IsTagField;
    AssetKeysApart(p, n);
    var k := UrlKeyOf(n);
    if !Single(k) {
      UrlKeyCases(k);
      RepeatedRead(k);
      OwnHasNoAs(p.kind);
      ReplaceEnds(k);
      NameKeyCases(ReplaceAll(k));
      AssetKeysApart(p, ReplaceAll(k));
    }
  }

  lemma SequentialReads(k: string, v: Json)
    requires IsUrlKey(k)
    ensures NameRead(Sequential, k, v) == Some(ReadName(k))
  {
    hide IsUrlKey, EndsWith, ReplaceAll, NameKeyOf, Occurrences;
    UrlKeyCases(k);
    if Single(k) { ReadsBeside(Sequential, k, v); }
  }

  lemma StoryReads(k: string, v: Json)
    requires IsUrlKey(k)
    ensures NameRead(Story, k, v) == if k != "asset_url" && v.Str? then Some(NameKeyOf(k)) else None
  {
    hide IsUrlKey, EndsWith, NameKeyOf;
    UrlKeyCases(k);
  }

  // ---- one promotion

  /** The URL of a named asset, other than the promotion's own, after one promotion. */
  function UrlAfter(t: Text, p: Promotion, r: Dict, n: string): Option<Json>
    requires IsNameKey(n) && IsUrlKey(UrlKeyOf(n)) && Named(t, r, n)
  {
    var k := UrlKeyOf(n);
    match p.kind
    case Kms => Some(Link(t, Download(p), r[n]))
    case Sequential =>
      if k in r && Named(t, r, ReadName(k)) then Some(Link(t, Download(p), r[ReadName(k)])) else Lookup(r, k)
    case Story =>
      if k == "asset_url" || (k in r && r[k].Str?) then Some(Link(t, Download(p), r[n])) else Lookup(r, k)
  }

  lemma UrlMoves(t: Text, p: Promotion, r: Dict, n: string)
    requires Promote(t, p, r).Some? && IsNameKey(n) && Named(t, r, n) && n != OwnName(p.kind)
    ensures IsUrlKey(UrlKeyOf(n)) && Lookup(Promote(t, p, r).value, UrlKeyOf(n)) == UrlAfter(t, p, r, n)
  {
    hide IsNameKey, IsUrlKey, UrlKeyOf, NameKeyOf, Occurrences, OwnStem, OwnAsset, Link, Download, Base, IsTagField,
      EndsWith, NameRead, ReadName;
    AssetKeysApart(p, n);
    AssetNameIsName();
    ReadApart(p, n);
    var k := UrlKeyOf(n);
    match p.kind
    case Kms =>
      OnlyTagsAndUrlsChange(t, p, r, n);
      KmsReaches(t, p, r, n);
    case Sequential =>
      TaggedElsewhere(r, p);
      if k in r { SequentialReads(k, r[k]); }
    case Story =>
      TaggedElsewhere(ByUrl(t, Story, r, Download(p), r.Keys), p);
      if k in r { StoryReads(k, r[k]); }
  }

  /** The name a loop reads for another asset survives a promotion. */
  lemma ReadStays(t: Text, p: Promotion, r: Dict, n: string)
    requires Promote(t, p, r).Some? && IsNameKey(n) && n != OwnName(p.kind)
    ensures IsUrlKey(UrlKeyOf(n))
    ensures Lookup(Promote(t, p, r).value, n) == Lookup(r, n)
    ensures var m := ReadName(UrlKeyOf(n)); Lookup(Promote(t, p, r).value, m) == Lookup(r, m)
  {
    hide IsNameKey, IsUrlKey, UrlKeyOf, OwnStem, IsTagField, ReadName, Promote;
    ReadApart(p, n);
    AssetKeysApart(p, n);
    OnlyTagsAndUrlsChange(t, p, r, n);
    OnlyTagsAndUrlsChange(t, p, r, ReadName(UrlKeyOf(n)));
  }

  /** The promotion's own asset is named and has a text as URL afterwards. */
  lemma OwnHasText(t: Text, p: Promotion, r: Dict)
    requires PlainText(t) && Promote(t, p, r).Some?
    ensures var q := Promote(t, p, r).value; var n := OwnName(p.kind);
      && IsNameKey(n) && IsUrlKey(UrlKeyOf(n)) && Single(UrlKeyOf(n))
      && Named(t, q, n) && UrlKeyOf(n) in q && q[UrlKeyOf(n)].Str?
  {
    hide IsNameKey, IsUrlKey, UrlKeyOf, OwnStem, Promote, Occurrences, OwnUrl;
    OwnReached(t, p, r);
    OwnIsSingle(p.kind);
    OwnKeys(p.kind);
  }

  // ---- any run

  /** A promotion that gives this asset a URL key if it has none, and always leaves a text there. */
  predicate Supplies(p: Promotion, n: string) {
    p.kind.Kms? || n == OwnName(p.kind) || (p.kind.Story? && n == "asset_name")
  }

  predicate Supplied(ps: seq<Promotion>, n: string) { exists p :: p in ps && Supplies(p, n) }

  predicate HasSequential(ps: seq<Promotion>) { exists p :: p in ps && p.kind.Sequential? }

  /** Under the URL key of a named asset a text stands at the end of the run: some promotion supplies it, or
      it was there, or a sequential one rewrites what was there from the name it reads. */
  predicate Textual(t: Text, ps: seq<Promotion>, r: Dict, n: string)
    requires IsNameKey(n) && IsUrlKey(UrlKeyOf(n))
  {
    var k := UrlKeyOf(n);
    Supplied(ps, n) || (k in r && (r[k].Str? || (HasSequential(ps) && Named(t, r, ReadName(k)))))
  }

  /** The last promotion of a run that is not sequential. */
  function LastBeside(ps: seq<Promotion>): Option<Promotion>
    decreases |ps|
  {
    if ps == [] then None
    else if !ps[|ps| - 1].kind.Sequential? then Some(ps[|ps| - 1]) else LastBeside(ps[..|ps| - 1])
  }

  /** The URL of a named asset that sequential promotions never rewrite: the last other promotion has written
      it, if there was a text to rewrite or a name-driven one has put one there. */
  function HeldUrl(t: Text, ps: seq<Promotion>, r: Dict, n: string): Option<Json>
    requires IsNameKey(n) && Named(t, r, n)
  {
    var k := UrlKeyOf(n);
    if LastBeside(ps).Some? && (Supplied(ps, n) || (k in r && r[k].Str?))
    then Some(Link(t, Download(LastBeside(ps).value), r[n])) else Lookup(r, k)
  }

  lemma {:induction false} RunSplits(t: Text, ps: seq<Promotion>, r: Dict)
    requires ps != [] && Run(t, ps, r).Some?
    ensures var before := Run(t, ps[..|ps| - 1], r);
      before.Some? && Promote(t, ps[|ps| - 1], before.value) == Run(t, ps, r)
  {
    hide Promote;
    var q := Promote(t, ps[0], r).value;
    if |ps| == 1 {
      assert ps[..0] == [] && ps[1..] == [] && Run(t, [], q) == Some(q);
    } else {
      RunSplits(t, ps[1..], q);
      assert ps[..|ps| - 1][1..] == ps[1..][..|ps| - 2];
    }
  }

  lemma SuppliedSplits(ps: seq<Promotion>, n: string)
    requires ps != []
    ensures var last, before := ps[|ps| - 1], ps[..|ps| - 1];
      && (Supplied(ps, n) <==> Supplied(before, n) || Supplies(last, n))
      && (HasSequential(ps) <==> HasSequential(before) || last.kind.Sequential?)
  {
    hide Supplies;
    var last, before := ps[|ps| - 1], ps[..|ps| - 1];
    assert ps == before + [last];
    assert forall p :: p in ps <==> p in before || p == last;
  }

  lemma EmptyRun(t: Text, r: Dict, n: string)
    requires IsNameKey(n)
    ensures IsUrlKey(UrlKeyOf(n)) && Run(t, [], r) == Some(r)
    ensures Textual(t, [], r, n) <==> UrlKeyOf(n) in r && r[UrlKeyOf(n)].Str?
    ensures !Supplied([], n) && !HasSequential([])
  {
    hide IsNameKey, IsUrlKey, UrlKeyOf, NameKeyOf;
    NameToUrl(n);
  }

  /** What one promotion makes of a URL: whether there is one, whether it is a text, and what is read for it. */
  lemma StepText(t: Text, p: Promotion, r: Dict, n: string)
    requires PlainText(t) && Promote(t, p, r).Some? && IsNameKey(n) && Named(t, r, n)
    ensures var q := Promote(t, p, r).value; var k := UrlKeyOf(n);
      && Named(t, q, n) && IsUrlKey(k)
      && (k in q <==> k in r || Supplies(p, n))
      && (k in q && q[k].Str? <==>
            Supplies(p, n) || (k in r && (r[k].Str? || (p.kind.Sequential? && Named(t, r, ReadName(k))))))
      && (Named(t, q, ReadName(k)) <==> Named(t, r, ReadName(k)))
  {
    hide Promote, IsNameKey, IsUrlKey, PlainText, OwnStem, OwnAsset, UrlKeyOf, NameKeyOf, ReadName, Download;
    AssetNameIsName();
    if n == OwnName(p.kind) {
      OwnHasText(t, p, r);
      ReadOfSingle(n);
    } else {
      AssetKeysApart(p, n);
      ReadStays(t, p, r, n);
      UrlMoves(t, p, r, n);
    }
  }

  lemma ReadOfSingle(n: string)
    requires IsNameKey(n) && IsUrlKey(UrlKeyOf(n)) && Single(UrlKeyOf(n))
    ensures ReadName(UrlKeyOf(n)) == n
  {
    hide IsNameKey, IsUrlKey, UrlKeyOf, NameKeyOf, Occurrences;
    NameToUrl(n);
  }

  /** Over any run a named asset stays named; at the end it has a URL key exactly when it had one or some
      promotion supplies it, and a text there exactly when Textual says so. */
  lemma {:induction false} RunText(t: Text, ps: seq<Promotion>, r: Dict, n: string)
    requires PlainText(t) && Run(t, ps, r).Some? && IsNameKey(n) && Named(t, r, n)
    ensures var q := Run(t, ps, r).value; var k := UrlKeyOf(n);
      && Named(t, q, n) && IsUrlKey(k)
      && (k in q <==> k in r || Supplied(ps, n))
      && (k in q && q[k].Str? <==> Textual(t, ps, r, n))
      && (Named(t, q, ReadName(k)) <==> Named(t, r, ReadName(k)))
    decreases |ps|
  {
    hide Promote, IsNameKey, PlainText, UrlKeyOf, Supplies, Supplied, HasSequential, IsUrlKey, Run, ReadName, Named;
    if ps == [] {
      EmptyRun(t, r, n);
    } else {
      var last, before := ps[|ps| - 1], ps[..|ps| - 1];
      RunSplits(t, ps, r);
      SuppliedSplits(ps, n);
      RunText(t, before, r, n);
      StepText(t, last, Run(t, before, r).value, n);
    }
  }

  /** An asset that a run names has a text as URL at its end, under a key every loop recognises. */
  lemma {:induction false} NewlyNamed(t: Text, ps: seq<Promotion>, r: Dict, n: string)
    requires PlainText(t) && Run(t, ps, r).Some? && IsNameKey(n) && !Named(t, r, n)
    requires Named(t, Run(t, ps, r).value, n)
    ensures var q := Run(t, ps, r).value; var k := UrlKeyOf(n);
      k in q && q[k].Str? && Single(k)
    decreases |ps|
  {
    hide Promote, IsNameKey, PlainText, UrlKeyOf, Supplies, IsUrlKey, Run, ReadName, OwnStem, Occurrences;
    if ps == [] {
      EmptyRun(t, r, n);
    } else {
      var last, before := ps[|ps| - 1], ps[..|ps| - 1];
      RunSplits(t, ps, r);
      var q := Run(t, before, r).value;
      if n == OwnName(last.kind) {
        OwnHasText(t, last, q);
      } else {
        ReadStays(t, last, q, n);
        NewlyNamed(t, before, r, n);
        StepText(t, last, q, n);
      }
    }
  }

  lemma RepeatedIsOther(p: Promotion, n: string)
    requires IsNameKey(n) && !Single(UrlKeyOf(n))
    ensures n != OwnName(p.kind) && (Supplies(p, n) <==> p.kind.Kms?)
  {
    hide IsNameKey, UrlKeyOf, Occurrences, OwnStem;
    OwnIsSingle(p.kind);
    AssetNameIsName();
  }

  /** Where the pattern is repeated, both names read stay as they are. */
  lemma {:induction false} RepeatedStays(t: Text, ps: seq<Promotion>, r: Dict, n: string)
    requires Run(t, ps, r).Some? && IsNameKey(n) && !Single(UrlKeyOf(n))
    ensures IsUrlKey(UrlKeyOf(n))
    ensures var q := Run(t, ps, r).value; var m := ReadName(UrlKeyOf(n));
      Lookup(q, n) == Lookup(r, n) && Lookup(q, m) == Lookup(r, m)
  {
    hide Promote, IsNameKey, UrlKeyOf, IsUrlKey, ReadName, OwnStem, Single, Lookup;
    if ps == [] {
      EmptyRun(t, r, n);
    } else {
      RepeatedIsOther(ps[0], n);
      ReadStays(t, ps[0], r, n);
      RepeatedStays(t, ps[1..], Promote(t, ps[0], r).value, n);
    }
  }

  /** And if the second name is not there, the URL at the end is the one HeldUrl says. */
  lemma {:induction false} RunHolds(t: Text, ps: seq<Promotion>, r: Dict, n: string)
    requires PlainText(t) && Run(t, ps, r).Some? && IsNameKey(n) && Named(t, r, n)
    requires IsUrlKey(UrlKeyOf(n)) && !Single(UrlKeyOf(n)) && !Named(t, r, ReadName(UrlKeyOf(n)))
    ensures Lookup(Run(t, ps, r).value, UrlKeyOf(n)) == HeldUrl(t, ps, r, n)
    decreases |ps|
  {
    hide Promote, IsNameKey, PlainText, UrlKeyOf, Supplies, Supplied, HasSequential, IsUrlKey, Run, ReadName, Single,
      OwnStem, Link, Download;
    if ps == [] {
      EmptyRun(t, r, n);
    } else {
      var last, before := ps[|ps| - 1], ps[..|ps| - 1];
      RunSplits(t, ps, r);
      SuppliedSplits(ps, n);
      RepeatedIsOther(last, n);
      RunText(t, before, r, n);
      RepeatedStays(t, before, r, n);
      RunHolds(t, before, r, n);
      UrlMoves(t, last, Run(t, before, r).value, n);
      SingleAssetUrl();
    }
  }

  lemma SingleAssetUrl()
    ensures Single("asset_url")
  {
  }
}
