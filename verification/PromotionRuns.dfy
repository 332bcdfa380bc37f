/** Sequences of promotions, and the three loops compared. */
module PromotionRuns {
  import opened AssetKeys
  import opened Json
  import opened Retagging
  import opened Promotions
  import opened UrlHistory

  /** No sequence of promotions touches another field. */
  lemma {:induction false} OthersSurvive(t: Text, ps: seq<Promotion>, r: Dict, k: string)
    requires Run(t, ps, r).Some? && !IsUrlKey(k) && !IsTagField(k)
    requires forall i :: 0 <= i < |ps| ==> k != OwnName(ps[i].kind)
    ensures var r' := Run(t, ps, r).value; (k in r' <==> k in r) && (k in r ==> r'[k] == r[k])
  {
    hide Promote, IsUrlKey, IsTagField, OwnStem;
    if ps != [] {
      OnlyTagsAndUrlsChange(t, ps[0], r, k);
      OthersSurvive(t, ps[1..], Promote(t, ps[0], r).value, k);
    }
  }

  /** After any run the release says the last tag, and the tag fields nothing of the others. */
  lemma LastTagSaid(t: Text, ps: seq<Promotion>, r: Dict)
    requires PlainText(t) && ps != [] && Run(t, ps, r).Some?
    ensures Says(ps[|ps| - 1], Run(t, ps, r).value)
  {
    hide Run, Promote, Says, PlainText;
    RunSplits(t, ps, r);
    PromotedSays(t, ps[|ps| - 1], Run(t, ps[..|ps| - 1], r).value);
  }

  // ---- which assets have a URL

  ghost predicate AllHaveUrls(t: Text, r: Dict) { forall n :: IsNameKey(n) && Named(t, r, n) ==> UrlKeyOf(n) in r }

  /** The asset has a URL key, or some promotion of the run supplies it. */
  predicate Covered(ps: seq<Promotion>, r: Dict, n: string)
    requires IsNameKey(n)
  {
    UrlKeyOf(n) in r || Supplied(ps, n)
  }

  ghost predicate AllCovered(t: Text, ps: seq<Promotion>, r: Dict) {
    forall n :: IsNameKey(n) && Named(t, r, n) ==> Covered(ps, r, n)
  }

  /** Any run: at its end every named asset has a URL exactly when each asset named at the start had one or
      some promotion of the run supplied it. */
  lemma RunCovers(t: Text, ps: seq<Promotion>, r: Dict)
    requires PlainText(t) && Run(t, ps, r).Some?
    ensures AllHaveUrls(t, Run(t, ps, r).value) <==> AllCovered(t, ps, r)
  {
    hide Run, PlainText, IsNameKey, UrlKeyOf, IsUrlKey, Named, Textual, Supplied, ReadName, Single;
    var q := Run(t, ps, r).value;
    forall n | IsNameKey(n) && Named(t, r, n) ensures Named(t, q, n) && (UrlKeyOf(n) in q <==> Covered(ps, r, n)) {
      RunText(t, ps, r, n);
    }
    forall n | IsNameKey(n) && Named(t, q, n) && !Named(t, r, n) ensures UrlKeyOf(n) in q {
      NewlyNamed(t, ps, r, n);
    }
  }

  // ---- the last tag

  /** For every release, whatever its keys: the last tag wins exactly when the last promotion reaches every
      asset named before it. */
  lemma AnyRunTagged(t: Text, ps: seq<Promotion>, r: Dict)
    requires PlainText(t) && ps != [] && Run(t, ps, r).Some?
    ensures Run(t, ps[..|ps| - 1], r).Some?
    ensures AllTagged(t, ps[|ps| - 1], Run(t, ps, r).value)
        <==> AllReached(t, ps[|ps| - 1], Run(t, ps[..|ps| - 1], r).value)
  {
    hide Promote, Run, AllTagged, Reached, IsNameKey, PlainText;
    RunSplits(t, ps, r);
    AllTaggedExactly(t, ps[|ps| - 1], Run(t, ps[..|ps| - 1], r).value);
  }

  /** A URL key with the pattern repeated gets the last tag from a sequential promotion if the other name it
      reads gives the same link, or, where there is no such name, if the link was there already. */
  predicate RepeatedFits(t: Text, before: seq<Promotion>, last: Promotion, r: Dict, n: string)
    requires IsNameKey(n) && IsUrlKey(UrlKeyOf(n)) && Named(t, r, n)
  {
    var m := ReadName(UrlKeyOf(n));
    var link := Link(t, Download(last), r[n]);
    if Named(t, r, m) then Link(t, Download(last), r[m]) == link else HeldUrl(t, before, r, n) == Some(link)
  }

  /** What the first release and the run must be for a named asset to end with the last tag. */
  predicate Wins(t: Text, before: seq<Promotion>, last: Promotion, r: Dict, n: string)
    requires IsNameKey(n) && IsUrlKey(UrlKeyOf(n)) && Named(t, r, n)
  {
    || Supplies(last, n)
    || (last.kind.Story? && Textual(t, before, r, n))
    || (last.kind.Sequential? && Covered(before, r, n)
        && (Single(UrlKeyOf(n)) || RepeatedFits(t, before, last, r, n)))
  }

  ghost predicate AllWin(t: Text, before: seq<Promotion>, last: Promotion, r: Dict) {
    forall n :: IsNameKey(n) && Named(t, r, n) ==> IsUrlKey(UrlKeyOf(n)) && Wins(t, before, last, r, n)
  }

  lemma WinsReaches(t: Text, before: seq<Promotion>, last: Promotion, r: Dict, n: string)
    requires PlainText(t) && Run(t, before, r).Some? && IsNameKey(n) && Named(t, r, n)
    ensures IsUrlKey(UrlKeyOf(n))
    ensures Reached(t, last, Run(t, before, r).value, n) <==> Wins(t, before, last, r, n)
  {
    hide Run, PlainText, IsNameKey, UrlKeyOf, IsUrlKey, Textual, Supplied, Occurrences, OwnStem, HeldUrl, Link,
      NameKeyOf, Download, ReplaceAll;
    RunText(t, before, r, n);
    AssetNameIsName();
    if UrlKeyOf(n) == "asset_url" { NameToUrl(n); }
    if !Single(UrlKeyOf(n)) {
      RepeatedIsOther(last, n);
      RepeatedStays(t, before, r, n);
      if !Named(t, r, ReadName(UrlKeyOf(n))) { RunHolds(t, before, r, n); }
    }
  }

  lemma NewlyReached(t: Text, before: seq<Promotion>, last: Promotion, r: Dict, n: string)
    requires PlainText(t) && Run(t, before, r).Some? && IsNameKey(n) && !Named(t, r, n)
    requires Named(t, Run(t, before, r).value, n)
    ensures Reached(t, last, Run(t, before, r).value, n)
  {
    hide Run, PlainText, IsNameKey, UrlKeyOf, Named, Occurrences, OwnStem, SequentialText, Link;
    NewlyNamed(t, before, r, n);
  }

  /** For every release and every mixed run: the last tag is in every named asset's URL exactly when the first
      release and the run let it win for each asset named at the start. */
  lemma LastTagWins(t: Text, ps: seq<Promotion>, r: Dict)
    requires PlainText(t) && ps != [] && Run(t, ps, r).Some?
    ensures AllTagged(t, ps[|ps| - 1], Run(t, ps, r).value) <==> AllWin(t, ps[..|ps| - 1], ps[|ps| - 1], r)
  {
    hide Run, PlainText, IsNameKey, UrlKeyOf, IsUrlKey, Named, Reached, Wins, AllTagged;
    var last, before := ps[|ps| - 1], ps[..|ps| - 1];
    AnyRunTagged(t, ps, r);
    var q := Run(t, before, r).value;
    forall n | IsNameKey(n) && Named(t, r, n)
      ensures Named(t, q, n) && IsUrlKey(UrlKeyOf(n)) && (Reached(t, last, q, n) <==> Wins(t, before, last, r, n))
    {
      RunText(t, before, r, n);
      WinsReaches(t, before, last, r, n);
    }
    forall n | IsNameKey(n) && Named(t, q, n) && !Named(t, r, n) ensures Reached(t, last, q, n) {
      NewlyReached(t, before, last, r, n);
    }
  }

  /** Keys every loop recognises: the pattern occurs once in them, and URLs are texts. */
  ghost predicate Recognised(r: Dict) {
    && (forall k :: k in r && IsUrlKey(k) ==> r[k].Str? && Single(k))
    && (forall n :: n in r && IsNameKey(n) ==> Single(UrlKeyOf(n)))
  }

  /** On recognised keys that is: each asset named at the start had a URL key or some promotion supplies it. */
  lemma RecognisedTagWins(t: Text, ps: seq<Promotion>, r: Dict)
    requires PlainText(t) && Recognised(r) && ps != [] && Run(t, ps, r).Some?
    ensures AllTagged(t, ps[|ps| - 1], Run(t, ps, r).value) <==> AllCovered(t, ps, r)
  {
    hide Run, PlainText, IsNameKey, UrlKeyOf, IsUrlKey, AllTagged, Supplied, HasSequential, Single, ReadName;
    LastTagWins(t, ps, r);
    forall n | IsNameKey(n) && Named(t, r, n)
      ensures IsUrlKey(UrlKeyOf(n)) && (Wins(t, ps[..|ps| - 1], ps[|ps| - 1], r, n) <==> Covered(ps, r, n))
    {
      EmptyRun(t, r, n);
      SuppliedSplits(ps, n);
    }
  }

  /** Every asset whose URL key repeats the pattern gets the last tag from a sequential promotion. */
  ghost predicate AllRepeatedFit(t: Text, before: seq<Promotion>, last: Promotion, r: Dict) {
    forall n :: IsNameKey(n) && Named(t, r, n) && !Single(UrlKeyOf(n)) ==>
      IsUrlKey(UrlKeyOf(n)) && RepeatedFits(t, before, last, r, n)
  }

  /** One KMS promotion anywhere in a run is enough, for every release, except that a sequential promotion at
      the end may read a URL key that repeats the pattern from another name. */
  lemma KmsRepairs(t: Text, ps: seq<Promotion>, r: Dict, i: nat)
    requires PlainText(t) && Run(t, ps, r).Some? && i < |ps| && ps[i].kind.Kms?
    ensures AllTagged(t, ps[|ps| - 1], Run(t, ps, r).value)
        <==> !ps[|ps| - 1].kind.Sequential? || AllRepeatedFit(t, ps[..|ps| - 1], ps[|ps| - 1], r)
  {
    hide Run, PlainText, IsNameKey, UrlKeyOf, IsUrlKey, AllTagged, HasSequential, Single, ReadName, OwnStem, Named;
    LastTagWins(t, ps, r);
    var last, before := ps[|ps| - 1], ps[..|ps| - 1];
    forall n | IsNameKey(n) && Named(t, r, n)
      ensures IsUrlKey(UrlKeyOf(n))
      ensures Wins(t, before, last, r, n)
          <==> !last.kind.Sequential? || Single(UrlKeyOf(n)) || RepeatedFits(t, before, last, r, n)
    {
      EmptyRun(t, r, n);
      if !last.kind.Kms? { assert before[i] == ps[i] && Supplies(before[i], n); }
      if !Single(UrlKeyOf(n)) { RepeatedIsOther(last, n); }
    }
  }

  const REPEATED := URL_SUFFIX + NAME_SUFFIX

  lemma RepeatedKeys()
    ensures IsNameKey(REPEATED) && UrlKeyOf(REPEATED) == URL_SUFFIX + URL_SUFFIX && IsUrlKey(UrlKeyOf(REPEATED))
    ensures !Single(UrlKeyOf(REPEATED)) && ReadName(UrlKeyOf(REPEATED)) != REPEATED
  {
    hide IsNameKey, UrlKeyOf, IsUrlKey, ReplaceAll;
    var k := URL_SUFFIX + URL_SUFFIX;
    StemKeys(URL_SUFFIX);
    assert k[10..] == URL_SUFFIX && StartsUrl(k) && StartsUrl(URL_SUFFIX);
    ReplaceGrows(k);
  }

  /** The exception is real: a sequential promotion after a KMS one leaves such a key with the older link. */
  lemma RepeatedMissed(t: Text, first: Promotion, last: Promotion)
    requires PlainText(t) && first.kind.Kms? && last.kind.Sequential? && Download(first) != Download(last)
    ensures var r: Dict := map[REPEATED := Str("a.json")];
      Run(t, [first, last], r).Some? && !AllTagged(t, last, Run(t, [first, last], r).value)
  {
    hide IsNameKey, UrlKeyOf, IsUrlKey, ReadName, Single, Download, Promote, AllTagged, Run;
    var r: Dict := map[REPEATED := Str("a.json")];
    RepeatedKeys();
    BothPromote(t, first, last, r);
    KmsRepairs(t, [first, last], r, 0);
    assert [first, last][..1] == [first];
    assert Named(t, r, REPEATED);
    LinksDiffer(t, first, last, Str("a.json"));
    assert LastBeside([first]) == Some(first) && Supplies(first, REPEATED) && first in [first];
    assert !RepeatedFits(t, [first], last, r, REPEATED);
  }

  lemma BothPromote(t: Text, first: Promotion, last: Promotion, r: Dict)
    requires first.kind.Kms? && last.kind.Sequential?
    ensures Run(t, [first, last], r).Some?
  {
    hide Promote;
    AlwaysPromotes(t, first, r);
    var q := Promote(t, first, r).value;
    AlwaysPromotes(t, last, q);
    assert [first, last][1..] == [last] && [last][1..] == [];
    assert Run(t, [], Promote(t, last, q).value).Some?;
    assert Run(t, [last], q).Some?;
  }

  lemma AlwaysPromotes(t: Text, p: Promotion, r: Dict)
    requires !p.kind.Story?
    ensures Promote(t, p, r).Some?
  {
    hide ByName, ByUrl, Tagged, WithOwn;
  }

  lemma LinksDiffer(t: Text, p: Promotion, q: Promotion, name: Json)
    requires Download(p) != Download(q)
    ensures Link(t, Download(p), name) != Link(t, Download(q), name)
  {
    hide Download;
    var a, b, s := Download(p), Download(q), "/" + t.str(name);
    assert a + "/" + t.str(name) == a + s && b + "/" + t.str(name) == b + s;
    assert (a + s)[..|a + s| - |s|] == a && (b + s)[..|b + s| - |s|] == b;
  }

  /** A release with a named asset and no URL key for it: a URL-driven promotion leaves the asset without
      the tag. */
  lemma UrllessAssetMissed(t: Text, p: Promotion)
    requires PlainText(t) && !p.kind.Kms?
    ensures var r: Dict := map["asset_name" := Str("envelope.json"), "demo_asset_name" := Str("demo.json")];
      Promote(t, p, r).Some? && !AllTagged(t, p, Promote(t, p, r).value)
  {
    var r: Dict := map["asset_name" := Str("envelope.json"), "demo_asset_name" := Str("demo.json")];
    var n := "demo_asset_name";
    DemoKeys();
    DemoIsOther(p.kind);
    hide IsNameKey, UrlKeyOf, OwnStem, Promote, Occurrences;
    assert Named(t, r, n);
    StoryPromotes(t, p, r);
    AllTaggedExactly(t, p, r);
    assert !Reached(t, p, r, n);
  }

  lemma DemoKeys()
    ensures IsNameKey("demo_asset_name") && UrlKeyOf("demo_asset_name") == "demo_asset_url"
    ensures "demo_asset_url" != "asset_url" && "demo_asset_url" != "asset_name" && "demo_asset_url" != "demo_asset_name"
  {
    StemKeys("demo");
    assert "demo" + NAME_SUFFIX == "demo_asset_name" && "demo" + URL_SUFFIX == "demo_asset_url";
  }

  lemma DemoIsOther(kind: Kind)
    ensures OwnName(kind) != "demo_asset_name"
  {
    assert |OwnName(kind)| > 16;
  }

  lemma StoryPromotes(t: Text, p: Promotion, r: Dict)
    requires "asset_name" in r
    ensures Promote(t, p, r).Some?
  {
    hide ByName, ByUrl, OwnStem, OwnAsset;
  }

  // ---- the loops compared

  /** What is left under a URL key when its name is read from n. */
  function ReadFrom(t: Text, r: Dict, download: string, n: string, before: Json): Json {
    if Named(t, r, n) then Link(t, download, r[n]) else before
  }

  /** Every key with the pattern more than once gets the same link from both names read for it. */
  ghost predicate DoublesAgree(t: Text, r: Dict, download: string) {
    forall k :: k in r && IsUrlKey(k) && !Single(k) ==>
      ReadFrom(t, r, download, NameKeyOf(k), r[k]) == ReadFrom(t, r, download, ReplaceAll(k), r[k])
  }

  ghost predicate OthersHaveUrls(t: Text, r: Dict) {
    forall n :: IsNameKey(n) && Named(t, r, n) && n != "asset_name" ==> UrlKeyOf(n) in r
  }

  predicate AssetUrlSays(t: Text, r: Dict, link: Json) {
    Named(t, r, "asset_name") || ("asset_url" in r && r["asset_url"] == link)
  }

  /** No URL that is not a text stands beside a name. */
  ghost predicate TextsBesideNames(t: Text, r: Dict) {
    forall k :: k in r && IsUrlKey(k) && k != "asset_url" && !r[k].Str? ==> !Named(t, r, NameKeyOf(k))
  }

  lemma ByNameReads(t: Text, r: Dict, download: string)
    ensures var a := ByName(t, r, download, r.Keys);
      && a.Keys == r.Keys + NewUrls(t, r, r.Keys)
      && (forall k :: k in a && IsUrlKey(k) ==>
            a[k] == ReadFrom(t, r, download, NameKeyOf(k), if k in r then r[k] else Null))
      && (forall k :: k in a && !IsUrlKey(k) ==> k in r && a[k] == r[k])
  {
    hide IsUrlKey, NameKeyOf, Link;
  }

  lemma ByUrlReads(t: Text, kind: Kind, r: Dict, download: string)
    requires !kind.Kms?
    ensures var u := ByUrl(t, kind, r, download, r.Keys);
      && u.Keys == r.Keys
      && (forall k :: k in r && !IsUrlKey(k) ==> u[k] == r[k])
      && (forall k :: k in r && IsUrlKey(k) ==>
            u[k] == if NameRead(kind, k, r[k]).Some?
                    then ReadFrom(t, r, download, NameRead(kind, k, r[k]).value, r[k]) else r[k])
  {
    hide IsUrlKey, NameRead, Link;
    forall k | k in r && NameRead(kind, k, r[k]).Some? ensures IsUrlKey(k) { ReadIsName(kind, k, r[k]); }
  }

  /** The name-driven loop adds a key exactly when some named asset had no URL. */
  lemma NothingAdded(t: Text, r: Dict)
    ensures NewUrls(t, r, r.Keys) <= r.Keys <==> AllHaveUrls(t, r)
  {
    hide IsNameKey, IsUrlKey, UrlKeyOf, NameKeyOf;
    forall n | IsNameKey(n) && Named(t, r, n) ensures UrlKeyOf(n) in NewUrls(t, r, r.Keys) { NameToUrl(n); }
    forall k | k in NewUrls(t, r, r.Keys) ensures IsNameKey(NameKeyOf(k)) && UrlKeyOf(NameKeyOf(k)) == k {
      UrlToName(k);
    }
  }

  /** For every release: the name-driven loop and the sequential loop give one result exactly when every named
      asset has its URL key and keys with a repeated pattern read the same link either way. */
  lemma SequentialAgrees(t: Text, r: Dict, download: string)
    ensures ByName(t, r, download, r.Keys) == ByUrl(t, Sequential, r, download, r.Keys)
        <==> AllHaveUrls(t, r) && DoublesAgree(t, r, download)
  {
    hide IsNameKey, IsUrlKey, UrlKeyOf, NameKeyOf, Single, NameRead, ReadFrom, ByName, ByUrl, AllHaveUrls, NewUrls;
    var a, u := ByName(t, r, download, r.Keys), ByUrl(t, Sequential, r, download, r.Keys);
    ByNameReads(t, r, download);
    ByUrlReads(t, Sequential, r, download);
    NothingAdded(t, r);
    forall k | k in r && IsUrlKey(k)
      ensures NameRead(Sequential, k, r[k]) == Some(if Single(k) then NameKeyOf(k) else ReplaceAll(k))
    {
      SequentialReads(k, r[k]);
    }
    assert AllHaveUrls(t, r) ==> a.Keys == u.Keys;
    assert a.Keys == u.Keys ==> AllHaveUrls(t, r);
  }

  /** For every release with an asset_name: the name-driven loop gives what the story loop and the update of
      asset_url give exactly when every other named asset has its URL key, no other URL beside a name is
      something else than a text, and asset_url is what the name says. */
  lemma StoryAgrees(t: Text, r: Dict, download: string)
    requires "asset_name" in r
    ensures var link := Link(t, download, r["asset_name"]);
      ByName(t, r, download, r.Keys) == ByUrl(t, Story, r, download, r.Keys)["asset_url" := link]
      <==> OthersHaveUrls(t, r) && TextsBesideNames(t, r) && AssetUrlSays(t, r, link)
  {
    hide IsNameKey, IsUrlKey, UrlKeyOf, NameKeyOf, NameRead, ByName, ByUrl, NewUrls, Link;
    var link := Link(t, download, r["asset_name"]);
    var a, u := ByName(t, r, download, r.Keys), ByUrl(t, Story, r, download, r.Keys)["asset_url" := link];
    AssetNameIsName();
    ByNameReads(t, r, download);
    ByUrlReads(t, Story, r, download);
    NewUrlsBeside(t, r);
    forall k | k in r && IsUrlKey(k)
      ensures NameRead(Story, k, r[k]) == if k != "asset_url" && r[k].Str? then Some(NameKeyOf(k)) else None
    {
      StoryReads(k, r[k]);
    }
    LinkIsText(t, download);
    assert u.Keys == r.Keys + {"asset_url"};
    if a == u {
      forall k | k in r && IsUrlKey(k) && k != "asset_url" && !r[k].Str? ensures !Named(t, r, NameKeyOf(k)) {
        assert a[k] == u[k] == r[k];
      }
      assert "asset_url" in a && a["asset_url"] == link;
    }
  }

  lemma LinkIsText(t: Text, download: string)
    ensures forall name :: Link(t, download, name).Str?
  {
  }

  lemma NewUrlsBeside(t: Text, r: Dict)
    ensures NewUrls(t, r, r.Keys) <= r.Keys + {"asset_url"}
        <==> OthersHaveUrls(t, r)
    ensures "asset_url" in NewUrls(t, r, r.Keys) <==> Named(t, r, "asset_name")
  {
    hide IsNameKey, IsUrlKey, UrlKeyOf, NameKeyOf;
    AssetNameIsName();
    forall n | IsNameKey(n) && Named(t, r, n)
      ensures UrlKeyOf(n) in NewUrls(t, r, r.Keys) && NameKeyOf(UrlKeyOf(n)) == n
    {
      NameToUrl(n);
    }
    forall k | k in NewUrls(t, r, r.Keys) ensures IsNameKey(NameKeyOf(k)) && UrlKeyOf(NameKeyOf(k)) == k {
      UrlToName(k);
    }
  }
}
