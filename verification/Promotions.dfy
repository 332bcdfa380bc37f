/** Whole promotions of a release object, one after another. */
module Promotions {
  import opened AssetKeys
  import opened Json
  import opened PythonValues
  import opened Retagging

  datatype Promotion = Promotion(kind: Kind, repository: string, tag: string)

  function Base(p: Promotion): string { "https://github.com/" + p.repository }

  function Download(p: Promotion): string { Base(p) + "/releases/download/" + p.tag }

  predicate IsTagField(k: string) { k == "tag" || k == "release_url" || k == "release_api_url" }

  function Tagged(r: Dict, p: Promotion): Dict {
    r["tag" := Str(p.tag)]["release_url" := Str(Base(p) + "/releases/tag/" + p.tag)]
     ["release_api_url" := Str("https://api.github.com/repos/" + p.repository + "/releases/tags/" + p.tag)]
  }

  /** The asset each promotion brings along. */
  function OwnStem(kind: Kind): string {
    match kind
    case Kms => "kms_outcome_authority"
    case Sequential => "sequential_blind"
    case Story => "evidence_story"
  }

  function OwnAsset(kind: Kind): string {
    match kind
    case Kms => "kms-authority-lifecycle-v1.json"
    case Sequential => "sequential-blind-v1.json"
    case Story => "evidence-story-v1.json"
  }

  function OwnName(kind: Kind): string { OwnStem(kind) + NAME_SUFFIX }

  function OwnUrl(kind: Kind): string { OwnStem(kind) + URL_SUFFIX }

  function WithOwn(t: Text, r: Dict, p: Promotion): Dict {
    r[OwnName(p.kind) := Str(OwnAsset(p.kind))][OwnUrl(p.kind) := Link(t, Download(p), Str(OwnAsset(p.kind)))]
  }

  /** The release object after a promotion; None when a script finds no asset_name. */
  function Promote(t: Text, p: Promotion, r: Dict): Option<Dict> {
    match p.kind
    case Kms =>
      var named := Tagged(r, p)[OwnName(Kms) := Str(OwnAsset(Kms))];
      Some(ByName(t, named, Download(p), named.Keys))
    case Sequential =>
      Some(WithOwn(t, ByUrl(t, Sequential, Tagged(r, p), Download(p), Tagged(r, p).Keys), p))
    case Story =>
      if "asset_name" !in r then None
      else
        var looped := Tagged(ByUrl(t, Story, r, Download(p), r.Keys), p);
        Some(WithOwn(t, looped["asset_url" := Link(t, Download(p), r["asset_name"])], p))
  }

  lemma AssetNameIsName()
    ensures IsNameKey("asset_name") && UrlKeyOf("asset_name") == "asset_url" && !IsUrlKey("asset_name")
    ensures IsUrlKey("asset_url") && NameKeyOf("asset_url") == "asset_name"
  {
    NameToUrl("asset_name");
  }

  lemma OwnKeys(kind: Kind)
    ensures IsNameKey(OwnName(kind)) && IsUrlKey(OwnUrl(kind)) && UrlKeyOf(OwnName(kind)) == OwnUrl(kind)
    ensures OwnName(kind) != "asset_name" && OwnUrl(kind) != "asset_url" && Occurrences(OwnUrl(kind)) == 1
    ensures OwnStem(kind) != [] && OwnAsset(kind) != "" && !IsUrlKey(OwnName(kind))
    ensures NameKeyOf(OwnUrl(kind)) == OwnName(kind)
  {
    hide IsNameKey, IsUrlKey, UrlKeyOf, Occurrences, NameKeyOf;
    StemKeys(OwnStem(kind));
    StemsOnce(kind);
    OnceAfter(OwnStem(kind));
    NameToUrl(OwnName(kind));
  }

  lemma StemsOnce(kind: Kind)
    ensures NoAs(OwnStem(kind))
  {
  }

  lemma TagFieldsApart(k: string)
    requires IsTagField(k)
    ensures !IsUrlKey(k) && !IsNameKey(k)
  {
    assert k != "tag" ==> k[|k| - 4] == '_' && k[|k| - 5] == (if k == "release_url" then 'e' else 'i');
  }

  // ---- what a promotion does

  /** Only tag fields, URL fields and the name of the promotion's own asset change. */
  lemma OnlyTagsAndUrlsChange(t: Text, p: Promotion, r: Dict, k: string)
    requires Promote(t, p, r).Some? && !IsUrlKey(k) && !IsTagField(k) && k != OwnName(p.kind)
    ensures var r' := Promote(t, p, r).value; (k in r' <==> k in r) && (k in r ==> r'[k] == r[k])
  {
    hide IsUrlKey, Link, OwnStem, OwnAsset, NameRead, Rewritten, NameKeyOf, Download;
    OwnKeys(p.kind);
    AssetNameIsName();
    if !p.kind.Kms? {
      var x := if p.kind.Sequential? then Tagged(r, p) else r;
      hide ByUrl;
      Untouched(t, p.kind, x, Download(p), x.Keys, k);
    }
  }

  ghost predicate OthersKept(p: Promotion, r: Dict, r': Dict) {
    forall k :: !IsUrlKey(k) && !IsTagField(k) && k != OwnName(p.kind) ==>
                  (k in r' <==> k in r) && (k in r ==> r'[k] == r[k])
  }

  lemma PromotionFrame(t: Text, p: Promotion, r: Dict)
    ensures Promote(t, p, r).Some? ==> OthersKept(p, r, Promote(t, p, r).value)
  {
    hide Promote, IsUrlKey, IsTagField, OwnStem;
    if Promote(t, p, r).Some? {
      forall k | !IsUrlKey(k) && !IsTagField(k) && k != OwnName(p.kind)
        ensures var r' := Promote(t, p, r).value; (k in r' <==> k in r) && (k in r ==> r'[k] == r[k])
      {
        OnlyTagsAndUrlsChange(t, p, r, k);
      }
    }
  }

  /** What the sequential loop leaves under a URL key. */
  function SequentialText(t: Text, p: Promotion, r: Dict, k: string): Json {
    if Named(t, r, ReplaceAll(k)) then Link(t, Download(p), r[ReplaceAll(k)]) else Get(r, k)
  }

  /** Whether a promotion puts its tag into the URL of a named asset: always from the name; from the URL only
      where there is one the loop recognises. A key with the pattern twice is recognised only if the other
      name it is read from happens to give the same link. */
  predicate Reached(t: Text, p: Promotion, r: Dict, n: string)
    requires IsNameKey(n)
  {
    var k := UrlKeyOf(n);
    match p.kind
    case Kms => true
    case Sequential =>
      n == OwnName(p.kind) || (k in r && (k == "asset_url" || Occurrences(k) == 1
        || SequentialText(t, p, r, k) == Link(t, Download(p), Get(r, n))))
    case Story => n == OwnName(p.kind) || k == "asset_url" || (k in r && r[k].Str?)
  }

  lemma ReadsBeside(kind: Kind, k: string, v: Json)
    requires IsUrlKey(k) && !kind.Kms?
    requires if kind.Sequential? then k == "asset_url" || Occurrences(k) == 1 else k != "asset_url" && v.Str?
    ensures NameRead(kind, k, v) == Some(NameKeyOf(k))
  {
    hide IsUrlKey, EndsWith, ReplaceAll, NameKeyOf, Occurrences;
    UrlKeyCases(k);
    if kind.Sequential? && k != "asset_url" { ReplaceIsNameKey(k); }
  }

  ghost predicate Carries(t: Text, p: Promotion, r: Dict, n: string)
    requires IsNameKey(n) && n in r
  {
    UrlKeyOf(n) in r && r[UrlKeyOf(n)] == Link(t, Download(p), r[n])
  }

  ghost predicate AllTagged(t: Text, p: Promotion, r: Dict) {
    forall n :: IsNameKey(n) && Named(t, r, n) ==> Carries(t, p, r, n)
  }

  /** The keys of one asset through a promotion of another. */
  lemma AssetKeysApart(p: Promotion, n: string)
    requires IsNameKey(n) && n != OwnName(p.kind)
    ensures !IsUrlKey(n) && !IsTagField(n) && IsUrlKey(UrlKeyOf(n)) && NameKeyOf(UrlKeyOf(n)) == n
    ensures UrlKeyOf(n) != OwnUrl(p.kind) && UrlKeyOf(n) != OwnName(p.kind) && !IsTagField(UrlKeyOf(n))
    ensures UrlKeyOf(n) == "asset_url" <==> n == "asset_name"
  {
    hide IsNameKey, IsUrlKey, UrlKeyOf, NameKeyOf, OwnStem, IsTagField, Occurrences;
    NameToUrl(n);
    OwnKeys(p.kind);
    AssetNameIsName();
    if IsTagField(n) { TagFieldsApart(n); }
    if IsTagField(UrlKeyOf(n)) { TagFieldsApart(UrlKeyOf(n)); }
  }

  lemma KmsReaches(t: Text, p: Promotion, r: Dict, n: string)
    requires p.kind.Kms? && IsNameKey(n) && Named(t, Promote(t, p, r).value, n)
    ensures Carries(t, p, Promote(t, p, r).value, n)
  {
    hide IsNameKey, IsUrlKey, UrlKeyOf, NameKeyOf, OwnStem, OwnAsset, Link, Download, Base;
    NameToUrl(n);
    var named := Tagged(r, p)[OwnName(Kms) := Str(OwnAsset(Kms))];
    assert Named(t, named, n);
    assert Hit(t, named, named.Keys, UrlKeyOf(n));
  }

  /** The promotion's own asset always carries its tag. */
  lemma OwnReached(t: Text, p: Promotion, r: Dict)
    requires PlainText(t) && Promote(t, p, r).Some?
    ensures var r' := Promote(t, p, r).value; var n := OwnName(p.kind);
      IsNameKey(n) && Named(t, r', n) && Carries(t, p, r', n)
  {
    hide IsNameKey, IsUrlKey, UrlKeyOf, NameKeyOf, Occurrences, OwnStem, OwnAsset, Link, Download, Base, ByUrl;
    OwnKeys(p.kind);
    var n := OwnName(p.kind);
    if p.kind.Kms? {
      var named := Tagged(r, p)[n := Str(OwnAsset(Kms))];
      assert ByName(t, named, Download(p), named.Keys)[n] == Str(OwnAsset(Kms));
      KmsReaches(t, p, r, n);
    }
  }

  lemma SequentialReaches(t: Text, p: Promotion, r: Dict, n: string)
    requires p.kind.Sequential? && IsNameKey(n) && n != OwnName(p.kind) && Named(t, r, n)
    ensures var r' := Promote(t, p, r).value;
      n in r' && r'[n] == r[n] && (Carries(t, p, r', n) <==> Reached(t, p, r, n))
  {
    hide IsNameKey, IsUrlKey, UrlKeyOf, NameKeyOf, Occurrences, OwnStem, OwnAsset, Link, Download, Base, ReplaceAll,
      EndsWith, IsTagField;
    var k, x := UrlKeyOf(n), Tagged(r, p);
    AssetKeysApart(p, n);
    OnlyTagsAndUrlsChange(t, p, r, n);
    TaggedElsewhere(r, p);
    Untouched(t, Sequential, x, Download(p), x.Keys, n);
    UrlKeyCases(k);
    if k in r {
      if k == "asset_url" || Occurrences(k) == 1 { ReadsBeside(Sequential, k, x[k]); }
      if k != "asset_url" {
        ReplaceEnds(k);
        NameKeyCases(ReplaceAll(k));
        if IsTagField(ReplaceAll(k)) { TagFieldsApart(ReplaceAll(k)); }
      }
    }
  }

  lemma TaggedElsewhere(r: Dict, p: Promotion)
    ensures forall k :: !IsTagField(k) ==> (k in Tagged(r, p) <==> k in r) && (k in r ==> Tagged(r, p)[k] == r[k])
  {
  }

  lemma StoryReaches(t: Text, p: Promotion, r: Dict, n: string)
    requires p.kind.Story? && "asset_name" in r && IsNameKey(n) && n != OwnName(p.kind) && Named(t, r, n)
    ensures var r' := Promote(t, p, r).value;
      n in r' && r'[n] == r[n] && (Carries(t, p, r', n) <==> Reached(t, p, r, n))
  {
    hide IsNameKey, IsUrlKey, UrlKeyOf, NameKeyOf, Occurrences, OwnStem, OwnAsset, Download, Base, IsTagField,
      EndsWith;
    var k := UrlKeyOf(n);
    AssetKeysApart(p, n);
    AssetNameIsName();
    OnlyTagsAndUrlsChange(t, p, r, n);
    TaggedElsewhere(ByUrl(t, Story, r, Download(p), r.Keys), p);
    Untouched(t, Story, r, Download(p), r.Keys, n);
    if k != "asset_url" && k in r && r[k].Str? { ReadsBeside(Story, k, r[k]); }
  }

  /** A promotion leaves its tag in the URL of a named asset exactly when it reaches it. */
  lemma TagReached(t: Text, p: Promotion, r: Dict, n: string)
    requires PlainText(t) && Promote(t, p, r).Some? && IsNameKey(n) && Named(t, Promote(t, p, r).value, n)
    ensures Carries(t, p, Promote(t, p, r).value, n) <==> Reached(t, p, r, n)
    ensures n != OwnName(p.kind) ==> Named(t, r, n)
  {
    hide IsNameKey, IsUrlKey, Promote, OwnStem, OwnAsset, Carries, SequentialText, UrlKeyOf, Occurrences, Link;
    if n == OwnName(p.kind) {
      OwnReached(t, p, r);
    } else {
      AssetKeysApart(p, n);
      OnlyTagsAndUrlsChange(t, p, r, n);
      match p.kind
      case Kms => KmsReaches(t, p, r, n);
      case Sequential => SequentialReaches(t, p, r, n);
      case Story =>
        HasAssetName(t, p, r);
        StoryReaches(t, p, r, n);
    }
  }

  lemma HasAssetName(t: Text, p: Promotion, r: Dict)
    requires p.kind.Story? && Promote(t, p, r).Some?
    ensures "asset_name" in r
  {
    hide ByUrl;
  }

  ghost predicate AllReached(t: Text, p: Promotion, r: Dict) {
    forall n :: IsNameKey(n) && Named(t, r, n) ==> Reached(t, p, r, n)
  }

  /** Every named asset carries the tag of a promotion exactly when it reaches each asset named before. */
  lemma AllTaggedExactly(t: Text, p: Promotion, r: Dict)
    requires PlainText(t) && Promote(t, p, r).Some?
    ensures AllTagged(t, p, Promote(t, p, r).value)
        <==> AllReached(t, p, r)
  {
    hide IsNameKey, IsUrlKey, Promote, OwnStem, OwnAsset, Carries, Reached;
    var r' := Promote(t, p, r).value;
    forall n | IsNameKey(n) ensures (Named(t, r, n) && n != OwnName(p.kind) ==> Named(t, r', n)) {
      if n != OwnName(p.kind) {
        AssetKeysApart(p, n);
        OnlyTagsAndUrlsChange(t, p, r, n);
      }
    }
    forall n | IsNameKey(n) && Named(t, r', n)
      ensures Carries(t, p, r', n) <==> Reached(t, p, r, n)
      ensures n != OwnName(p.kind) ==> Named(t, r, n)
    {
      TagReached(t, p, r, n);
    }
    OwnReached(t, p, r);
    TagReached(t, p, r, OwnName(p.kind));
  }

  // ---- what the release then says

  function OwnFile(kind: Kind): (string, string, string) {
    match kind
    case Kms =>
      ("kms_outcome_authority_asset_name", "kms_outcome_authority_asset_url", "kms-authority-lifecycle-v1.json")
    case Sequential => ("sequential_blind_asset_name", "sequential_blind_asset_url", "sequential-blind-v1.json")
    case Story => ("evidence_story_asset_name", "evidence_story_asset_url", "evidence-story-v1.json")
  }

  predicate Holds(r: Dict, k: string, text: string) { k in r && r[k] == Str(text) }

  /** The release says which tag it is, where it is, and where the promotion's own asset is. */
  predicate Says(p: Promotion, r: Dict) {
    var (name, url, file) := OwnFile(p.kind);
    && Holds(r, "tag", p.tag)
    && Holds(r, "release_url", "https://github.com/" + p.repository + "/releases/tag/" + p.tag)
    && Holds(r, "release_api_url", "https://api.github.com/repos/" + p.repository + "/releases/tags/" + p.tag)
    && Holds(r, name, file)
    && Holds(r, url, "https://github.com/" + p.repository + "/releases/download/" + p.tag + "/" + file)
  }

  lemma OwnFileIs(kind: Kind)
    ensures OwnFile(kind) == (OwnName(kind), OwnUrl(kind), OwnAsset(kind))
  {
    match kind
    case Kms =>
      assert "kms_outcome_authority" + NAME_SUFFIX == "kms_outcome_authority_asset_name";
      assert "kms_outcome_authority" + URL_SUFFIX == "kms_outcome_authority_asset_url";
    case Sequential =>
      assert "sequential_blind" + NAME_SUFFIX == "sequential_blind_asset_name";
      assert "sequential_blind" + URL_SUFFIX == "sequential_blind_asset_url";
    case Story =>
      assert "evidence_story" + NAME_SUFFIX == "evidence_story_asset_name";
      assert "evidence_story" + URL_SUFFIX == "evidence_story_asset_url";
  }

  /** The three tag fields are no asset keys, so no loop touches them. */
  lemma TagsSet(t: Text, p: Promotion, r: Dict, k: string)
    requires Promote(t, p, r).Some? && IsTagField(k)
    ensures k in Promote(t, p, r).value && Promote(t, p, r).value[k] == Tagged(map[], p)[k]
  {
    hide IsUrlKey, IsNameKey, Link, OwnStem, OwnAsset, NameRead, Rewritten, NameKeyOf, Download;
    OwnKeys(p.kind);
    TagFieldsApart(k);
    AssetNameIsName();
    if p.kind.Sequential? {
      hide ByUrl;
      Untouched(t, Sequential, Tagged(r, p), Download(p), Tagged(r, p).Keys, k);
    }
  }

  lemma TaggedReads(p: Promotion)
    ensures var r := Tagged(map[], p);
      && Holds(r, "tag", p.tag)
      && Holds(r, "release_url", "https://github.com/" + p.repository + "/releases/tag/" + p.tag)
      && Holds(r, "release_api_url", "https://api.github.com/repos/" + p.repository + "/releases/tags/" + p.tag)
  {
  }

  /** After any promotion, of whatever release, whichever script it was. */
  lemma PromotedSays(t: Text, p: Promotion, r: Dict)
    requires PlainText(t) && Promote(t, p, r).Some?
    ensures Says(p, Promote(t, p, r).value)
  {
    hide Promote, OwnStem, OwnFile, OwnAsset, IsNameKey, UrlKeyOf, Tagged, OwnName, OwnUrl;
    OwnFileIs(p.kind);
    TaggedReads(p);
    OwnSet(t, p, r);
    TagsSet(t, p, r, "tag");
    TagsSet(t, p, r, "release_url");
    TagsSet(t, p, r, "release_api_url");
  }

  lemma OwnSet(t: Text, p: Promotion, r: Dict)
    requires PlainText(t) && Promote(t, p, r).Some?
    ensures var q := Promote(t, p, r).value;
      && Holds(q, OwnName(p.kind), OwnAsset(p.kind))
      && Holds(q, OwnUrl(p.kind), Download(p) + "/" + OwnAsset(p.kind))
  {
    hide IsNameKey, UrlKeyOf, OwnStem, OwnAsset, Download, Promote, OwnName, OwnUrl;
    OwnKeys(p.kind);
    OwnReached(t, p, r);
    OwnNamed(t, p, r);
  }

  lemma OwnNamed(t: Text, p: Promotion, r: Dict)
    requires Promote(t, p, r).Some?
    ensures Holds(Promote(t, p, r).value, OwnName(p.kind), OwnAsset(p.kind))
  {
    hide IsNameKey, IsUrlKey, UrlKeyOf, NameKeyOf, Occurrences, OwnStem, OwnAsset, Download, ByUrl, Link;
    OwnKeys(p.kind);
  }

  // ---- the scripts

  /** promote of the KMS script: afterwards every named asset carries the tag, whatever was there before. */
  method PromoteKms(t: Text, p: Promotion, release: Dict) returns (r: Dict)
    requires p.kind.Kms?
    ensures Some(r) == Promote(t, p, release)
    ensures AllTagged(t, p, r) && OthersKept(p, release, r)
  {
    hide Link, ByName, Promote, AllTagged, OthersKept, OwnStem;
    r := Tagged(release, p);
    r := r[OwnName(Kms) := Str(OwnAsset(Kms))];
    r := RetagByName(t, r, Download(p));
    KmsPromotes(t, p, release);
    PromotionFrame(t, p, release);
    AllReachedByKms(t, p, release);
  }

  lemma KmsPromotes(t: Text, p: Promotion, r: Dict)
    requires p.kind.Kms?
    ensures var named := Tagged(r, p)[OwnName(Kms) := Str(OwnAsset(Kms))];
      Promote(t, p, r) == Some(ByName(t, named, Download(p), named.Keys))
  {
    hide ByName, Tagged, OwnStem, OwnAsset;
  }

  lemma AllReachedByKms(t: Text, p: Promotion, r: Dict)
    requires p.kind.Kms?
    ensures Promote(t, p, r).Some? && AllTagged(t, p, Promote(t, p, r).value)
  {
    hide IsNameKey, Carries, ByName, Tagged, OwnStem, OwnAsset;
    var r' := Promote(t, p, r).value;
    forall n | IsNameKey(n) && Named(t, r', n) ensures Carries(t, p, r', n) {
      KmsReaches(t, p, r, n);
    }
  }

  /** promote of the sequential script: every named asset carries the tag exactly when the loop reaches it. */
  method PromoteSequential(t: Text, p: Promotion, release: Dict) returns (r: Dict)
    requires p.kind.Sequential? && PlainText(t)
    ensures Some(r) == Promote(t, p, release) && OthersKept(p, release, r)
    ensures AllTagged(t, p, r) <==> AllReached(t, p, release)
  {
    hide ByUrl, AllTagged, OthersKept, OwnStem, AllReached;
    r := Tagged(release, p);
    r := RetagSequential(t, r, Download(p));
    r := r[OwnName(Sequential) := Str(OwnAsset(Sequential))];
    r := r[OwnUrl(Sequential) := Str(Download(p) + "/" + OwnAsset(Sequential))];
    AllTaggedExactly(t, p, release);
    PromotionFrame(t, p, release);
  }

  /** promote_evidence_story: the same, and an error exactly when there is no asset_name. */
  method PromoteStory(t: Text, p: Promotion, release: Dict) returns (r: Option<Dict>)
    requires p.kind.Story? && PlainText(t)
    ensures r == Promote(t, p, release) && (r.Some? <==> "asset_name" in release)
    ensures r.Some? ==> OthersKept(p, release, r.value)
    ensures r.Some? ==> (AllTagged(t, p, r.value) <==> AllReached(t, p, release))
  {
    hide ByUrl, IsUrlKey, EndsWith, AllTagged, OthersKept, OwnStem, AllReached;
    var looped := RetagStory(t, release, Download(p));
    AssetNameIsName();
    Untouched(t, Story, release, Download(p), release.Keys, "asset_name");
    if "asset_name" !in looped {
      return None;
    }
    var assetUrl := Str(Download(p) + "/" + t.str(looped["asset_name"]));
    looped := Tagged(looped, p)["asset_url" := assetUrl];
    looped := looped[OwnName(Story) := Str(OwnAsset(Story))];
    looped := looped[OwnUrl(Story) := Str(Download(p) + "/" + OwnAsset(Story))];
    r := Some(looped);
    AllTaggedExactly(t, p, release);
    PromotionFrame(t, p, release);
  }
}
