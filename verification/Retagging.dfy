/** The release object of a judge contract as three promotion scripts move it to a new tag. */
module Retagging {
  import opened AssetKeys
  import opened Json
  import opened PythonValues

  /** bool() and str() of a JSON value. */
  datatype Text = Text(truthy: Json -> bool, str: Json -> string)

  ghost predicate PlainText(t: Text) { forall s :: t.str(Str(s)) == s && (t.truthy(Str(s)) <==> s != "") }

  predicate Named(t: Text, r: Dict, n: string) { n in r && t.truthy(r[n]) }

  function Link(t: Text, download: string, name: Json): Json { Str(download + "/" + t.str(name)) }

  // ---- the name-driven loop

  predicate Hit(t: Text, r: Dict, done: set<string>, k: string) {
    IsUrlKey(k) && NameKeyOf(k) in done && Named(t, r, NameKeyOf(k))
  }

  function NewUrls(t: Text, r: Dict, done: set<string>): (s: set<string>)
    ensures forall k :: k in s <==> Hit(t, r, done, k)
  {
    hide IsNameKey, IsUrlKey, UrlKeyOf, NameKeyOf;
    var s := set n | n in r && n in done && IsNameKey(n) && t.truthy(r[n]) :: UrlKeyOf(n);
    assert forall k :: k in s ==> Hit(t, r, done, k) by {
      forall n | n in r && n in done && IsNameKey(n) && t.truthy(r[n]) ensures Hit(t, r, done, UrlKeyOf(n)) {
        NameToUrl(n);
      }
    }
    assert forall k :: Hit(t, r, done, k) ==> k in s by {
      forall k | Hit(t, r, done, k) ensures k in s { UrlToName(k); }
    }
    s
  }

  /** Every entry done: the URL beside a name follows the name, whether or not it was there before. */
  function ByName(t: Text, r: Dict, download: string, done: set<string>): Dict {
    map k | k in r.Keys + NewUrls(t, r, done) ::
      if Hit(t, r, done, k) then Link(t, download, Get(r, NameKeyOf(k))) else Get(r, k)
  }

  lemma ByNameStep(t: Text, r: Dict, download: string, done: set<string>, n: string)
    requires n in r && n !in done
    ensures ByName(t, r, download, done + {n})
         == if IsNameKey(n) && t.truthy(r[n])
            then ByName(t, r, download, done)[UrlKeyOf(n) := Link(t, download, r[n])]
            else ByName(t, r, download, done)
  {
    hide IsNameKey, IsUrlKey, UrlKeyOf, NameKeyOf, Link;
    if IsNameKey(n) { NameToUrl(n); }
    forall k ensures Hit(t, r, done + {n}, k) <==>
                       Hit(t, r, done, k) || (IsNameKey(n) && t.truthy(r[n]) && k == UrlKeyOf(n))
    {
      if IsUrlKey(k) { UrlToName(k); }
    }
  }

  /** The loop of promote in promote_kms_authority_evidence, over a snapshot of the entries. */
  method RetagByName(t: Text, release: Dict, download: string) returns (r: Dict)
    ensures r == ByName(t, release, download, release.Keys)
  {
    hide IsUrlKey, NameKeyOf;
    r := release;
    var left := release.Keys;
    assert ByName(t, release, download, {}) == release;
    while left != {}
      invariant left <= release.Keys
      invariant r == ByName(t, release, download, release.Keys - left)
      decreases left
    {
      hide ByName, EndsWith;
      var nameField :| nameField in left;
      ByNameStep(t, release, download, release.Keys - left, nameField);
      assert release.Keys - (left - {nameField}) == release.Keys - left + {nameField};
      left := left - {nameField};
      var assetName := release[nameField];
      if nameField == "asset_name" {
        if t.truthy(assetName) { r := r["asset_url" := Link(t, download, assetName)]; }
      } else if EndsWith(nameField, NAME_SUFFIX) {
        NameLength(nameField);
        if t.truthy(assetName) { r := r[nameField[..|nameField| - 5] + "_url" := Link(t, download, assetName)]; }
      }
    }
    assert release.Keys - {} == release.Keys;
  }

  lemma NameLength(n: string)
    requires EndsWith(n, NAME_SUFFIX)
    ensures |n| >= 11
  {
  }

  // ---- the URL-driven loops

  datatype Kind = Kms | Sequential | Story

  /** The name key a URL-driven loop reads for an entry, when it looks at the entry at all. */
  function NameRead(kind: Kind, k: string, v: Json): Option<string> {
    if kind.Sequential? then
      if k == "asset_url" then Some("asset_name")
      else if EndsWith(k, URL_SUFFIX) then Some(ReplaceAll(k)) else None
    else if EndsWith(k, URL_SUFFIX) && v.Str? then Some(k[..|k| - 4] + "_name") else None
  }

  predicate Rewritten(t: Text, kind: Kind, r: Dict, k: string) {
    k in r && NameRead(kind, k, r[k]).Some? && Named(t, r, NameRead(kind, k, r[k]).value)
  }

  function ByUrl(t: Text, kind: Kind, r: Dict, download: string, done: set<string>): Dict {
    map k | k in r ::
      if k in done && Rewritten(t, kind, r, k) then Link(t, download, r[NameRead(kind, k, r[k]).value]) else r[k]
  }

  lemma ByUrlStep(t: Text, kind: Kind, r: Dict, download: string, done: set<string>, k: string)
    requires k in r && k !in done
    ensures ByUrl(t, kind, r, download, done + {k})
         == if Rewritten(t, kind, r, k)
            then ByUrl(t, kind, r, download, done)[k := Link(t, download, r[NameRead(kind, k, r[k]).value])]
            else ByUrl(t, kind, r, download, done)
  {
    hide NameRead, Link;
  }

  /** The name key read is never itself rewritten. */
  lemma ReadIsName(kind: Kind, k: string, v: Json)
    requires NameRead(kind, k, v).Some?
    ensures IsUrlKey(k) && IsNameKey(NameRead(kind, k, v).value) && !IsUrlKey(NameRead(kind, k, v).value)
  {
    hide ReplaceAll, IsUrlKey, IsNameKey, NameKeyOf;
    UrlKeyCases(k);
    if EndsWith(k, URL_SUFFIX) && kind.Sequential? && k != "asset_url" {
      ReplaceEnds(k);
      NameKeyCases(ReplaceAll(k));
      NameToUrl(ReplaceAll(k));
    } else {
      UrlToName(k);
      NameToUrl(NameKeyOf(k));
    }
  }

  lemma UrlKeyCases(k: string)
    ensures IsUrlKey(k) <==> k == "asset_url" || EndsWith(k, URL_SUFFIX)
    ensures k == "asset_url" ==> !EndsWith(k, URL_SUFFIX) && NameKeyOf(k) == "asset_name"
    ensures k != "asset_url" && EndsWith(k, URL_SUFFIX) ==> NameKeyOf(k) == k[..|k| - 4] + "_name"
  {
  }

  lemma NameKeyCases(n: string)
    ensures EndsWith(n, NAME_SUFFIX) ==> IsNameKey(n)
  {
  }

  /** The loop of promote in promote_sequential_blind_evidence. */
  method RetagSequential(t: Text, release: Dict, download: string) returns (r: Dict)
    ensures r == ByUrl(t, Sequential, release, download, release.Keys)
  {
    hide EndsWith, ReplaceAll, IsUrlKey, IsNameKey, Link;
    r := release;
    var left := release.Keys;
    while left != {}
      invariant left <= release.Keys
      invariant r == ByUrl(t, Sequential, release, download, release.Keys - left)
      decreases left
    {
      hide ByUrl;
      var key :| key in left;
      ByUrlStep(t, Sequential, release, download, release.Keys - left, key);
      assert release.Keys - (left - {key}) == release.Keys - left + {key};
      if EndsWith(key, URL_SUFFIX) || key == "asset_url" {
        var nameKey := if key == "asset_url" then "asset_name" else ReplaceAll(key);
        assert NameRead(Sequential, key, release[key]) == Some(nameKey);
        ReadIsName(Sequential, key, release[key]);
        Untouched(t, Sequential, release, download, release.Keys - left, nameKey);
        if nameKey in r && t.truthy(r[nameKey]) {
          r := r[key := Link(t, download, r[nameKey])];
        }
      }
      left := left - {key};
    }
    assert release.Keys - {} == release.Keys;
  }

  /** The loop of promote_evidence_story in promote_evidence_story_v7. */
  method RetagStory(t: Text, release: Dict, download: string) returns (r: Dict)
    ensures r == ByUrl(t, Story, release, download, release.Keys)
  {
    hide EndsWith, ReplaceAll, IsUrlKey, IsNameKey, Link;
    r := release;
    var left := release.Keys;
    while left != {}
      invariant left <= release.Keys
      invariant r == ByUrl(t, Story, release, download, release.Keys - left)
      decreases left
    {
      hide ByUrl;
      var key :| key in left;
      ByUrlStep(t, Story, release, download, release.Keys - left, key);
      assert release.Keys - (left - {key}) == release.Keys - left + {key};
      if EndsWith(key, URL_SUFFIX) && release[key].Str? {
        UrlLength(key);
        var nameKey := key[..|key| - 4] + "_name";
        assert NameRead(Story, key, release[key]) == Some(nameKey);
        ReadIsName(Story, key, release[key]);
        Untouched(t, Story, release, download, release.Keys - left, nameKey);
        if nameKey in r && t.truthy(r[nameKey]) {
          r := r[key := Link(t, download, r[nameKey])];
        }
      }
      left := left - {key};
    }
    assert release.Keys - {} == release.Keys;
  }

  lemma UrlLength(k: string)
    requires EndsWith(k, URL_SUFFIX)
    ensures |k| >= 10
  {
  }

  lemma Untouched(t: Text, kind: Kind, r: Dict, download: string, done: set<string>, k: string)
    requires !IsUrlKey(k)
    ensures var u := ByUrl(t, kind, r, download, done); (k in u <==> k in r) && (k in r ==> u[k] == r[k])
  {
    hide IsUrlKey, NameRead;
    if k in r && NameRead(kind, k, r[k]).Some? { ReadIsName(kind, k, r[k]); }
  }
}
