/** The keys a release object uses for an asset: its name, and the URL beside it. */
module AssetKeys {

  const NAME_SUFFIX := "_asset_name"
  const URL_SUFFIX := "_asset_url"

  predicate EndsWith(s: string, suffix: string) { |s| >= |suffix| && s[|s| - |suffix|..] == suffix }

  predicate IsNameKey(k: string) { k == "asset_name" || EndsWith(k, NAME_SUFFIX) }

  predicate IsUrlKey(k: string) { k == "asset_url" || EndsWith(k, URL_SUFFIX) }

  /** The URL key beside a name key: removesuffix("_name") + "_url". */
  function UrlKeyOf(n: string): string
    requires IsNameKey(n)
  {
    if n == "asset_name" then "asset_url" else n[..|n| - 5] + "_url"
  }

  /** The name key beside a URL key: removesuffix("_url") + "_name". */
  function NameKeyOf(k: string): string
    requires IsUrlKey(k)
  {
    if k == "asset_url" then "asset_name" else k[..|k| - 4] + "_name"
  }

  lemma NameToUrl(n: string)
    requires IsNameKey(n)
    ensures IsUrlKey(UrlKeyOf(n)) && NameKeyOf(UrlKeyOf(n)) == n && !IsUrlKey(n)
  {
    assert n[|n| - 1] == 'e';
    if n != "asset_name" {
      var stem := n[..|n| - 11];
      assert n == stem + NAME_SUFFIX;
      var k := UrlKeyOf(n);
      assert k == stem + URL_SUFFIX;
      assert NameKeyOf(k) == stem + NAME_SUFFIX;
    }
  }

  lemma UrlToName(k: string)
    requires IsUrlKey(k)
    ensures IsNameKey(NameKeyOf(k)) && UrlKeyOf(NameKeyOf(k)) == k
  {
    if k != "asset_url" {
      var stem := k[..|k| - 10];
      assert k == stem + URL_SUFFIX;
      var n := NameKeyOf(k);
      assert n == stem + NAME_SUFFIX;
      assert UrlKeyOf(n) == stem + URL_SUFFIX;
    }
  }

  // ---- str.replace of every occurrence

  predicate StartsUrl(k: string) { |k| >= 10 && k[..10] == URL_SUFFIX }

  /** k.replace("_asset_url", "_asset_name"). */
  function ReplaceAll(k: string): string
    decreases |k|
  {
    if k == [] then []
    else if StartsUrl(k) then NAME_SUFFIX + ReplaceAll(k[10..])
    else [k[0]] + ReplaceAll(k[1..])
  }

  function Occurrences(k: string): nat
    decreases |k|
  {
    if k == [] then 0
    else if StartsUrl(k) then 1 + Occurrences(k[10..])
    else Occurrences(k[1..])
  }

  lemma {:induction false} ReplaceGrows(k: string)
    ensures |ReplaceAll(k)| == |k| + Occurrences(k)
    decreases |k|
  {
    if k == [] {
    } else if StartsUrl(k) {
      ReplaceGrows(k[10..]);
    } else {
      ReplaceGrows(k[1..]);
    }
  }

  /** The pattern never overlaps itself. */
  lemma NoOverlap(k: string)
    requires EndsWith(k, URL_SUFFIX) && StartsUrl(k)
    ensures |k| == 10 || |k| >= 20
  {
    var head, tail := k[..10], k[|k| - 10..];
    assert tail[0] == '_' && tail[1] == 'a' && k[|k| - 10] == tail[0] && k[|k| - 9] == tail[1];
    assert head == ['_', 'a', 's', 's', 'e', 't', '_', 'u', 'r', 'l'];
    assert forall i :: 0 <= i < 10 ==> head[i] == k[i];
  }

  lemma OnlyPattern(k: string)
    requires EndsWith(k, URL_SUFFIX) && |k| == 10
    ensures k == URL_SUFFIX && StartsUrl(k)
  {
    assert k[0..] == k && k[..10] == k;
  }

  /** The name key the sequential loop computes ends as a name key does, so no URL key is ever read. */
  lemma {:induction false} ReplaceEnds(k: string)
    requires EndsWith(k, URL_SUFFIX)
    ensures Occurrences(k) >= 1 && EndsWith(ReplaceAll(k), NAME_SUFFIX)
    decreases |k|
  {
    if StartsUrl(k) {
      NoOverlap(k);
      if |k| >= 20 {
        ReplaceEnds(k[10..]);
        TailEnds(NAME_SUFFIX, ReplaceAll(k[10..]));
      } else {
        assert k[10..] == [];
      }
    } else {
      if |k| == 10 { OnlyPattern(k); }
      ReplaceEnds(k[1..]);
      TailEnds([k[0]], ReplaceAll(k[1..]));
    }
  }

  lemma TailEnds(head: string, tail: string)
    requires EndsWith(tail, NAME_SUFFIX)
    ensures EndsWith(head + tail, NAME_SUFFIX)
  {
    assert (head + tail)[|head + tail| - 11..] == tail[|tail| - 11..];
  }

  /** Replacing everywhere gives the name key exactly when the pattern occurs once, at the end. */
  lemma ReplaceIsNameKey(k: string)
    requires EndsWith(k, URL_SUFFIX)
    ensures ReplaceAll(k) == NameKeyOf(k) <==> Occurrences(k) == 1
  {
    ReplaceGrows(k);
    if Occurrences(k) == 1 { SingleReplace(k); }
  }

  lemma {:induction false} SingleReplace(k: string)
    requires EndsWith(k, URL_SUFFIX) && Occurrences(k) == 1
    ensures ReplaceAll(k) == k[..|k| - 4] + "_name"
    decreases |k|
  {
    hide ReplaceAll, StartsUrl, EndsWith;
    EndsLong(k);
    if |k| == 10 {
      OnlyPattern(k);
      PatternReplaced();
    } else if StartsUrl(k) {
      SecondPattern(k);
    } else {
      TailEndsUrl(k);
      SingleReplace(k[1..]);
      ReplaceRest(k);
      assert k[..|k| - 4] == [k[0]] + k[1..][..|k[1..]| - 4];
    }
  }

  lemma EndsLong(k: string)
    requires EndsWith(k, URL_SUFFIX)
    ensures |k| >= 10
  {
  }

  lemma SecondPattern(k: string)
    requires EndsWith(k, URL_SUFFIX) && StartsUrl(k) && |k| > 10
    ensures Occurrences(k) >= 2
  {
    hide ReplaceAll;
    NoOverlap(k);
    assert k[10..][|k| - 20..] == k[|k| - 10..];
    ReplaceEnds(k[10..]);
  }

  lemma ReplaceRest(k: string)
    requires k != [] && !StartsUrl(k)
    ensures ReplaceAll(k) == [k[0]] + ReplaceAll(k[1..])
  {
  }

  lemma TailEndsUrl(k: string)
    requires EndsWith(k, URL_SUFFIX) && |k| > 10
    ensures EndsWith(k[1..], URL_SUFFIX)
  {
  }

  lemma PatternReplaced()
    ensures ReplaceAll(URL_SUFFIX) == URL_SUFFIX[..6] + "_name"
  {
    assert StartsUrl(URL_SUFFIX) && URL_SUFFIX[10..] == [];
  }

  // ---- keys built from a stem

  predicate NoAs(stem: string) { forall i :: 0 <= i < |stem| - 1 && stem[i] == 'a' ==> stem[i + 1] != 's' }

  lemma {:induction false} OnceAfter(stem: string)
    requires NoAs(stem)
    ensures Occurrences(stem + URL_SUFFIX) == 1
  {
    var k := stem + URL_SUFFIX;
    if stem == [] {
      assert k == URL_SUFFIX;
      assert StartsUrl(URL_SUFFIX) && URL_SUFFIX[10..] == [];
    } else {
      assert k[1..] == stem[1..] + URL_SUFFIX;
      assert NoAs(stem[1..]) by {
        assert forall i :: 0 <= i < |stem[1..]| ==> stem[1..][i] == stem[i + 1];
      }
      OnceAfter(stem[1..]);
      NotInStem(stem);
    }
  }

  lemma NotInStem(stem: string)
    requires NoAs(stem) && stem != []
    ensures !StartsUrl(stem + URL_SUFFIX)
  {
    var k := stem + URL_SUFFIX;
    assert |stem| == 1 ==> k[1] == '_';
    assert |stem| == 2 ==> k[2] == '_';
    assert |stem| >= 3 ==> k[1] == stem[1] && k[2] == stem[2];
    hide StartsUrl;
    StartsAs(k);
  }

  lemma StartsAs(k: string)
    ensures StartsUrl(k) ==> |k| >= 3 && k[1] == 'a' && k[2] == 's'
  {
    if StartsUrl(k) {
      assert k[1] == k[..10][1] && k[2] == k[..10][2];
    }
  }

  lemma StemKeys(stem: string)
    requires stem != []
    ensures var n, k := stem + NAME_SUFFIX, stem + URL_SUFFIX;
      IsNameKey(n) && IsUrlKey(k) && UrlKeyOf(n) == k && n != "asset_name" && k != "asset_url"
  {
    var n, k := stem + NAME_SUFFIX, stem + URL_SUFFIX;
    assert n[|n| - 11..] == NAME_SUFFIX && k[|k| - 10..] == URL_SUFFIX;
    assert n[..|n| - 5] + "_url" == k;
  }
}
