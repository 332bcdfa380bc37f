/** cleanup of one blind-holdout prefix over a paged object store. */
module BlindCleanup {
  import opened CanonicalJson
  import opened Decimal
  import opened Json

  // ---- the guards

  const SANDBOX := "blind-holdout-sandbox/blind-"

  predicate IsNameChar(c: char) { IsDigit(c) || 'a' <= c <= 'z' }

  predicate IsBucket(s: string) {
    && 3 <= |s| <= 63 && IsNameChar(s[0]) && IsNameChar(s[|s| - 1])
    && forall i :: 0 < i < |s| - 1 ==> IsNameChar(s[i]) || s[i] == '.' || s[i] == '-'
  }

  predicate IsRunSuffix(s: string) {
    exists i :: 0 < i < |s| - 1 && s[i] == '-' && AllDigits(s[..i]) && AllDigits(s[i + 1..])
  }

  predicate IsRunPrefix(s: string) { SANDBOX <= s && IsRunSuffix(s[|SANDBOX|..]) }

  // ---- the store

  predicate Under(k: string, prefix: string) { prefix <= k }

  /** Keys a listing still has to return: those under the prefix, after the marker of the last page. */
  predicate Pending(k: string, prefix: string, after: Option<string>) {
    Under(k, prefix) && (after.Some? ==> !Leq(k, after.value))
  }

  function PendingKeys(keys: set<string>, prefix: string, after: Option<string>): set<string> {
    set k | k in keys && Pending(k, prefix, after)
  }

  datatype Page = Page(contents: seq<string>, truncated: bool, token: Option<string>)

  /** Every pending key is on the page or, if the page says it is cut, comes after it. */
  ghost predicate PageOf(page: Page, keys: set<string>, prefix: string, after: Option<string>) {
    && (forall k :: k in page.contents ==> k in PendingKeys(keys, prefix, after))
    && (forall i, j :: 0 <= i < j < |page.contents| ==> page.contents[i] != page.contents[j])
    && (!page.truncated ==> forall k :: k in PendingKeys(keys, prefix, after) ==> k in page.contents)
    && (page.truncated ==>
          && page.contents != []
          && var last := page.contents[|page.contents| - 1];
          && forall k :: k in PendingKeys(keys, prefix, after) ==> (k in page.contents <==> Leq(k, last)))
  }

  /** A bucket. Deleting a stuck key reports success and does nothing; an honest store never leaves the
      continuation token out of a cut page. */
  class Store {
    var keys: set<string>
    const stuck: set<string>
    const honest: bool

    constructor (keys: set<string>, stuck: set<string>, honest: bool)
      ensures this.keys == keys && this.stuck == stuck && this.honest == honest
    {
      this.keys, this.stuck, this.honest := keys, stuck, honest;
    }

    /** list_objects_v2: at least one key and at most maxKeys, as many as the store likes. */
    method List(prefix: string, after: Option<string>, maxKeys: nat) returns (page: Page)
      requires maxKeys >= 1
      ensures PageOf(page, keys, prefix, after) && |page.contents| <= maxKeys
      ensures page.truncated && page.token.Some? ==>
                page.contents != [] && page.token.value == page.contents[|page.contents| - 1]
      ensures page.truncated && honest ==> page.token.Some?
    {
      var sorted := SortedKeys(PendingKeys(keys, prefix, after));
      var size: nat :| 1 <= size <= maxKeys;
      if |sorted| <= size {
        page := Page(sorted, false, None);
      } else {
        var named := *;
        var token := if honest || named then Some(sorted[size - 1]) else None;
        page := Page(sorted[..size], true, token);
        CutPage(sorted, size);
      }
    }

    /** delete_objects with Quiet. */
    method Delete(objects: seq<string>)
      modifies this
      ensures keys == old(keys) - set k | k in objects && k !in stuck
    {
      keys := keys - set k | k in objects && k !in stuck;
    }
  }

  lemma CutPage(sorted: seq<string>, size: nat)
    requires Increasing(sorted) && 1 <= size < |sorted|
    ensures forall k :: k in sorted ==> (k in sorted[..size] <==> Leq(k, sorted[size - 1]))
  {
    forall k | k in sorted ensures k in sorted[..size] <==> Leq(k, sorted[size - 1]) {
      var i :| 0 <= i < |sorted| && sorted[i] == k;
      if i < size {
        assert sorted[..size][i] == k;
        LeqTotal(k, k);
      } else {
        if Leq(k, sorted[size - 1]) { LeqAntisymmetric(k, sorted[size - 1]); }
        assert forall j :: 0 <= j < size ==> sorted[j] != sorted[i];
      }
    }
  }

  // ---- cleanup

  datatype Receipt = Receipt(deletedCount: nat, prefixSha256: string, residualCount: nat)

  /** One page further on: what was on the page is no longer pending, everything else still is. */
  lemma NextPage(page: Page, keys: set<string>, prefix: string, after: Option<string>, removed: set<string>)
    requires PageOf(page, keys, prefix, after) && page.truncated
    requires forall k :: k in removed ==> k in page.contents
    ensures PendingKeys(keys - removed, prefix, Some(page.contents[|page.contents| - 1]))
         == PendingKeys(keys, prefix, after) - set k | k in page.contents
  {
    var last := page.contents[|page.contents| - 1];
    assert last in page.contents;
    forall k | k in keys && Under(k, prefix) && !Leq(k, last) ensures Pending(k, prefix, after) {
      if after.Some? && Leq(k, after.value) {
        LeqTotal(last, after.value);
        LeqTransitive(k, after.value, last);
      }
    }
  }

  lemma {:induction false} PageCount(contents: seq<string>)
    requires forall i, j :: 0 <= i < j < |contents| ==> contents[i] != contents[j]
    ensures |set k | k in contents| == |contents|
  {
    if contents != [] {
      PageCount(contents[1..]);
      assert contents == [contents[0]] + contents[1..] && contents[0] !in contents[1..];
      assert (set k | k in contents) == {contents[0]} + set k | k in contents[1..];
    }
  }

  function RunKeys(keys: set<string>, prefix: string): set<string> {
    set k | k in keys && Under(k, prefix + "/")
  }

  /** The paging loop of cleanup; false when a cut page comes without its token. */
  method DeletePages(store: Store, prefix: string) returns (deletedCount: nat, complete: bool)
    modifies store
    ensures var run := RunKeys(old(store.keys), prefix);
      && old(store.keys) - run <= store.keys <= old(store.keys)
      && (complete ==> store.keys == old(store.keys) - (run - store.stuck) && deletedCount == |run|)
    ensures store.honest ==> complete
  {
    hide PageOf, PendingKeys, RunKeys, Under;
    var slashed := prefix + "/";
    deletedCount := 0;
    var after: Option<string> := None;
    ghost var start, run := store.keys, RunKeys(store.keys, prefix);
    ghost var seen: set<string> := {};
    OfTheRun(start, prefix);
    while true
      invariant store.keys == start - (seen - store.stuck)
      invariant seen <= run && deletedCount == |seen|
      invariant PendingKeys(store.keys, slashed, after) == run - seen
      decreases run - seen
    {
      var page := store.List(slashed, after, 1000);
      ghost var listed := PageFacts(page, store.keys, slashed, after);
      if page.truncated { NextPage(page, store.keys, slashed, after, listed - store.stuck); }
      if page.contents != [] {
        store.Delete(page.contents);
        deletedCount := deletedCount + |page.contents|;
      }
      Removed(start, run, seen, listed, store.stuck);
      seen := seen + listed;
      if !page.truncated {
        break;
      }
      after := page.token;
      if after.None? {
        return deletedCount, false;
      }
    }
    complete := true;
  }

  /** cleanup: exactly the keys of the run go, stuck ones excepted; a receipt is given only for a run
      that is gone, with the exact number of keys removed; nothing else is touched. */
  method Cleanup(store: Store, bucket: string, prefix: string, sha: string -> string)
    returns (receipt: Option<Receipt>)
    modifies store
    ensures !IsBucket(bucket) || !IsRunPrefix(prefix) ==> receipt.None? && store.keys == old(store.keys)
    ensures old(store.keys) - RunKeys(old(store.keys), prefix) <= store.keys <= old(store.keys)
    ensures receipt.Some? ==>
              && store.keys == old(store.keys) - RunKeys(old(store.keys), prefix)
              && receipt.value == Receipt(|RunKeys(old(store.keys), prefix)|, sha(prefix), 0)
    ensures store.honest && IsBucket(bucket) && IsRunPrefix(prefix) ==>
              && store.keys == old(store.keys) - (RunKeys(old(store.keys), prefix) - store.stuck)
              && (receipt.Some? <==> RunKeys(old(store.keys), prefix) * store.stuck == {})
  {
    hide IsBucket, IsRunPrefix, PageOf, PendingKeys, RunKeys, Under;
    OfTheRun(store.keys, prefix);
    if !IsBucket(bucket) || !IsRunPrefix(prefix) {
      return None;
    }
    ghost var start, run := store.keys, RunKeys(store.keys, prefix);
    var deletedCount, complete := DeletePages(store, prefix);
    if !complete {
      return None;
    }
    Residual(start, prefix, store.stuck);
    var residual := store.List(prefix + "/", None, 1);
    ghost var left := PageFacts(residual, store.keys, prefix + "/", None);
    if residual.contents != [] {
      assert residual.contents[0] in run * store.stuck;
      return None;
    }
    AllGone(start, run, store.stuck);
    receipt := Some(Receipt(deletedCount, sha(prefix), 0));
  }

  lemma Removed(start: set<string>, run: set<string>, seen: set<string>, listed: set<string>, stuck: set<string>)
    requires seen <= run && listed <= run - seen
    ensures start - (seen - stuck) - (listed - stuck) == start - (seen + listed - stuck)
    ensures run - (seen + listed) == run - seen - listed && |seen + listed| == |seen| + |listed|
  {
  }

  lemma AllGone(start: set<string>, run: set<string>, stuck: set<string>)
    requires run * stuck == {}
    ensures start - (run - stuck) == start - run
  {
    assert forall k :: k in run && k in stuck ==> k in run * stuck;
  }

  lemma OfTheRun(keys: set<string>, prefix: string)
    ensures RunKeys(keys, prefix) <= keys
    ensures forall k :: k in RunKeys(keys, prefix) ==> Under(k, prefix + "/")
    ensures PendingKeys(keys, prefix + "/", None) == RunKeys(keys, prefix)
  {
    hide Under;
  }

  lemma Residual(keys: set<string>, prefix: string, stuck: set<string>)
    ensures var run := RunKeys(keys, prefix);
      PendingKeys(keys - (run - stuck), prefix + "/", None) == run * stuck
  {
    hide Under;
  }

  lemma PageFacts(page: Page, keys: set<string>, prefix: string, after: Option<string>) returns (listed: set<string>)
    requires PageOf(page, keys, prefix, after)
    ensures listed == (set k | k in page.contents) && |listed| == |page.contents|
    ensures listed <= PendingKeys(keys, prefix, after)
    ensures !page.truncated ==> listed == PendingKeys(keys, prefix, after)
    ensures page.contents == [] <==> listed == {}
    ensures page.truncated ==> page.contents != []
  {
    hide PendingKeys, Leq;
    listed := set k | k in page.contents;
    PageCount(page.contents);
  }

  /** A run's keys are never a sibling's, even when its name is the beginning of the sibling's. */
  lemma SiblingsApart(p: string, q: string, k: string)
    requires IsRunPrefix(p) && IsRunPrefix(q) && p != q
    requires Under(k, p + "/")
    ensures !Under(k, q + "/")
  {
    if |p| < |q| {
      OnlySandboxSlash(q, |p|);
      assert (p + "/")[|p|] == '/' && (q + "/")[|p|] == q[|p|];
    } else if |q| < |p| {
      OnlySandboxSlash(p, |q|);
      assert (q + "/")[|q|] == '/' && (p + "/")[|q|] == p[|q|];
    } else {
      var i :| 0 <= i < |p| && p[i] != q[i];
      assert (p + "/")[i] == p[i] && (q + "/")[i] == q[i];
    }
  }

  lemma OnlySandboxSlash(p: string, i: nat)
    requires IsRunPrefix(p) && |SANDBOX| <= i < |p|
    ensures p[i] != '/'
  {
    var s := p[|SANDBOX|..];
    var d :| 0 < d < |s| - 1 && s[d] == '-' && AllDigits(s[..d]) && AllDigits(s[d + 1..]);
    var j := i - |SANDBOX|;
    assert s[j] == p[i];
    if j < d {
      assert IsDigit(s[..d][j]);
    } else if j > d {
      assert IsDigit(s[d + 1..][j - d - 1]);
    }
  }
}
