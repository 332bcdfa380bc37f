/** _workspace_digest and the read-only check of a diagnostic probe. */
module WorkspaceFraming {

  newtype byte = x: int | 0 <= x < 256

  type Path = p: seq<byte> | 0 !in p  // a file system admits no NUL in a path

  type Workspace = map<Path, seq<byte>>

  /** The order is a parameter: any listing of the files without repetition, such as sorted(). */
  ghost predicate Listing(w: Workspace, order: seq<Path>) {
    && (forall p :: p in order <==> p in w)
    && (forall i, j :: 0 <= i < j < |order| ==> order[i] != order[j])
  }

  predicate Holds(w: Workspace, order: seq<Path>) { forall p :: p in order ==> p in w }

  /** A path and a content, each closed by a NUL. */
  function Frame(p: Path, content: seq<byte>): seq<byte> { p + [0] + content + [0] }

  /** The bytes fed to the digest, file after file. */
  function Stream(w: Workspace, order: seq<Path>): seq<byte>
    requires Holds(w, order)
  {
    if order == [] then [] else Frame(order[0], w[order[0]]) + Stream(w, order[1..])
  }

  predicate NulFree(w: Workspace, order: seq<Path>)
    requires Holds(w, order)
  {
    forall p :: p in order ==> 0 !in w[p]
  }

  lemma {:induction false} StreamAppend(w: Workspace, order: seq<Path>, p: Path)
    requires Holds(w, order) && p in w
    ensures Stream(w, order + [p]) == Stream(w, order) + Frame(p, w[p])
  {
    hide Frame;
    if order == [] {
      assert order + [p] == [p] && [p][1..] == [];
    } else {
      assert (order + [p])[1..] == order[1..] + [p];
      StreamAppend(w, order[1..], p);
    }
  }

  /** _workspace_digest: the running digest has been fed the concatenation of its updates. */
  method WorkspaceDigest<D>(sha: seq<byte> -> D, w: Workspace, order: seq<Path>) returns (digest: D)
    requires Listing(w, order)
    ensures digest == sha(Stream(w, order))
  {
    var fed: seq<byte> := [];
    for n := 0 to |order|
      invariant Holds(w, order[..n]) && fed == Stream(w, order[..n])
    {
      StreamAppend(w, order[..n], order[n]);
      assert order[..n + 1] == order[..n] + [order[n]];
      fed := fed + order[n];
      fed := fed + [0];
      fed := fed + w[order[n]];
      fed := fed + [0];
      assert fed == Stream(w, order[..n]) + Frame(order[n], w[order[n]]);
    }
    assert order[..|order|] == order;
    digest := sha(fed);
  }

  // ---- what the stream tells

  lemma CutAtNul(a: seq<byte>, b: seq<byte>, x: seq<byte>, y: seq<byte>)
    requires 0 !in a && 0 !in b && a + [0] + x == b + [0] + y
    ensures a == b && x == y
  {
    var s, t := a + [0] + x, b + [0] + y;
    assert s[|a|] == 0 && t[|b|] == 0;
    assert forall i :: 0 <= i < |a| ==> s[i] == a[i] && a[i] in a;
    assert forall i :: 0 <= i < |b| ==> t[i] == b[i] && b[i] in b;
    assert |a| == |b|;
    assert a == s[..|a|] && b == t[..|b|];
    assert x == s[|a| + 1..] && y == t[|b| + 1..];
  }

  lemma {:induction false} StreamPinsFiles(w: Workspace, order: seq<Path>, w': Workspace, order': seq<Path>)
    requires Holds(w, order) && Holds(w', order') && NulFree(w, order) && NulFree(w', order')
    requires Stream(w, order) == Stream(w', order')
    ensures order == order' && forall p :: p in order ==> w[p] == w'[p]
    decreases |order|
  {
    if order != [] && order' != [] {
      var p, q := order[0], order'[0];
      var s, t := Stream(w, order[1..]), Stream(w', order'[1..]);
      assert Stream(w, order) == p + [0] + (w[p] + [0] + s) && Stream(w', order') == q + [0] + (w'[q] + [0] + t);
      CutAtNul(p, q, w[p] + [0] + s, w'[q] + [0] + t);
      CutAtNul(w[p], w'[q], s, t);
      StreamPinsFiles(w, order[1..], w', order'[1..]);
      assert order == [p] + order[1..] && order' == [q] + order'[1..];
    }
  }

  /** Starting from files without NUL bytes, an equal stream means equal paths and contents exactly
      when the other files hold no NUL byte either. */
  lemma FramingInjective(w: Workspace, order: seq<Path>, w': Workspace, order': seq<Path>)
    requires Listing(w, order) && Listing(w', order') && NulFree(w, order)
    requires Stream(w, order) == Stream(w', order')
    ensures w == w' <==> NulFree(w', order')
  {
    if NulFree(w', order') { StreamPinsFiles(w, order, w', order'); }
  }

  // ---- counting files

  function Nuls(s: seq<byte>): nat { if s == [] then 0 else (if s[0] == 0 then 1 else 0) + Nuls(s[1..]) }

  lemma {:induction false} NulsConcat(a: seq<byte>, b: seq<byte>)
    ensures Nuls(a + b) == Nuls(a) + Nuls(b)
  {
    if a == [] {
      assert a + b == b;
    } else {
      assert (a + b)[1..] == a[1..] + b;
      NulsConcat(a[1..], b);
    }
  }

  lemma {:induction false} NoNuls(s: seq<byte>)
    ensures Nuls(s) == 0 <==> 0 !in s
  {
    if s != [] {
      NoNuls(s[1..]);
      assert s == [s[0]] + s[1..];
    }
  }

  /** Two NULs a file, and one more for each in a content. */
  lemma {:induction false} StreamNuls(w: Workspace, order: seq<Path>)
    requires Holds(w, order)
    ensures Nuls(Stream(w, order)) >= 2 * |order|
    ensures Nuls(Stream(w, order)) == 2 * |order| <==> NulFree(w, order)
  {
    hide Nuls;
    if order == [] {
      NoNuls([]);
    } else {
      var p, s := order[0], Stream(w, order[1..]);
      StreamNuls(w, order[1..]);
      NoNuls(p);
      NoNuls(w[p]);
      OneNul();
      NulsConcat(Frame(p, w[p]), s);
      NulsConcat(p + [0] + w[p], [0]);
      NulsConcat(p + [0], w[p]);
      NulsConcat(p, [0]);
      assert order == [p] + order[1..];
    }
  }

  lemma OneNul()
    ensures Nuls([0]) == 1
  {
    assert [0 as byte][1..] == [];
  }

  /** So a change the stream does not show always leaves fewer files: NUL bytes in a content have
      swallowed whole files. */
  lemma HiddenChangeLosesFiles(w: Workspace, order: seq<Path>, w': Workspace, order': seq<Path>)
    requires Listing(w, order) && Listing(w', order') && NulFree(w, order)
    requires Stream(w, order) == Stream(w', order')
    ensures |order'| <= |order|
    ensures w == w' <==> |order'| == |order|
  {
    StreamNuls(w, order);
    StreamNuls(w', order');
    FramingInjective(w, order, w', order');
    if w == w' { SameLength(w, order, order'); }
  }

  lemma SameLength(w: Workspace, a: seq<Path>, b: seq<Path>)
    requires Listing(w, a) && Listing(w, b)
    ensures |a| == |b| == |w|
  {
    DistinctCount(a);
    DistinctCount(b);
    assert (set p | p in a) == w.Keys && (set p | p in b) == w.Keys;
  }

  lemma {:induction false} DistinctCount(s: seq<Path>)
    requires forall i, j :: 0 <= i < j < |s| ==> s[i] != s[j]
    ensures |set p | p in s| == |s|
  {
    if s != [] {
      DistinctCount(s[1..]);
      assert s == [s[0]] + s[1..];
      assert s[0] !in s[1..];
      assert (set p | p in s) == {s[0]} + (set p | p in s[1..]);
    }
  }

  /** Two workspaces with one stream: a content that spells the second file. */
  lemma NulBytesCollide()
    ensures exists w: Workspace, order: seq<Path>, w': Workspace, order': seq<Path> ::
              && Listing(w, order) && Listing(w', order')
              && Stream(w, order) == Stream(w', order') && w != w'
  {
    var a: Path, b: Path := [97], [98];
    var w: Workspace, w': Workspace := map[a := [1], b := [2]], map[a := [1, 0, 98, 0, 2]];
    var order, order' := [a, b], [a];
    assert order[1..] == [b] && [b][1..] == [] && order'[1..] == [];
    assert Stream(w, [b]) == [98, 0, 2, 0];
    assert Stream(w, order) == [97, 0, 1, 0, 98, 0, 2, 0];
    assert Stream(w', order') == [97, 0, 1, 0, 98, 0, 2, 0];
    assert a in w && a in w' && w[a] != w'[a];
    assert Listing(w, order) && Listing(w', order');
  }

  // ---- the probe

  /** run_adaptive_fixture around a diagnostic probe: the facts must be the sealed ones and the digest
      after the probe must be the digest before it. */
  method AcceptProbe<D(==)>(
    sha: seq<byte> -> D, before: Workspace, order: seq<Path>, after: Workspace, order': seq<Path>, factsMatch: bool)
    returns (accepted: bool)
    requires Listing(before, order) && Listing(after, order')
    ensures accepted <==> factsMatch && sha(Stream(before, order)) == sha(Stream(after, order'))
    ensures accepted && NulFree(before, order)
            && (sha(Stream(before, order)) == sha(Stream(after, order')) ==>
                  Stream(before, order) == Stream(after, order'))
        ==> (before == after <==> |order'| == |order|) && (before == after <==> NulFree(after, order'))
  {
    var digestBefore := WorkspaceDigest(sha, before, order);
    if !factsMatch {
      return false;
    }
    var digestAfter := WorkspaceDigest(sha, after, order');
    accepted := digestBefore == digestAfter;
    if NulFree(before, order) && Stream(before, order) == Stream(after, order') {
      FramingInjective(before, order, after, order');
      HiddenChangeLosesFiles(before, order, after, order');
    }
  }
}
