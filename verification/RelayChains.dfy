/** Chains of relays of any length. */
module RelayChains {
  import opened Json
  import opened PythonValues
  import opened Capsule

  /** Each capsule of the chain is the relay of the one before it. */
  ghost predicate IsChain(rt: Runtime, caps: seq<Dict>) {
    && caps != [] && ValidCapsule(rt, caps[0])
    && forall i :: 0 < i < |caps| ==> IsRelayOf(rt, caps[i], caps[i - 1])
  }

  ghost predicate IsRelayOf(rt: Runtime, d: Dict, c: Dict) { exists q :: Relay(rt, c, q) == Some(d) }

  /** The parts of the proof that every relay must hand on untouched. */
  ghost predicate SameProof(c: Dict, d: Dict) {
    && Get(d, "predecessor") == Get(c, "predecessor")
    && Get(d, "online_verification") == Get(c, "online_verification")
    && Get(d, "ui_check_sources") == Get(c, "ui_check_sources")
    && Get(d, "ui_checks") == Get(c, "ui_checks")
    && Get(d, "request_policy") == Get(c, "request_policy")
    && Get(d, "gate") == Get(c, "gate")
  }

  function SourceReceipt(d: Dict): Json {
    if Get(d, "relay").Obj? then Get(Get(d, "relay").members, "source_receipt_sha256") else Null
  }

  /** The relay does not turn the failed epoch into a pass. */
  predicate NotPromoted(d: Dict) {
    && Get(d, "relay").Obj?
    && Get(Get(d, "relay").members, "failed_epoch_promoted_to_pass") == Bool(false)
  }

  lemma RelayLink(rt: Runtime, c: Dict, d: Dict)
    requires IsRelayOf(rt, d, c)
    ensures ValidCapsule(rt, c) && ValidCapsule(rt, d)
    ensures SameProof(c, d)
    ensures "relay" in d && SourceReceipt(d) == Get(c, "receipt_sha256")
    ensures NotPromoted(d)
  {
    hide ValidProof, ValidCompiler, Relayed, CapsuleDigest, SameProof, RelayJson;
    var q :| Relay(rt, c, q) == Some(d);
    RelayedFields(rt, c, q);
    ProofKept(c, d);
    assert "relay" in REWRITTEN;
    RelayJsonReads(rt, c, q);
  }

  lemma ProofKept(c: Dict, d: Dict)
    requires d.Keys == c.Keys + REWRITTEN && forall k :: k in c && k !in REWRITTEN ==> d[k] == c[k]
    ensures SameProof(c, d)
  {
    assert forall k :: k in {"predecessor", "online_verification", "ui_check_sources", "ui_checks", "request_policy",
      "gate"} ==> k !in REWRITTEN;
  }

  lemma RelayJsonReads(rt: Runtime, c: Dict, q: RelayRequest)
    ensures var relay := RelayJson(rt, c, q);
      && relay.Obj?
      && Get(relay.members, "source_receipt_sha256") == Str(q.expectedReceipt)
      && Get(relay.members, "failed_epoch_promoted_to_pass") == Bool(false)
  {
  }

  /** Along a chain every capsule verifies and carries the proof of the first one. */
  lemma {:induction false} ChainKeepsProof(rt: Runtime, caps: seq<Dict>, n: nat)
    requires IsChain(rt, caps) && n < |caps|
    ensures ValidCapsule(rt, caps[n]) && SameProof(caps[0], caps[n])
    ensures n > 0 ==> SourceReceipt(caps[n]) == Get(caps[n - 1], "receipt_sha256")
    ensures n > 0 ==> NotPromoted(caps[n])
  {
    hide ValidCapsule, IsRelayOf;
    if n > 0 {
      ChainKeepsProof(rt, caps, n - 1);
      RelayLink(rt, caps[n - 1], caps[n]);
    }
  }

  // ---- following source_receipt_sha256 backward

  function CapsuleBody(c: Dict): Json { Obj(c - {"receipt_sha256"}) }

  /** Two different capsule bodies of these chains share a digest. */
  ghost predicate Collision(rt: Runtime, a: seq<Dict>, b: seq<Dict>) {
    exists i, j :: 0 <= i < |a| && 0 <= j < |b| && CapsuleBody(a[i]) != CapsuleBody(b[j])
      && rt.digest(CapsuleBody(a[i])) == rt.digest(CapsuleBody(b[j]))
  }

  lemma SameReceiptSameCapsule(rt: Runtime, c: Dict, d: Dict)
    requires ValidCapsule(rt, c) && ValidCapsule(rt, d) && Get(c, "receipt_sha256") == Get(d, "receipt_sha256")
    requires CapsuleBody(c) == CapsuleBody(d)
    ensures c == d
  {
    hide ValidProof, ValidCompiler;
    assert "receipt_sha256" in c && "receipt_sha256" in d;
    forall k ensures k in c <==> k in d {
      assert k in c - {"receipt_sha256"} <==> k in d - {"receipt_sha256"};
    }
    forall k | k in c ensures c[k] == d[k] {
      if k != "receipt_sha256" { assert (c - {"receipt_sha256"})[k] == (d - {"receipt_sha256"})[k]; }
    }
  }

  /** A receipt digest names at most one capsule of the chains in play. */
  lemma ReceiptNamesCapsule(rt: Runtime, a: seq<Dict>, b: seq<Dict>, i: nat, j: nat)
    requires i < |a| && j < |b| && ValidCapsule(rt, a[i]) && ValidCapsule(rt, b[j])
    requires Get(a[i], "receipt_sha256") == Get(b[j], "receipt_sha256")
    requires !Collision(rt, a, b)
    ensures a[i] == b[j]
  {
    hide ValidProof, ValidCompiler;
    assert rt.digest(CapsuleBody(a[i])) == rt.digest(CapsuleBody(b[j]));
    SameReceiptSameCapsule(rt, a[i], b[j]);
  }

  /** Walking back from the same receipt digest meets the same capsule at every step. */
  lemma {:induction false} SameAncestors(rt: Runtime, a: seq<Dict>, b: seq<Dict>, k: nat)
    requires IsChain(rt, a) && IsChain(rt, b) && !Collision(rt, a, b)
    requires Get(a[|a| - 1], "receipt_sha256") == Get(b[|b| - 1], "receipt_sha256")
    requires k < |a| && k < |b|
    ensures a[|a| - 1 - k] == b[|b| - 1 - k]
  {
    hide ValidCapsule, IsRelayOf, Collision, SameProof;
    var i, j := |a| - 1 - k, |b| - 1 - k;
    if k > 0 {
      SameAncestors(rt, a, b, k - 1);
      ChainKeepsProof(rt, a, i + 1);
      ChainKeepsProof(rt, b, j + 1);
    }
    ChainKeepsProof(rt, a, i);
    ChainKeepsProof(rt, b, j);
    ReceiptNamesCapsule(rt, a, b, i, j);
  }

  /** The lineage of a relayed capsule is unique: two chains from built capsules, which have no relay
      field, to the same receipt digest are the same chain. */
  lemma LineageUnique(rt: Runtime, a: seq<Dict>, b: seq<Dict>)
    requires IsChain(rt, a) && IsChain(rt, b) && !Collision(rt, a, b)
    requires Get(a[|a| - 1], "receipt_sha256") == Get(b[|b| - 1], "receipt_sha256")
    requires "relay" !in a[0] && "relay" !in b[0]
    ensures a == b
  {
    hide ValidCapsule, IsRelayOf, Collision, SameProof;
    if |a| < |b| { NoRelayAtRoot(rt, a, b); }
    if |b| < |a| {
      CollisionSymmetric(rt, a, b);
      NoRelayAtRoot(rt, b, a);
    }
    forall i | 0 <= i < |a| ensures a[i] == b[i] {
      SameAncestors(rt, a, b, |a| - 1 - i);
    }
  }

  lemma CollisionSymmetric(rt: Runtime, a: seq<Dict>, b: seq<Dict>)
    requires !Collision(rt, a, b)
    ensures !Collision(rt, b, a)
  {
  }

  /** The root of the shorter chain would be a relayed capsule of the longer one. */
  lemma NoRelayAtRoot(rt: Runtime, a: seq<Dict>, b: seq<Dict>)
    requires IsChain(rt, a) && IsChain(rt, b) && !Collision(rt, a, b) && |a| < |b|
    requires Get(a[|a| - 1], "receipt_sha256") == Get(b[|b| - 1], "receipt_sha256")
    ensures "relay" in a[0]
  {
    hide ValidCapsule, Collision, SameProof;
    SameAncestors(rt, a, b, |a| - 1);
    var j := |b| - |a|;
    RelayLink(rt, b[j - 1], b[j]);
  }

  // ---- what can be relayed

  /** The compiler section names this compiler, whatever else it holds. */
  predicate MadeBy(c: Dict, k: Compiler) {
    var section := Section(c, "compiler");
    && section.Obj? && "workflow_run_id" in section.members
    && Get(section.members, "repository") == Str(k.repository)
    && Get(section.members, "source_head") == Str(k.sourceHead)
    && Get(section.members, "successor_release_tag") == Str(k.releaseTag)
  }

  /** A request that names the capsule and its release and moves to another one. */
  predicate Fits(rt: Runtime, c: Dict, k: Compiler, q: RelayRequest) {
    && IsSha256(q.expectedAsset) && rt.sha(q.bytes) == q.expectedAsset
    && Get(c, "receipt_sha256") == Str(q.expectedReceipt)
    && q.compiler.repository == k.repository
    && q.sourceTag == k.releaseTag && q.sourceTarget == k.sourceHead
    && IsSha1(k.sourceHead) && IsSha1(q.compiler.sourceHead)
    && q.compiler.runId >= 1 && q.compiler.attempt >= 1 && q.failedPagesRun >= 1
    && q.compiler.releaseTag != k.releaseTag
  }

  /** A capsule that says which compiler made it can be relayed exactly by the requests that fit, and
      its relay says the same of the new compiler: no chain ever has to end. */
  lemma ChainExtends(rt: Runtime, c: Dict, k: Compiler, q: RelayRequest)
    requires ValidCapsule(rt, c) && MadeBy(c, k)
    ensures CanRelay(rt, c, q) <==> Fits(rt, c, k, q)
    ensures Fits(rt, c, k, q) ==>
              Relay(rt, c, q).Some? && MadeBy(Relay(rt, c, q).value, q.compiler)
  {
    hide ValidCapsule, CompilerJson, Section, Relayed, IsHex;
    CompilerReads(q.compiler);
    if CanRelay(rt, c, q) {
      RelayCloses(rt, c, q);
      RelayedFields(rt, c, q);
    }
  }

  lemma CompilerReads(k: Compiler)
    ensures CompilerJson(k).Obj?
    ensures var m := CompilerJson(k).members;
      && Get(m, "repository") == Str(k.repository) && Get(m, "source_head") == Str(k.sourceHead)
      && Get(m, "successor_release_tag") == Str(k.releaseTag) && "workflow_run_id" in m
  {
  }
}
