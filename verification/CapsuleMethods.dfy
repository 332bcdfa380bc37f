/** The capsule steps that change a dict in place, as they run. */
module CapsuleMethods {
  import opened Json
  import opened PythonValues
  import opened Capsule
  import opened CapsuleBuilder

  /** capsule_receipt_sha256: the receipt is popped from a copy. */
  method CapsuleReceipt(rt: Runtime, capsule: Dict) returns (digest: Hex64)
    ensures digest == CapsuleDigest(rt, capsule)
  {
    var payload := capsule;
    if "receipt_sha256" in payload { payload := payload - {"receipt_sha256"}; }
    assert payload == capsule - {"receipt_sha256"};
    digest := rt.digest(Obj(payload));
  }

  /** relay_capsule: past its guards the copy is overwritten, sealed and verified, and that always
      succeeds. */
  method RelayCapsule(rt: Runtime, capsule: Dict, q: RelayRequest) returns (result: Option<Dict>)
    ensures result == Relay(rt, capsule, q)
    ensures result.Some? <==> CanRelay(rt, capsule, q)
  {
    hide ValidProof, ValidCompiler, RelayJson, CompilerJson, CapsuleDigest, ValidCapsule;
    if !CanRelay(rt, capsule, q) {
      return None;
    }
    RelayCloses(rt, capsule, q);
    var relayed := capsule;
    relayed := relayed["observed_at" := Str(q.observedAt)];
    relayed := relayed["claim_boundary" := Str(q.claimBoundary)];
    relayed := relayed["relay" := RelayJson(rt, capsule, q)];
    relayed := relayed["compiler" := CompilerJson(q.compiler)];
    var digest := CapsuleReceipt(rt, relayed);
    relayed := relayed["receipt_sha256" := Str(digest)];
    result := if ValidCapsule(rt, relayed) then Some(relayed) else None;
  }

  /** build_capsule: the assembled dict gets its receipt field and is verified. Neither the gate error
      nor the closing verify_capsule can fire once the guards have passed. */
  method BuildCapsule(rt: Runtime, x: Inputs) returns (result: Outcome)
    ensures result == Build(rt, x)
    ensures result == Rejected <==> !CanBuild(rt, x)
    ensures result.Built? ==> ValidCapsule(rt, result.capsule)
  {
    hide CanBuild, GateChecks, Unsealed, ValidCapsule, CapsuleDigest, AllTrue;
    BuilderAgrees(rt, x);
    if !CanBuild(rt, x) {
      return Rejected;
    }
    if !AllTrue(Obj(GateChecks(rt, x))) {
      return GateOpen;
    }
    var capsule := Unsealed(rt, x);
    var digest := CapsuleReceipt(rt, capsule);
    capsule := capsule["receipt_sha256" := Str(digest)];
    result := if ValidCapsule(rt, capsule) then Built(capsule) else Unverifiable;
  }
}
