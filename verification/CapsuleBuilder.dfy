/** build_capsule: once its input guards pass, neither its gate nor its closing verification can fail. */
module CapsuleBuilder {
  import opened Json
  import opened PythonValues
  import opened Capsule
  import C = Coordinator

  datatype Inputs = Inputs(
    evidenceUrl: string, evidenceBytes: string, evidence: Dict,  // evidence: json.loads of the bytes
    report: Dict, release: Dict,
    transaction: Dict, transactionBytes: string, authorBytes: string, networkBytes: string,
    compiler: Compiler, claimBoundary: string, observedAt: string)

  // ---- reading the inputs

  predicate ValidBuildCompiler(rt: Runtime, k: Compiler) {
    && IsSha1(k.sourceHead) && k.runId >= 1 && k.attempt >= 1
    && '/' in k.repository
    && k.releaseTag != "" && forall c :: c in k.releaseTag ==> !rt.isSpace(c)
  }

  function Reference(x: Inputs): Dict {
    if Get(x.evidence, "release_envelope").Obj? then Get(x.evidence, "release_envelope").members else map[]
  }

  function AuthorAssetName(x: Inputs): Json {
    if Get(x.evidence, "network_sign_once").Obj?
    then Get(Get(x.evidence, "network_sign_once").members, "author_bundle_asset_name") else Null
  }

  predicate HasReferences(x: Inputs) {
    && "tag" in Reference(x) && "asset_name" in Reference(x)
    && Get(x.evidence, "network_sign_once").Obj?
    && "author_bundle_asset_name" in Get(x.evidence, "network_sign_once").members
  }

  predicate IsAssetNamed(rt: Runtime, item: Json, name: Json) {
    item.Obj? && PyEq(rt, Get(item.members, "name"), name)
  }

  /** The items of a release with this name, in order. */
  function AssetsNamed(rt: Runtime, items: seq<Json>, name: Json): seq<Json> {
    if items == [] then []
    else (if IsAssetNamed(rt, items[0], name) then [items[0]] else []) + AssetsNamed(rt, items[1..], name)
  }

  /** _release_asset: None unless exactly one asset has the name. */
  function ReleaseAsset(rt: Runtime, release: Dict, name: Json): Option<Dict> {
    var assets := GetOr(release, "assets", Arr([]));
    if !assets.Arr? then None
    else
      var found := AssetsNamed(rt, assets.items, name);
      if |found| == 1 && found[0].Obj? then Some(found[0].members) else None
  }

  function WithoutPrefix(s: string): string { if "sha256:" <= s then s[7..] else s }

  /** The evidence of the first event in this state, or an empty dict. */
  function EvidenceOf(events: seq<Json>, state: string): Json {
    if events == [] then Obj(map[])
    else if events[0].Obj? && Get(events[0].members, "state") == Str(state)
    then GetOr(events[0].members, "evidence", Obj(map[]))
    else EvidenceOf(events[1..], state)
  }

  function EvidenceField(events: seq<Json>, state: string, k: string): Json {
    if EvidenceOf(events, state).Obj? then Get(EvidenceOf(events, state).members, k) else Null
  }

  // ---- the guards, in order

  predicate ReportPasses(rt: Runtime, report: Dict) {
    && AllTrue(Get(report, "checks"))
    && Get(report, "ok") == Bool(true)
    && Get(report, "mode") == Str("read-only-http-get")
    && UiProjection(Get(report, "checks").members).Some?
  }

  predicate PredecessorPasses(rt: Runtime, x: Inputs) {
    var target := Get(x.release, "target_commitish");
    && HasReferences(x)
    && Get(x.release, "immutable") == Bool(true) && Get(x.release, "draft") == Bool(false)
    && PyEq(rt, Get(x.release, "tag_name"), Reference(x)["tag"])
    && target.Str? && IsSha1(target.s)
    && !PyEq(rt, Reference(x)["tag"], Str(x.compiler.releaseTag))
  }

  function EnvelopeSha(rt: Runtime, x: Inputs): string {
    var asset := ReleaseAsset(rt, x.release, Get(Reference(x), "asset_name"));
    if asset.Some? then WithoutPrefix(PyStr(GetOr(asset.value, "digest", Str("")))) else ""
  }

  predicate AssetsPass(rt: Runtime, x: Inputs) {
    var author := ReleaseAsset(rt, x.release, AuthorAssetName(x));
    && ReleaseAsset(rt, x.release, Get(Reference(x), "asset_name")).Some?
    && author.Some?
    && IsSha256(EnvelopeSha(rt, x))
    && Get(author.value, "digest") == Str("sha256:" + rt.sha(x.authorBytes))
  }

  predicate TransactionPasses(rt: Runtime, x: Inputs) {
    var t := x.transaction;
    && C.Verified(rt, t)
    && (Get(t, "state") == Str(C.STATES[4]) || Get(t, "state") == Str(C.STATES[5]))
    && PyEq(rt, Get(t, "release_tag"), Get(Reference(x), "tag"))
    && PyEq(rt, Get(t, "source_digest"), Get(x.release, "target_commitish"))
    && Get(t, "envelope_sha256") == Str(EnvelopeSha(rt, x))
    && EvidenceField(C.EventsOf(t), C.STATES[4], "public_bundle_sha256") == Str(rt.sha(x.networkBytes))
    && EvidenceField(C.EventsOf(t), C.STATES[1], "author_bundle_sha256") == Str(rt.sha(x.authorBytes))
  }

  predicate CanBuild(rt: Runtime, x: Inputs) {
    && ValidBuildCompiler(rt, x.compiler)
    && ReportPasses(rt, x.report)
    && PredecessorPasses(rt, x)
    && AssetsPass(rt, x)
    && TransactionPasses(rt, x)
  }

  // ---- gate and capsule

  predicate Truthy(rt: Runtime, j: Json) {
    match j
    case Null => false
    case Bool(b) => b
    case Int(i) => i != 0
    case Str(s) => s != ""
    case Arr(items) => items != []
    case Obj(m) => m != map[]
    case Float(x) => rt.floatValue(x) != 0.0
  }

  function GateChecks(rt: Runtime, x: Inputs): Dict {
    var t := x.transaction;
    var checks := Get(x.report, "checks");
    map[
      "full_online_verifier_passed" := Bool(true),
      "all_online_checks_passed" := Bool(
        checks.Obj? && forall k :: k in checks.members ==> Truthy(rt, checks.members[k])),
      "ui_projection_complete" := Bool(checks.Obj? && RowsTrue(checks.members)),
      "predecessor_release_immutable" := Bool(Get(x.release, "immutable") == Bool(true)),
      "predecessor_envelope_bound" := Bool(Get(t, "envelope_sha256") == Str(EnvelopeSha(rt, x))),
      "predecessor_author_bundle_bound" := Bool(
        EvidenceField(C.EventsOf(t), C.STATES[1], "author_bundle_sha256") == Str(rt.sha(x.authorBytes))),
      "predecessor_network_bundle_bound" := Bool(
        EvidenceField(C.EventsOf(t), C.STATES[4], "public_bundle_sha256") == Str(rt.sha(x.networkBytes))),
      "predecessor_transaction_terminal" := Bool(
        Get(t, "state") == Str(C.STATES[4]) || Get(t, "state") == Str(C.STATES[5])),
      "browser_github_api_requests_zero" := Bool(true)]
  }

  predicate RowsTrue(checks: Dict) {
    var rows := UiProjection(checks);
    rows.Some? && forall n :: n in rows.value ==> rows.value[n] == Bool(true)
  }

  function PredecessorJson(rt: Runtime, x: Inputs): Json {
    Obj(map[
      "evidence_url" := Str(x.evidenceUrl),
      "evidence_sha256" := Str(rt.sha(x.evidenceBytes)),
      "release_tag" := Get(Reference(x), "tag"),
      "release_target" := Get(x.release, "target_commitish"),
      "release_envelope_sha256" := Str(EnvelopeSha(rt, x)),
      "transaction_receipt_sha256" := Get(x.transaction, "receipt_sha256"),
      "transaction_file_sha256" := Str(rt.sha(x.transactionBytes)),
      "author_bundle_sha256" := Str(rt.sha(x.authorBytes)),
      "network_bundle_sha256" := Str(rt.sha(x.networkBytes))])
  }

  function OnlineJson(report: Dict): Json {
    var checks := Get(report, "checks");
    Obj(map[
      "mode" := Get(report, "mode"),
      "ok" := Bool(true),
      "check_count" := Int(if checks.Obj? then |checks.members| else 0),
      "checks" := checks,
      "workflow_run_id" := Get(report, "workflow_run_id"),
      "vector_benchmark_run_id" := Get(report, "vector_benchmark_run_id"),
      "agent_pressure_run_id" := Get(report, "agent_pressure_run_id"),
      "agent_ablation_run_id" := Get(report, "agent_ablation_run_id"),
      "deployment_head_sha" := Get(report, "deployment_head_sha")])
  }

  function UiRows(report: Dict): Json {
    var checks := Get(report, "checks");
    if checks.Obj? && UiProjection(checks.members).Some? then Obj(UiProjection(checks.members).value) else Null
  }

  function GateJson(rt: Runtime, x: Inputs): Json {
    Obj(map["status" := Str("PASS"), "checks" := Obj(GateChecks(rt, x))])
  }

  function Unsealed(rt: Runtime, x: Inputs): Dict {
    map[
      "schema_version" := Int(1),
      "kind" := Str(KIND),
      "observed_at" := Str(x.observedAt),
      "claim_boundary" := Str(x.claimBoundary),
      "compiler" := CompilerJson(x.compiler),
      "predecessor" := PredecessorJson(rt, x),
      "online_verification" := OnlineJson(x.report),
      "ui_check_sources" := UiSourcesJson(UiSources(KIND)),
      "ui_checks" := UiRows(x.report),
      "request_policy" := RequestPolicy(KIND),
      "gate" := GateJson(rt, x)]
  }

  datatype Outcome = Rejected | GateOpen | Unverifiable | Built(capsule: Dict)

  /** build_capsule, with its three ways to fail kept apart. */
  function Build(rt: Runtime, x: Inputs): Outcome {
    if !CanBuild(rt, x) then Rejected
    else if !AllTrue(Obj(GateChecks(rt, x))) then GateOpen
    else
      var capsule := Seal(rt, Unsealed(rt, x));
      if ValidCapsule(rt, capsule) then Built(capsule) else Unverifiable
  }

  // ---- the proof

  /** When every check passed, every row is true: no row can name a check that is absent. */
  lemma ProjectionAllTrue(checks: Dict)
    requires AllTrue(Obj(checks)) && UiProjection(checks).Some?
    ensures RowsTrue(checks)
  {
    hide UiSources;
    var rows := UiSources(KIND);
    forall n | n in rows ensures UiProjection(checks).value[n] == Bool(true) {
      forall i | 0 <= i < |rows[n]| ensures Get(checks, rows[n][i]) == Bool(true) {}
    }
  }

  lemma GateCloses(rt: Runtime, x: Inputs)
    requires CanBuild(rt, x)
    ensures AllTrue(Obj(GateChecks(rt, x)))
  {
    hide UiProjection, ValidBuildCompiler, ReleaseAsset, C.Verified, EvidenceField, EnvelopeSha, PyEq, RowsTrue;
    ProjectionAllTrue(Get(x.report, "checks").members);
    assert "full_online_verifier_passed" in GateChecks(rt, x);
  }

  lemma PredecessorReads(rt: Runtime, x: Inputs)
    ensures var p := PredecessorJson(rt, x).members; var none := Str("");
      && GetOr(p, "evidence_sha256", none) == Str(rt.sha(x.evidenceBytes))
      && GetOr(p, "release_envelope_sha256", none) == Str(EnvelopeSha(rt, x))
      && GetOr(p, "transaction_receipt_sha256", none) == Get(x.transaction, "receipt_sha256")
  {
    hide EnvelopeSha, Reference, Get;
  }

  lemma PredecessorFilesRead(rt: Runtime, x: Inputs)
    ensures var p := PredecessorJson(rt, x).members; var none := Str("");
      && GetOr(p, "transaction_file_sha256", none) == Str(rt.sha(x.transactionBytes))
      && GetOr(p, "author_bundle_sha256", none) == Str(rt.sha(x.authorBytes))
      && GetOr(p, "network_bundle_sha256", none) == Str(rt.sha(x.networkBytes))
      && GetOr(p, "release_target", none) == Get(x.release, "target_commitish")
  {
    hide EnvelopeSha, Reference, Get;
  }

  /** What verify_receipt promises about the receipt digest: 64 hex digits. */
  lemma TransactionDigest(rt: Runtime, x: Inputs)
    requires TransactionPasses(rt, x)
    ensures IsSha256(PyStr(Get(x.transaction, "receipt_sha256")))
  {
    hide C.ValidIdentity, C.ValidEvents, EvidenceField, EnvelopeSha, PyEq;
  }

  lemma PredecessorValid(rt: Runtime, x: Inputs)
    requires CanBuild(rt, x)
    ensures ValidPredecessor(PredecessorJson(rt, x))
  {
    hide ReportPasses, ValidBuildCompiler, ReleaseAsset, TransactionPasses, EnvelopeSha, PyEq, HasReferences, IsHex;
    PredecessorReads(rt, x);
    PredecessorFilesRead(rt, x);
    TransactionDigest(rt, x);
    assert forall h: Hex64 :: IsHex(h, 64);
  }

  lemma OnlineReads(report: Dict)
    ensures var o := OnlineJson(report).members; var checks := Get(report, "checks");
      && Get(o, "ok") == Bool(true) && Get(o, "mode") == Get(report, "mode")
  {
  }

  lemma OnlineChecksRead(report: Dict)
    ensures var o := OnlineJson(report).members; var checks := Get(report, "checks");
      && Section(o, "checks") == checks
      && (checks.Obj? ==> Get(o, "check_count") == Int(|checks.members|))
  {
  }

  lemma OnlineValid(rt: Runtime, x: Inputs)
    requires CanBuild(rt, x)
    ensures ValidOnline(rt, OnlineJson(x.report))
    ensures ValidUi(rt, OnlineJson(x.report), UiSourcesJson(UiSources(KIND)), UiRows(x.report))
  {
    hide UiProjection, UiSourcesJson, UiSources, OnlineJson, AllTrue, ValidBuildCompiler, PredecessorPasses, AssetsPass,
      TransactionPasses;
    OnlineReads(x.report);
    OnlineChecksRead(x.report);
    OnlineIsObject(x.report);
    ChecksAreObject(Get(x.report, "checks"));
    ProjectionAllTrue(Get(x.report, "checks").members);
    PyEqReflexive(rt, UiSourcesJson(UiSources(KIND)));
    PyEqReflexive(rt, UiRows(x.report));
  }

  lemma OnlineIsObject(report: Dict)
    ensures OnlineJson(report).Obj?
  {
  }

  lemma ChecksAreObject(checks: Json)
    requires AllTrue(checks)
    ensures checks.Obj?
  {
  }

  /** The parts of a capsule are those assembled from the inputs. */
  ghost predicate HasParts(rt: Runtime, c: Dict, x: Inputs) {
    && Get(c, "schema_version") == Int(1) && Get(c, "kind") == Str(KIND)
    && Section(c, "compiler") == CompilerJson(x.compiler)
    && Section(c, "predecessor") == PredecessorJson(rt, x)
    && Section(c, "online_verification") == OnlineJson(x.report)
    && Get(c, "ui_check_sources") == UiSourcesJson(UiSources(KIND)) && Get(c, "ui_checks") == UiRows(x.report)
    && Section(c, "request_policy") == RequestPolicy(KIND)
    && Section(c, "gate") == GateJson(rt, x)
  }

  lemma UnsealedHasParts(rt: Runtime, x: Inputs)
    ensures HasParts(rt, Unsealed(rt, x), x)
  {
    hide CompilerJson, PredecessorJson, OnlineJson, UiSourcesJson, UiSources, UiRows, RequestPolicy, GateJson;
  }

  lemma SealKeepsParts(rt: Runtime, c: Dict, x: Inputs)
    ensures HasParts(rt, c, x) ==> HasParts(rt, Seal(rt, c), x)
    ensures Get(Seal(rt, c), "receipt_sha256") == Str(CapsuleDigest(rt, Seal(rt, c)))
  {
    hide CompilerJson, PredecessorJson, OnlineJson, UiSourcesJson, UiSources, UiRows, RequestPolicy, GateJson;
    assert Seal(rt, c) - {"receipt_sha256"} == c - {"receipt_sha256"};
    assert forall k :: k != "receipt_sha256" ==> Get(Seal(rt, c), k) == Get(c, k);
    hide Seal, CapsuleDigest, Get;
  }

  /** Builder and verifier agree: inputs past the guards always yield a capsule that verifies. */
  lemma BuilderAgrees(rt: Runtime, x: Inputs)
    ensures Build(rt, x) == if CanBuild(rt, x) then Built(Seal(rt, Unsealed(rt, x))) else Rejected
    ensures CanBuild(rt, x) ==> ValidCapsule(rt, Seal(rt, Unsealed(rt, x)))
  {
    hide CanBuild, Unsealed, Seal, GateChecks, CompilerJson, PredecessorJson, OnlineJson, UiSourcesJson, UiSources,
      UiRows, RequestPolicy, GateJson, ValidGate, ValidCompiler, ValidPredecessor, ValidOnline, ValidUi, AllTrue,
      CapsuleDigest;
    if CanBuild(rt, x) {
      GateCloses(rt, x);
      PredecessorValid(rt, x);
      OnlineValid(rt, x);
      UnsealedHasParts(rt, x);
      SealKeepsParts(rt, Unsealed(rt, x), x);
      PyEqReflexive(rt, RequestPolicy(KIND));
      GateValid(rt, x);
      BuildCompilerValid(rt, x);
    }
  }

  lemma GateValid(rt: Runtime, x: Inputs)
    requires AllTrue(Obj(GateChecks(rt, x)))
    ensures ValidGate(GateJson(rt, x))
  {
    hide GateChecks;
  }

  lemma BuildCompilerValid(rt: Runtime, x: Inputs)
    requires CanBuild(rt, x)
    ensures ValidCompiler(CompilerJson(x.compiler))
  {
    hide ReportPasses, PredecessorPasses, AssetsPass, TransactionPasses;
    CompilerValid(x.compiler);
  }
}
