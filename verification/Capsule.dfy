/** scripts/offline_judge_capsule.py: the capsule verifier, its builder, and the relay step. */
module Capsule {
  import opened Json
  import opened PythonValues

  const KIND := "continuum.offline-judge-capsule.v1"
  const ASSET_NAME := "judge-offline-capsule-v1.json"

  /** Which online checks stand behind each row shown to a judge, in capsules of this kind. */
  function UiSources(kind: string): map<string, seq<string>> {
    if kind != KIND then map[]
    else map[
      "bundle" := ["release_envelope_gate"],
      "workflow" := ["workflow_succeeded"],
      "head" := ["workflow_head_matches"],
      "health" := ["mcp_health_ok", "mcp_service_matches"],
      "pages" := ["public_demo_marker_present", "release_transaction_terminal"],
      "story" := ["live_story_bound"],
      "scope" := ["cross_scope_fetch_denied", "zero_cross_scope_leakage"],
      "control" := ["tenant_control_plane_active"],
      "pool" := ["bounded_database_pools"],
      "index" := ["scoped_vector_index_contract"],
      "migration" := ["migration_capability_absent"],
      "scale" := ["representative_scale_gate"],
      "ann" := ["natural_ann_without_full_scan"],
      "benchmark" := ["benchmark_workflow_matches_report"],
      "scaleScope" := ["benchmark_scope_isolation"],
      "pressure" := ["agent_pressure_gate"],
      "pressureLineage" := ["agent_pressure_lineage"],
      "pressureCorrectness" := ["agent_pressure_correctness"],
      "ablation" := ["ablation_lineage_and_population"],
      "drilldown" := ["episode_drilldown_projection"],
      "grounding" := ["citation_handle_grounding"],
      "memoryPolicy" := ["paired_memory_policy_differentiates"],
      "guardian" := ["real_provider_release_guardian"],
      "replication" := ["time_distributed_real_provider_replication"],
      "blind" := ["preregistered_blind_holdout"],
      "sequential" := ["sequential_blind_memory_compounding"],
      "ciRecovery" := ["real_ci_closed_loop_recovery"],
      "adaptiveDiagnosis" := ["preregistered_adaptive_diagnosis"],
      "transferFirewall" := ["counterfactual_cross_environment_transfer_firewall"],
      "onlineLineage" := ["online_memory_lineage_closure"],
      "outcomeCas" := ["outcome_replay_cas_closure"],
      "evidenceStory" := ["receipt_compiled_evidence_story"],
      "sandbox" := ["sandbox_provider_receipt"],
      "rls" := ["rls_checksum_bound"],
      "release" := ["immutable_release_assets"],
      "provenance" := ["network_sign_once_subject_visible"],
      "transaction" := ["release_transaction_terminal"]]
  }

  // ---- the parts of a capsule

  function CapsuleDigest(rt: Runtime, c: Dict): Hex64 { rt.digest(Obj(c - {"receipt_sha256"})) }

  function Seal(rt: Runtime, c: Dict): Dict { c["receipt_sha256" := Str(CapsuleDigest(rt, c))] }

  /** c.get(k, {}), which later .get() calls need to be a dict. */
  function Section(c: Dict, k: string): Json { GetOr(c, k, Obj(map[])) }

  predicate AllTrue(checks: Json) {
    checks.Obj? && checks.members != map[] && forall k :: k in checks.members ==> checks.members[k] == Bool(true)
  }

  /** _ui_projection: None when a source is missing from the checks. */
  function UiProjection(checks: Dict): Option<Dict> {
    var rows := UiSources(KIND);
    if forall n :: n in rows ==> forall i :: 0 <= i < |rows[n]| ==> rows[n][i] in checks
    then Some(map n | n in rows :: Bool(forall i :: 0 <= i < |rows[n]| ==> Get(checks, rows[n][i]) == Bool(true)))
    else None
  }

  function Strings(s: seq<string>): Json { Arr(seq(|s|, i requires 0 <= i < |s| => Str(s[i]))) }

  function UiSourcesJson(rows: map<string, seq<string>>): Json {
    Obj(map n | n in rows :: Strings(rows[n]))
  }

  /** The request policy of capsules of this kind. */
  function RequestPolicy(kind: string): Json {
    if kind != KIND then Null
    else Obj(map[
      "judge_click_github_api_requests" := Int(0),
      "judge_click_credentials_required" := Bool(false),
      "same_origin_static_gets_only" := Bool(true),
      "live_refresh_owner" := Str("judge-path-monitor.yml")])
  }

  predicate DigestField(o: Dict, k: string) { IsSha256(PyStr(GetOr(o, k, Str("")))) }

  predicate ValidPredecessor(p: Json) {
    && p.Obj?
    && DigestField(p.members, "evidence_sha256")
    && DigestField(p.members, "release_envelope_sha256")
    && DigestField(p.members, "transaction_receipt_sha256")
    && DigestField(p.members, "transaction_file_sha256")
    && DigestField(p.members, "author_bundle_sha256")
    && DigestField(p.members, "network_bundle_sha256")
    && IsSha1(PyStr(GetOr(p.members, "release_target", Str(""))))
  }

  predicate ValidOnline(rt: Runtime, online: Json) {
    && online.Obj?
    && Get(online.members, "ok") == Bool(true)
    && Get(online.members, "mode") == Str("read-only-http-get")
    && AllTrue(Section(online.members, "checks"))
    && PyEq(rt, Get(online.members, "check_count"), Int(|Section(online.members, "checks").members|))
  }

  predicate ValidUi(rt: Runtime, online: Json, sources: Json, rows: Json)
    requires ValidOnline(rt, online)
  {
    var expected := UiProjection(Section(online.members, "checks").members);
    && PyEq(rt, sources, UiSourcesJson(UiSources(KIND)))
    && expected.Some?
    && PyEq(rt, rows, Obj(expected.value))
    && forall n :: n in expected.value ==> expected.value[n] == Bool(true)
  }

  predicate ValidGate(gate: Json) {
    gate.Obj? && Get(gate.members, "status") == Str("PASS") && AllTrue(Section(gate.members, "checks"))
  }

  predicate ValidCompiler(compiler: Json) {
    compiler.Obj? && IsSha1(PyStr(GetOr(compiler.members, "source_head", Str(""))))
  }

  /** The part of verify_capsule that looks at the frozen proof, which a relay never touches. */
  predicate ValidProof(rt: Runtime, c: Dict) {
    && PyEq(rt, Get(c, "schema_version"), Int(1)) && Get(c, "kind") == Str(KIND)
    && ValidPredecessor(Section(c, "predecessor"))
    && ValidOnline(rt, Section(c, "online_verification"))
    && ValidUi(rt, Section(c, "online_verification"), Get(c, "ui_check_sources"), Get(c, "ui_checks"))
    && PyEq(rt, Section(c, "request_policy"), RequestPolicy(KIND))
    && ValidGate(Section(c, "gate"))
  }

  /** verify_capsule. */
  predicate ValidCapsule(rt: Runtime, c: Dict) {
    && ValidProof(rt, c)
    && ValidCompiler(Section(c, "compiler"))
    && Get(c, "receipt_sha256") == Str(CapsuleDigest(rt, c))
  }

  // ---- relay_capsule

  datatype Compiler = Compiler(repository: string, sourceHead: string, runId: int, attempt: int, releaseTag: string)

  function CompilerJson(k: Compiler): Json {
    Obj(map[
      "repository" := Str(k.repository),
      "source_head" := Str(k.sourceHead),
      "workflow_run_id" := Int(k.runId),
      "workflow_attempt" := Int(k.attempt),
      "workflow" := Str(k.repository + "/.github/workflows/release-envelope.yml"),
      "successor_release_tag" := Str(k.releaseTag)])
  }

  datatype RelayRequest = RelayRequest(
    bytes: string, expectedAsset: string, expectedReceipt: string,
    sourceTag: string, sourceTarget: string, compiler: Compiler, failedPagesRun: int,
    claimBoundary: string, observedAt: string)

  predicate CanRelay(rt: Runtime, c: Dict, q: RelayRequest) {
    var source := Section(c, "compiler");
    && ValidCapsule(rt, c)
    && IsSha256(q.expectedAsset) && rt.sha(q.bytes) == q.expectedAsset
    && Get(c, "receipt_sha256") == Str(q.expectedReceipt)
    && Get(source.members, "repository") == Str(q.compiler.repository)
    && Get(source.members, "successor_release_tag") == Str(q.sourceTag)
    && Get(source.members, "source_head") == Str(q.sourceTarget)
    && IsSha1(q.sourceTarget) && IsSha1(q.compiler.sourceHead)
    && q.compiler.runId >= 1 && q.compiler.attempt >= 1 && q.failedPagesRun >= 1
    && q.compiler.releaseTag != q.sourceTag
    && "workflow_run_id" in source.members
  }

  function RelayJson(rt: Runtime, c: Dict, q: RelayRequest): Json {
    var source := Section(c, "compiler");
    Obj(map[
      "schema_version" := Int(1),
      "reason" := Str("preserved_candidate_browser_failure"),
      "source_release_tag" := Str(q.sourceTag),
      "source_release_target" := Str(q.sourceTarget),
      "source_asset_sha256" := Str(rt.sha(q.bytes)),
      "source_receipt_sha256" := Str(q.expectedReceipt),
      "source_compiler_workflow_run_id" := if source.Obj? then Get(source.members, "workflow_run_id") else Null,
      "failed_pages_workflow_run_id" := Int(q.failedPagesRun),
      "failed_epoch_promoted_to_pass" := Bool(false)])
  }

  function Relayed(rt: Runtime, c: Dict, q: RelayRequest): Dict {
    Seal(rt, c[
      "observed_at" := Str(q.observedAt)][
      "claim_boundary" := Str(q.claimBoundary)][
      "relay" := RelayJson(rt, c, q)][
      "compiler" := CompilerJson(q.compiler)])
  }

  /** relay_capsule: None is any raised error, the closing verify_capsule included. */
  function Relay(rt: Runtime, c: Dict, q: RelayRequest): Option<Dict> {
    if !CanRelay(rt, c, q) then None
    else
      var relayed := Relayed(rt, c, q);
      if ValidCapsule(rt, relayed) then Some(relayed) else None
  }

  const REWRITTEN: set<string> := {"observed_at", "claim_boundary", "relay", "compiler", "receipt_sha256"}

  lemma RelayedFields(rt: Runtime, c: Dict, q: RelayRequest)
    ensures var d := Relayed(rt, c, q);
      && d.Keys == c.Keys + REWRITTEN
      && (forall k :: k in c && k !in REWRITTEN ==> d[k] == c[k])
      && Get(d, "relay") == RelayJson(rt, c, q)
      && Section(d, "compiler") == CompilerJson(q.compiler)
      && Get(d, "receipt_sha256") == Str(CapsuleDigest(rt, d))
  {
    hide RelayJson, CompilerJson;
    var body := c[
      "observed_at" := Str(q.observedAt)][
      "claim_boundary" := Str(q.claimBoundary)][
      "relay" := RelayJson(rt, c, q)][
      "compiler" := CompilerJson(q.compiler)];
    assert Seal(rt, body) - {"receipt_sha256"} == body - {"receipt_sha256"};
  }

  lemma ProofFrame(rt: Runtime, c: Dict, d: Dict)
    requires ValidProof(rt, c)
    requires c.Keys <= d.Keys <= c.Keys + REWRITTEN && forall k :: k in c && k !in REWRITTEN ==> d[k] == c[k]
    ensures ValidProof(rt, d)
  {
    hide ValidPredecessor, ValidOnline, ValidUi, ValidGate, RequestPolicy, PyEq;
  }

  /** A relay that passes its guards cannot fail its closing verification. */
  lemma RelayCloses(rt: Runtime, c: Dict, q: RelayRequest)
    requires CanRelay(rt, c, q)
    ensures ValidCapsule(rt, Relayed(rt, c, q))
    ensures Relay(rt, c, q) == Some(Relayed(rt, c, q))
  {
    hide ValidProof, Relayed, CapsuleDigest;
    RelayedFields(rt, c, q);
    ProofFrame(rt, c, Relayed(rt, c, q));
    CompilerValid(q.compiler);
  }

  lemma CompilerValid(k: Compiler)
    requires IsSha1(k.sourceHead)
    ensures ValidCompiler(CompilerJson(k))
  {
  }
}
