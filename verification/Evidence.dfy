/** Evidence a release workflow can always supply: for every state, one that passes the check. */
module Evidence {
  import opened Decimal
  import opened Json
  import opened PythonValues
  import opened Coordinator
  import opened Observations

  /** The fields the coordinator reads, none of which SENSITIVE_KEY_PATTERN matches. */
  const FIELDS: set<string> := {
    "release_id", "release_draft", "release_target", "envelope_sha256", "expected_asset_digests",
    "observed_asset_digests", "author_attestation_count", "author_bundle_sha256", "signer_workflow",
    "source_ref", "rekor_log", "immutable", "release_tag", "platform_attestation_count",
    "total_attestation_count", "status", "pages_workflow_run_id", "pages_source_digest",
    "coordinator_workflow_run_id", "coordinator_artifact_id", "coordinator_source_digest",
    "coordinator_artifact_name", "coordinator_artifact_digest", "coordinator_receipt_sha256",
    "coordinator_workflow_url", "pages_workflow_url", "public_receipt_url", "public_bundle_sha256",
    "browser_workflow_run_id", "browser_artifact_id", "browser_workflow_url", "browser_source_digest",
    "browser_artifact_name", "browser_artifact_digest", "browser_receipt_sha256", "screenshot_sha256",
    "network_receipt_sha256", "console_receipt_sha256", "script_sha256", "pages_receipt_sha256",
    "script_asset_name", "script_integrity", "browser_context_fresh", "browser_engine", "headless",
    "candidate_status", "candidate_transaction_state", "ui_check_count", "github_api_requests",
    "console_error_count", "public_verifier_url", "release_exists", "pages", "browser"}

  ghost predicate FieldsSafe(rt: Runtime) { forall k :: k in FIELDS ==> !rt.sensitive(k) }

  predicate IsScalar(j: Json) { !j.Arr? && !j.Obj? }

  lemma FlatIsSafe(rt: Runtime, ev: Dict, fields: set<string>)
    requires forall k :: k in fields ==> !rt.sensitive(k)
    requires ev.Keys <= fields && forall k :: k in ev ==> Safe(rt, ev[k])
    ensures Safe(rt, Obj(ev))
  {
  }

  ghost predicate GoodAssets(rt: Runtime, assets: map<string, string>, envelope: string) {
    && ENVELOPE in assets && assets[ENVELOPE] == envelope
    && forall k :: k in assets ==> IsAssetName(k) && IsSha256(assets[k]) && !rt.sensitive(k)
  }

  /** Identity fields as evidence can repeat them. */
  ghost predicate GoodContext(c: Context) {
    && IsScalar(c.tag) && IsScalar(c.source)
    && c.envelope.Str? && IsSha256(c.envelope.s)
    && IsSha1(PyStr(c.source))
    && c.pagesReceipt.Str? && IsSha256(c.pagesReceipt.s)
  }

  // ---- evidence that says what was seen

  function ReleasePart(status: string, tag: Json, target: Json): Dict {
    map["status" := Str(status), "release_tag" := tag, "release_target" := target]
  }

  function PagesPart(p: PagesRun): Dict {
    map[
      "pages_workflow_run_id" := Int(p.runId),
      "pages_source_digest" := Str(p.source),
      "pages_workflow_url" := Str(p.url),
      "public_receipt_url" := Str(p.receiptUrl),
      "public_bundle_sha256" := Str(p.bundle)]
  }

  function CoordinatorPart(k: CoordinatorRun): Dict {
    map[
      "coordinator_workflow_run_id" := Int(k.runId),
      "coordinator_artifact_id" := Int(k.artifactId),
      "coordinator_source_digest" := Str(k.source),
      "coordinator_artifact_name" := Str(k.artifactName),
      "coordinator_artifact_digest" := Str(k.artifactDigest),
      "coordinator_receipt_sha256" := Str(k.receipt),
      "coordinator_workflow_url" := Str(k.url)]
  }

  function RunPart(b: BrowserRun): Dict {
    map[
      "browser_workflow_run_id" := Int(b.runId),
      "browser_artifact_id" := Int(b.artifactId),
      "browser_workflow_url" := Str(b.url),
      "browser_source_digest" := b.source,
      "browser_artifact_name" := Str(b.artifactName),
      "browser_artifact_digest" := Str(b.artifactDigest)]
  }

  function FilesPart(f: BrowserFiles): Dict {
    map[
      "browser_receipt_sha256" := Str(f.receipt),
      "screenshot_sha256" := Str(f.screenshot),
      "network_receipt_sha256" := Str(f.network),
      "console_receipt_sha256" := Str(f.console),
      "script_sha256" := Str(f.script),
      "pages_receipt_sha256" := Str(f.pagesReceipt),
      "script_asset_name" := Str(f.scriptName),
      "script_integrity" := Str(f.scriptIntegrity)]
  }

  function ResultPart(b: BrowserResult): Dict {
    map[
      "browser_context_fresh" := Bool(b.clean),
      "browser_engine" := Str(b.engine),
      "headless" := Bool(b.headless),
      "candidate_status" := Str(b.candidate),
      "candidate_transaction_state" := Str(b.state),
      "ui_check_count" := Int(b.checks),
      "github_api_requests" := Int(b.apiRequests),
      "console_error_count" := Int(b.consoleErrors),
      "public_verifier_url" := Str(b.verifierUrl)]
  }

  /** Evidence with exactly the fields the coordinator reads. */
  function Filled(w: Sighting): Dict {
    match w
    case Drafted(releaseId, draft, target, envelope, expected) => map[
      "release_id" := Int(releaseId),
      "release_draft" := Bool(draft),
      "release_target" := target,
      "envelope_sha256" := Str(envelope),
      "expected_asset_digests" := AssetTable(expected)]
    case Signed(authors, bundle, workflow, ref, log) => map[
      "author_attestation_count" := Int(authors),
      "author_bundle_sha256" := Str(bundle),
      "signer_workflow" := Str(workflow),
      "source_ref" := Str(ref),
      "rekor_log" := Str(log)]
    case Uploaded(draft, expected, observed) => map[
      "release_draft" := Bool(draft),
      "expected_asset_digests" := AssetTable(expected),
      "observed_asset_digests" := AssetTable(observed)]
    case Published(immutable, draft, target, tag, authors, platforms, total) => map[
      "immutable" := Bool(immutable),
      "release_draft" := Bool(draft),
      "release_target" := target,
      "release_tag" := tag,
      "author_attestation_count" := Int(authors),
      "platform_attestation_count" := Int(platforms),
      "total_attestation_count" := Int(total)]
    case Materialized(status, tag, target, pages, coordinator) =>
      ReleasePart(status, tag, target) + PagesPart(pages) + CoordinatorPart(coordinator)
    case Browsed(status, tag, target, run, files, result) =>
      ReleasePart(status, tag, target) + RunPart(run) + FilesPart(files) + ResultPart(result)
  }

  // ---- the parts of a large dict do not overlap

  ghost predicate Part(a: Dict, ev: Dict) { forall k :: k in a ==> k in ev && ev[k] == a[k] }

  lemma UnionParts(a: Dict, b: Dict)
    requires a.Keys !! b.Keys
    ensures Part(a, a + b) && Part(b, a + b)
  {
  }

  lemma PagesApart(status: string, tag: Json, target: Json, pages: PagesRun, k: CoordinatorRun)
    ensures ReleasePart(status, tag, target).Keys !! PagesPart(pages).Keys
    ensures PagesPart(pages).Keys !! CoordinatorPart(k).Keys
  {
  }

  lemma CoordinatorApart(status: string, tag: Json, target: Json, k: CoordinatorRun)
    ensures ReleasePart(status, tag, target).Keys !! CoordinatorPart(k).Keys
  {
  }

  lemma ReleaseRunApart(status: string, tag: Json, target: Json, run: BrowserRun)
    ensures ReleasePart(status, tag, target).Keys !! RunPart(run).Keys
  {
  }

  lemma ReleaseFilesApart(status: string, tag: Json, target: Json, files: BrowserFiles)
    ensures ReleasePart(status, tag, target).Keys !! FilesPart(files).Keys
  {
  }

  lemma ReleaseResultApart(status: string, tag: Json, target: Json, result: BrowserResult)
    ensures ReleasePart(status, tag, target).Keys !! ResultPart(result).Keys
  {
  }

  lemma RunFilesApart(run: BrowserRun, files: BrowserFiles)
    ensures RunPart(run).Keys !! FilesPart(files).Keys
  {
  }

  lemma RunResultApart(run: BrowserRun, result: BrowserResult)
    ensures RunPart(run).Keys !! ResultPart(result).Keys
  {
  }

  lemma FilesApart(files: BrowserFiles, result: BrowserResult)
    ensures FilesPart(files).Keys !! ResultPart(result).Keys
  {
  }

  lemma PagesParts(status: string, tag: Json, target: Json, pages: PagesRun, k: CoordinatorRun)
    ensures var ev := Filled(Materialized(status, tag, target, pages, k));
      Part(ReleasePart(status, tag, target), ev) && Part(PagesPart(pages), ev) && Part(CoordinatorPart(k), ev)
  {
    hide ReleasePart, PagesPart, CoordinatorPart;
    PagesApart(status, tag, target, pages, k);
    CoordinatorApart(status, tag, target, k);
    UnionParts(ReleasePart(status, tag, target), PagesPart(pages));
    UnionParts(ReleasePart(status, tag, target) + PagesPart(pages), CoordinatorPart(k));
  }

  lemma BrowserParts(status: string, tag: Json, target: Json, run: BrowserRun, files: BrowserFiles,
    result: BrowserResult)
    ensures var ev := Filled(Browsed(status, tag, target, run, files, result));
      && Part(ReleasePart(status, tag, target), ev) && Part(RunPart(run), ev)
      && Part(FilesPart(files), ev) && Part(ResultPart(result), ev)
  {
    hide ReleasePart, RunPart, FilesPart, ResultPart;
    ReleaseRunApart(status, tag, target, run);
    ReleaseFilesApart(status, tag, target, files);
    ReleaseResultApart(status, tag, target, result);
    RunFilesApart(run, files);
    RunResultApart(run, result);
    FilesApart(files, result);
    var a := ReleasePart(status, tag, target) + RunPart(run);
    UnionParts(ReleasePart(status, tag, target), RunPart(run));
    UnionParts(a, FilesPart(files));
    UnionParts(a + FilesPart(files), ResultPart(result));
  }

  lemma ReleaseSays(ev: Dict, status: string, tag: Json, target: Json)
    requires Part(ReleasePart(status, tag, target), ev)
    ensures SaysRelease(ev, status, tag, target)
  {
    var a := ReleasePart(status, tag, target);
    assert "status" in a && "release_tag" in a && "release_target" in a;
  }

  lemma PagesSay(ev: Dict, p: PagesRun)
    requires Part(PagesPart(p), ev)
    ensures SaysPages(ev, p)
  {
    var a := PagesPart(p);
    assert "pages_workflow_run_id" in a && "pages_source_digest" in a && "pages_workflow_url" in a;
    assert "public_receipt_url" in a && "public_bundle_sha256" in a;
  }

  lemma CoordinatorSays(ev: Dict, k: CoordinatorRun)
    requires Part(CoordinatorPart(k), ev)
    ensures SaysCoordinator(ev, k)
  {
    var a := CoordinatorPart(k);
    assert "coordinator_workflow_run_id" in a && "coordinator_artifact_id" in a && "coordinator_source_digest" in a;
    assert "coordinator_artifact_name" in a && "coordinator_artifact_digest" in a;
    assert "coordinator_receipt_sha256" in a && "coordinator_workflow_url" in a;
  }

  lemma RunSays(ev: Dict, b: BrowserRun)
    requires Part(RunPart(b), ev)
    ensures SaysRun(ev, b)
  {
    var a := RunPart(b);
    assert "browser_workflow_run_id" in a && "browser_artifact_id" in a && "browser_workflow_url" in a;
    assert "browser_source_digest" in a && "browser_artifact_name" in a && "browser_artifact_digest" in a;
  }

  lemma FilesSay(ev: Dict, f: BrowserFiles)
    requires Part(FilesPart(f), ev)
    ensures SaysFiles(ev, f)
  {
    var a := FilesPart(f);
    assert "browser_receipt_sha256" in a && "screenshot_sha256" in a && "network_receipt_sha256" in a;
    assert "console_receipt_sha256" in a && "script_sha256" in a && "pages_receipt_sha256" in a;
    assert "script_asset_name" in a && "script_integrity" in a;
  }

  lemma ResultSays(ev: Dict, b: BrowserResult)
    requires Part(ResultPart(b), ev)
    ensures SaysResult(ev, b)
  {
    var a := ResultPart(b);
    assert "browser_context_fresh" in a && "browser_engine" in a && "headless" in a && "candidate_status" in a;
    assert "candidate_transaction_state" in a && "ui_check_count" in a && "github_api_requests" in a;
    assert "console_error_count" in a && "public_verifier_url" in a;
  }

  /** Every observation can be written down. */
  lemma FilledSays(w: Sighting)
    ensures Says(Filled(w), w)
  {
    hide Filled, Says;
    match w
    case Materialized(status, tag, target, pages, k) => MaterializedSays(status, tag, target, pages, k);
    case Browsed(status, tag, target, run, files, result) => BrowsedSays(status, tag, target, run, files, result);
    case _ => EarlySays(w);
  }

  lemma MaterializedSays(status: string, tag: Json, target: Json, pages: PagesRun, k: CoordinatorRun)
    ensures var w := Materialized(status, tag, target, pages, k); Says(Filled(w), w)
  {
    hide Filled, Part, ReleasePart, PagesPart, CoordinatorPart, SaysRelease, SaysPages, SaysCoordinator;
    var ev := Filled(Materialized(status, tag, target, pages, k));
    PagesParts(status, tag, target, pages, k);
    ReleaseSays(ev, status, tag, target);
    PagesSay(ev, pages);
    CoordinatorSays(ev, k);
  }

  lemma BrowsedSays(status: string, tag: Json, target: Json, run: BrowserRun, files: BrowserFiles,
    result: BrowserResult)
    ensures var w := Browsed(status, tag, target, run, files, result); Says(Filled(w), w)
  {
    hide Filled, Part, ReleasePart, RunPart, FilesPart, ResultPart, SaysRelease, SaysRun, SaysFiles, SaysResult;
    var ev := Filled(Browsed(status, tag, target, run, files, result));
    BrowserParts(status, tag, target, run, files, result);
    ReleaseSays(ev, status, tag, target);
    RunSays(ev, run);
    FilesSay(ev, files);
    ResultSays(ev, result);
  }

  lemma EarlySays(w: Sighting)
    requires !w.Materialized? && !w.Browsed?
    ensures Says(Filled(w), w)
  {
    hide AssetTable;
    if w.Published? { PublishedSays(w); }
  }

  lemma PublishedSays(w: Sighting)
    requires w.Published?
    ensures Says(Filled(w), w)
  {
  }

  // ---- no field of it names a secret

  /** Tag, commit and asset names as a safe observation has them. */
  ghost predicate SafeSighting(rt: Runtime, w: Sighting) {
    match w
    case Drafted(_, _, target, _, expected) => IsScalar(target) && SafeNames(rt, expected)
    case Signed(_, _, _, _, _) => true
    case Uploaded(_, expected, observed) => SafeNames(rt, expected) && SafeNames(rt, observed)
    case Published(_, _, target, tag, _, _, _) => IsScalar(target) && IsScalar(tag)
    case Materialized(_, tag, target, _, _) => IsScalar(tag) && IsScalar(target)
    case Browsed(_, tag, target, run, _, _) => IsScalar(tag) && IsScalar(target) && IsScalar(run.source)
  }

  ghost predicate SafeNames(rt: Runtime, assets: Assets) { forall k :: k in assets ==> !rt.sensitive(k) }

  lemma TableIsSafe(rt: Runtime, assets: Assets)
    requires SafeNames(rt, assets)
    ensures Safe(rt, AssetTable(assets))
  {
  }

  /** Known fields only, each of them a scalar or safe. */
  ghost predicate Plain(rt: Runtime, d: Dict) { d.Keys <= FIELDS && forall k :: k in d ==> Safe(rt, d[k]) }

  lemma PlainUnion(rt: Runtime, a: Dict, b: Dict)
    requires Plain(rt, a) && Plain(rt, b)
    ensures Plain(rt, a + b)
  {
    hide Safe;
    assert forall k :: k in a + b ==> (k in b && (a + b)[k] == b[k]) || (k in a && (a + b)[k] == a[k]);
  }

  lemma ReleasePlain(rt: Runtime, status: string, tag: Json, target: Json)
    requires IsScalar(tag) && IsScalar(target)
    ensures Plain(rt, ReleasePart(status, tag, target))
  {
  }

  lemma PagesPlain(rt: Runtime, p: PagesRun, k: CoordinatorRun)
    ensures Plain(rt, PagesPart(p)) && Plain(rt, CoordinatorPart(k))
  {
  }

  lemma RunPlain(rt: Runtime, b: BrowserRun)
    requires IsScalar(b.source)
    ensures Plain(rt, RunPart(b))
  {
  }

  lemma FilesPlain(rt: Runtime, f: BrowserFiles)
    ensures Plain(rt, FilesPart(f))
  {
  }

  lemma ResultPlain(rt: Runtime, b: BrowserResult)
    ensures Plain(rt, ResultPart(b))
  {
  }

  lemma EarlyPlain(rt: Runtime, w: Sighting)
    requires SafeSighting(rt, w) && !w.Materialized? && !w.Browsed?
    ensures Plain(rt, Filled(w))
  {
    hide AssetTable, SafeNames;
    match w
    case Drafted(_, _, _, _, expected) => TableIsSafe(rt, expected);
    case Uploaded(_, expected, observed) =>
      TableIsSafe(rt, expected);
      TableIsSafe(rt, observed);
    case _ =>
  }

  lemma FilledIsSafe(rt: Runtime, w: Sighting)
    requires SafeSighting(rt, w) && FieldsSafe(rt)
    ensures Safe(rt, Obj(Filled(w)))
  {
    hide Filled, Plain, ReleasePart, PagesPart, CoordinatorPart, RunPart, FilesPart, ResultPart, FieldsSafe;
    FilledPlain(rt, w);
    PlainIsSafe(rt, Filled(w));
  }

  lemma PlainIsSafe(rt: Runtime, d: Dict)
    requires Plain(rt, d) && FieldsSafe(rt)
    ensures Safe(rt, Obj(d))
  {
    assert forall k :: k in FIELDS ==> !rt.sensitive(k);
    hide FIELDS;
  }

  lemma FilledPlain(rt: Runtime, w: Sighting)
    requires SafeSighting(rt, w)
    ensures Plain(rt, Filled(w))
  {
    hide Plain, ReleasePart, PagesPart, CoordinatorPart, RunPart, FilesPart, ResultPart;
    if w.Materialized? {
      ReleasePlain(rt, w.status, w.tag, w.target);
      PagesPlain(rt, w.pages, w.coordinator);
      PlainUnion(rt, ReleasePart(w.status, w.tag, w.target), PagesPart(w.pages));
      PlainUnion(rt, ReleasePart(w.status, w.tag, w.target) + PagesPart(w.pages), CoordinatorPart(w.coordinator));
    } else if w.Browsed? {
      var a := ReleasePart(w.status, w.tag, w.target);
      ReleasePlain(rt, w.status, w.tag, w.target);
      RunPlain(rt, w.run);
      FilesPlain(rt, w.files);
      ResultPlain(rt, w.result);
      PlainUnion(rt, a, RunPart(w.run));
      PlainUnion(rt, a + RunPart(w.run), FilesPart(w.files));
      PlainUnion(rt, a + RunPart(w.run) + FilesPart(w.files), ResultPart(w.result));
    } else {
      EarlyPlain(rt, w);
    }
  }

  // ---- evidence for every state

  /** An observation that proves the state. */
  function Sample(rt: Runtime, i: nat, c: Context, assets: Assets): Sighting {
    var hash, commit := Zeros(64), Zeros(40);
    match i
    case 0 => Drafted(1, true, c.source, PyStr(c.envelope), assets)
    case 1 =>
      Signed(1, hash, PyStr(c.repository) + "/.github/workflows/release-envelope.yml", "refs/heads/main",
             "https://rekor.sigstore.dev")
    case 2 => Uploaded(true, assets, assets)
    case 3 => Published(true, false, c.source, c.tag, 1, 1, 2)
    case 4 =>
      Materialized("success", c.tag, c.source, PagesRun(1, commit, "https://github.com/", "https://", hash),
        CoordinatorRun(1, 1, commit, "release-transaction-" + PyStr(c.tag) + "-" + commit, "sha256:" + hash, hash,
          "https://github.com/"))
    case _ =>
      Browsed("success", c.tag, c.source,
        BrowserRun(1, 1, "https://github.com/" + PyStr(c.repository) + "/actions/runs/" + IntText(1), c.source,
          "browser-verification-candidate-" + IntText(1), "sha256:" + hash),
        BrowserFiles(hash, hash, hash, hash, hash, PyStr(c.pagesReceipt), "assets/offline-judge." + hash + ".js",
          "sha256-" + rt.scriptIntegrity(hash)),
        BrowserResult(true, "chromium", true, "CANDIDATE_PASS", STATES[4], 39, 0, 0, "https://"))
  }

  function EvidenceFor(rt: Runtime, i: nat, c: Context, assets: Assets): Dict { Filled(Sample(rt, i, c, assets)) }

  lemma ZerosPrefixed()
    ensures IsPrefixed("sha256:" + Zeros(64))
  {
    assert ("sha256:" + Zeros(64))[7..] == Zeros(64);
  }

  lemma SampleProves(rt: Runtime, i: nat, c: Context, assets: Assets)
    requires i < |STATES| && GoodContext(c) && (i in {0, 2} ==> GoodAssets(rt, assets, c.envelope.s))
    ensures StageOf(Sample(rt, i, c, assets)) == i && Proves(rt, c, Sample(rt, i, c, assets))
    ensures SafeSighting(rt, Sample(rt, i, c, assets))
  {
    hide IsHex, IsPrefixed, PyEq, IntText;
    ZerosPrefixed();
    PyEqReflexive(rt, c.source);
    PyEqReflexive(rt, c.tag);
  }

  /** No receipt is stuck for want of evidence: for each state some evidence passes. */
  lemma EvidencePasses(rt: Runtime, i: nat, c: Context, assets: Assets)
    requires i < |STATES| && GoodContext(c) && (i in {0, 2} ==> GoodAssets(rt, assets, c.envelope.s))
    requires FieldsSafe(rt)
    ensures ValidEvidence(rt, STATES[i], EvidenceFor(rt, i, c, assets), c)
  {
    hide GoodAssets, Safe, ValidEvidence, Sample, Filled, Says, Proves, SafeSighting, FieldsSafe;
    SampleProves(rt, i, c, assets);
    var w := Sample(rt, i, c, assets);
    FilledSays(w);
    FilledIsSafe(rt, w);
    SightingDecides(rt, EvidenceFor(rt, i, c, assets), w, c);
  }
}
