/** What evidence must say, on typed observations instead of untyped JSON. */
module Observations {
  import opened Decimal
  import opened Json
  import opened PythonValues
  import opened Coordinator

  type Assets = map<string, string>

  /** The digests of a release's assets as the provider reports them. */
  function AssetTable(assets: Assets): (j: Json)
    ensures j.Obj? && j.members.Keys == assets.Keys
  {
    Obj(map k | k in assets :: Str(assets[k]))
  }

  datatype PagesRun = PagesRun(runId: int, source: string, url: string, receiptUrl: string, bundle: string)

  datatype CoordinatorRun = CoordinatorRun(
    runId: int, artifactId: int, source: string, artifactName: string, artifactDigest: string, receipt: string,
    url: string)

  datatype BrowserRun = BrowserRun(
    runId: int, artifactId: int, url: string, source: Json, artifactName: string, artifactDigest: string)

  datatype BrowserFiles = BrowserFiles(
    receipt: string, screenshot: string, network: string, console: string, script: string, pagesReceipt: string,
    scriptName: string, scriptIntegrity: string)

  datatype BrowserResult = BrowserResult(
    clean: bool, engine: string, headless: bool, candidate: string, state: string, checks: int, apiRequests: int,
    consoleErrors: int, verifierUrl: string)

  /** What the workflow saw, state by state. Tag and commit are compared with the receipt's, which may be
      numbers. */
  datatype Sighting =
    | Drafted(releaseId: int, draft: bool, target: Json, envelope: string, expected: Assets)
    | Signed(authors: int, bundle: string, workflow: string, ref: string, log: string)
    | Uploaded(draft: bool, expected: Assets, observed: Assets)
    | Published(immutable: bool, draft: bool, target: Json, tag: Json, authors: int, platforms: int, total: int)
    | Materialized(status: string, tag: Json, target: Json, pages: PagesRun, coordinator: CoordinatorRun)
    | Browsed(status: string, tag: Json, target: Json, run: BrowserRun, files: BrowserFiles, result: BrowserResult)

  function StageOf(w: Sighting): (i: nat)
    ensures i < |STATES|
  {
    match w
    case Drafted(_, _, _, _, _) => 0
    case Signed(_, _, _, _, _) => 1
    case Uploaded(_, _, _) => 2
    case Published(_, _, _, _, _, _, _) => 3
    case Materialized(_, _, _, _, _) => 4
    case Browsed(_, _, _, _, _, _) => 5
  }

  predicate Field(ev: Dict, k: string, v: Json) { k in ev && ev[k] == v }

  predicate SaysPages(ev: Dict, p: PagesRun) {
    && Field(ev, "pages_workflow_run_id", Int(p.runId)) && Field(ev, "pages_source_digest", Str(p.source))
    && Field(ev, "pages_workflow_url", Str(p.url)) && Field(ev, "public_receipt_url", Str(p.receiptUrl))
    && Field(ev, "public_bundle_sha256", Str(p.bundle))
  }

  predicate SaysCoordinator(ev: Dict, k: CoordinatorRun) {
    && Field(ev, "coordinator_workflow_run_id", Int(k.runId))
    && Field(ev, "coordinator_artifact_id", Int(k.artifactId))
    && Field(ev, "coordinator_source_digest", Str(k.source))
    && Field(ev, "coordinator_artifact_name", Str(k.artifactName))
    && Field(ev, "coordinator_artifact_digest", Str(k.artifactDigest))
    && Field(ev, "coordinator_receipt_sha256", Str(k.receipt))
    && Field(ev, "coordinator_workflow_url", Str(k.url))
  }

  predicate SaysRun(ev: Dict, b: BrowserRun) {
    && Field(ev, "browser_workflow_run_id", Int(b.runId)) && Field(ev, "browser_artifact_id", Int(b.artifactId))
    && Field(ev, "browser_workflow_url", Str(b.url)) && Field(ev, "browser_source_digest", b.source)
    && Field(ev, "browser_artifact_name", Str(b.artifactName))
    && Field(ev, "browser_artifact_digest", Str(b.artifactDigest))
  }

  predicate SaysFiles(ev: Dict, f: BrowserFiles) {
    && Field(ev, "browser_receipt_sha256", Str(f.receipt)) && Field(ev, "screenshot_sha256", Str(f.screenshot))
    && Field(ev, "network_receipt_sha256", Str(f.network)) && Field(ev, "console_receipt_sha256", Str(f.console))
    && Field(ev, "script_sha256", Str(f.script)) && Field(ev, "pages_receipt_sha256", Str(f.pagesReceipt))
    && Field(ev, "script_asset_name", Str(f.scriptName)) && Field(ev, "script_integrity", Str(f.scriptIntegrity))
  }

  predicate SaysResult(ev: Dict, b: BrowserResult) {
    && Field(ev, "browser_context_fresh", Bool(b.clean)) && Field(ev, "browser_engine", Str(b.engine))
    && Field(ev, "headless", Bool(b.headless)) && Field(ev, "candidate_status", Str(b.candidate))
    && Field(ev, "candidate_transaction_state", Str(b.state)) && Field(ev, "ui_check_count", Int(b.checks))
    && Field(ev, "github_api_requests", Int(b.apiRequests)) && Field(ev, "console_error_count", Int(b.consoleErrors))
    && Field(ev, "public_verifier_url", Str(b.verifierUrl))
  }

  predicate SaysRelease(ev: Dict, status: string, tag: Json, target: Json) {
    Field(ev, "status", Str(status)) && Field(ev, "release_tag", tag) && Field(ev, "release_target", target)
  }

  /** The evidence says what was seen, whatever else it says. */
  predicate Says(ev: Dict, w: Sighting) {
    match w
    case Drafted(releaseId, draft, target, envelope, expected) =>
      && Field(ev, "release_id", Int(releaseId)) && Field(ev, "release_draft", Bool(draft))
      && Field(ev, "release_target", target) && Field(ev, "envelope_sha256", Str(envelope))
      && Field(ev, "expected_asset_digests", AssetTable(expected))
    case Signed(authors, bundle, workflow, ref, log) =>
      && Field(ev, "author_attestation_count", Int(authors)) && Field(ev, "author_bundle_sha256", Str(bundle))
      && Field(ev, "signer_workflow", Str(workflow)) && Field(ev, "source_ref", Str(ref))
      && Field(ev, "rekor_log", Str(log))
    case Uploaded(draft, expected, observed) =>
      && Field(ev, "release_draft", Bool(draft)) && Field(ev, "expected_asset_digests", AssetTable(expected))
      && Field(ev, "observed_asset_digests", AssetTable(observed))
    case Published(immutable, draft, target, tag, authors, platforms, total) =>
      && Field(ev, "immutable", Bool(immutable)) && Field(ev, "release_draft", Bool(draft))
      && Field(ev, "release_target", target) && Field(ev, "release_tag", tag)
      && Field(ev, "author_attestation_count", Int(authors))
      && Field(ev, "platform_attestation_count", Int(platforms)) && Field(ev, "total_attestation_count", Int(total))
    case Materialized(status, tag, target, pages, coordinator) =>
      SaysRelease(ev, status, tag, target) && SaysPages(ev, pages) && SaysCoordinator(ev, coordinator)
    case Browsed(status, tag, target, run, files, result) =>
      && SaysRelease(ev, status, tag, target) && SaysRun(ev, run) && SaysFiles(ev, files) && SaysResult(ev, result)
  }

  // ---- what counts as proof of each state

  predicate BindsRelease(assets: Assets, envelope: Json) {
    && ENVELOPE in assets && Str(assets[ENVELOPE]) == envelope
    && forall k :: k in assets ==> PlainName(k) && IsSha256(assets[k])
  }

  predicate PlainName(s: string) { |s| > 0 && forall i :: 0 <= i < |s| ==> s[i] != '/' && s[i] != '\\' }

  predicate IsPrefixed(s: string) { |s| == 71 && s[..7] == "sha256:" && IsSha256(s[7..]) }

  predicate ProvesPages(p: PagesRun) {
    && p.runId >= 1 && IsSha1(p.source) && IsSha256(p.bundle)
    && "https://github.com/" <= p.url && "https://" <= p.receiptUrl
  }

  predicate ProvesCoordinator(c: Context, k: CoordinatorRun) {
    && k.runId >= 1 && k.artifactId >= 1 && IsSha1(k.source) && IsSha256(k.receipt) && IsPrefixed(k.artifactDigest)
    && k.artifactName == "release-transaction-" + PyStr(c.tag) + "-" + k.source
    && "https://github.com/" <= k.url
  }

  predicate ProvesRun(rt: Runtime, c: Context, b: BrowserRun) {
    && b.runId >= 1 && b.artifactId >= 1 && PyEq(rt, b.source, c.source) && IsPrefixed(b.artifactDigest)
    && b.url == "https://github.com/" + PyStr(c.repository) + "/actions/runs/" + IntText(b.runId)
    && b.artifactName == "browser-verification-candidate-" + IntText(b.runId)
  }

  predicate ProvesFiles(rt: Runtime, c: Context, f: BrowserFiles) {
    && IsSha256(f.receipt) && IsSha256(f.screenshot) && IsSha256(f.network) && IsSha256(f.console)
    && IsSha256(f.script) && IsSha256(f.pagesReceipt) && Str(f.pagesReceipt) == c.pagesReceipt
    && f.scriptName == "assets/offline-judge." + f.script + ".js"
    && f.scriptIntegrity == "sha256-" + rt.scriptIntegrity(f.script)
  }

  predicate ProvesResult(b: BrowserResult) {
    && b.clean && b.engine == "chromium" && b.headless
    && b.candidate == "CANDIDATE_PASS" && b.state == "PAGES_MATERIALIZED"
    && 38 <= b.checks <= 39 && b.apiRequests == 0 && b.consoleErrors == 0
    && "https://" <= b.verifierUrl
  }

  predicate OfRelease(rt: Runtime, c: Context, tag: Json, target: Json) {
    PyEq(rt, tag, c.tag) && PyEq(rt, target, c.source)
  }

  /** What must have been seen of a release for its next state to be recorded. */
  predicate Proves(rt: Runtime, c: Context, w: Sighting) {
    match w
    case Drafted(releaseId, draft, target, envelope, expected) =>
      && releaseId >= 1 && draft && PyEq(rt, target, c.source) && Str(envelope) == c.envelope
      && BindsRelease(expected, c.envelope)
    case Signed(authors, bundle, workflow, ref, log) =>
      && authors == 1 && IsSha256(bundle) && ref == "refs/heads/main" && log == "https://rekor.sigstore.dev"
      && workflow == PyStr(c.repository) + "/.github/workflows/release-envelope.yml"
    case Uploaded(draft, expected, observed) => draft && observed == expected && BindsRelease(expected, c.envelope)
    case Published(immutable, draft, target, tag, authors, platforms, total) =>
      immutable && !draft && OfRelease(rt, c, tag, target) && authors == platforms == 1 && total == 2
    case Materialized(status, tag, target, pages, coordinator) =>
      status == "success" && OfRelease(rt, c, tag, target) && ProvesPages(pages) && ProvesCoordinator(c, coordinator)
    case Browsed(status, tag, target, run, files, result) =>
      && status == "success" && OfRelease(rt, c, tag, target)
      && ProvesRun(rt, c, run) && ProvesFiles(rt, c, files) && ProvesResult(result)
  }

  // ---- the check on JSON agrees

  lemma PlainNames()
    ensures forall k :: IsAssetName(k) <==> PlainName(k)
  {
  }

  lemma TableReads(assets: Assets)
    ensures var d := DigestMap(AssetTable(assets));
      d == if assets != map[] && forall k :: k in assets ==> IsAssetName(k) && IsSha256(assets[k])
           then Some(assets) else None
    ensures forall k :: IsAssetName(k) <==> PlainName(k)
  {
    PlainNames();
    hide IsAssetName, IsHex, PlainName;
    var table := AssetTable(assets).members;
    assert table == map[] <==> assets == map[] by {
      if assets == map[] { assert table.Keys == {}; }
      if table == map[] { assert assets.Keys == {}; }
    }
    forall k | k in assets ensures table[k] == Str(assets[k]) {}
    assert (map k | k in table :: PyStr(table[k])) == assets;
  }

  lemma PrefixedReads(s: string)
    ensures PrefixedDigest(Str(s)) <==> IsPrefixed(s)
  {
  }

  lemma DraftedDecides(rt: Runtime, ev: Dict, w: Sighting, c: Context)
    requires Says(ev, w) && w.Drafted?
    ensures PreparedEvidence(rt, ev, c) <==> Proves(rt, c, w)
  {
    hide DigestMap, AssetTable, IsAssetName, IsHex, PlainName;
    TableReads(w.expected);
  }

  lemma SignedDecides(rt: Runtime, ev: Dict, w: Sighting, c: Context)
    requires Says(ev, w) && w.Signed?
    ensures AuthorEvidence(rt, ev, c) <==> Proves(rt, c, w)
  {
    hide IsHex;
  }

  lemma UploadedDecides(rt: Runtime, ev: Dict, w: Sighting, c: Context)
    requires Says(ev, w) && w.Uploaded? && c.envelope.Str?
    ensures AssetsEvidence(rt, ev, c) <==> Proves(rt, c, w)
  {
    hide DigestMap, AssetTable, IsAssetName, IsHex, PlainName;
    TableReads(w.expected);
    TableReads(w.observed);
  }

  lemma PublishedDecides(rt: Runtime, ev: Dict, w: Sighting, c: Context)
    requires Says(ev, w) && w.Published?
    ensures ImmutableEvidence(rt, ev, c) <==> Proves(rt, c, w)
  {
  }

  lemma PagesDecide(rt: Runtime, ev: Dict, w: Sighting, c: Context)
    requires Says(ev, w) && w.Materialized?
    ensures PagesDeploymentEvidence(rt, ev, c)
        <==> w.status == "success" && OfRelease(rt, c, w.tag, w.target) && ProvesPages(w.pages)
  {
    hide IsHex, SaysCoordinator;
  }

  lemma CoordinatorDecides(rt: Runtime, ev: Dict, w: Sighting, c: Context)
    requires Says(ev, w) && w.Materialized?
    ensures PagesCoordinatorEvidence(rt, ev, c) <==> ProvesCoordinator(c, w.coordinator)
  {
    hide IsHex, SaysPages, SaysRelease, PrefixedDigest, IsPrefixed;
    PrefixedReads(w.coordinator.artifactDigest);
  }

  lemma RunDecides(rt: Runtime, ev: Dict, w: Sighting, c: Context)
    requires Says(ev, w) && w.Browsed?
    ensures BrowserRunEvidence(rt, ev, c) <==> w.status == "success" && ProvesRun(rt, c, w.run)
  {
    hide IsHex, SaysFiles, SaysResult, PrefixedDigest, IsPrefixed, IntText, PyEq;
    PrefixedReads(w.run.artifactDigest);
  }

  lemma FilesDecide(rt: Runtime, ev: Dict, w: Sighting, c: Context)
    requires Says(ev, w) && w.Browsed?
    ensures BrowserDigestEvidence(rt, ev, c) && BrowserScriptEvidence(rt, ev)
        <==> ProvesFiles(rt, c, w.files)
  {
    hide IsHex, SaysRun, SaysResult, SaysRelease;
  }

  lemma ResultDecides(rt: Runtime, ev: Dict, w: Sighting, c: Context)
    requires Says(ev, w) && w.Browsed?
    ensures BrowserResultEvidence(rt, ev, c) <==> OfRelease(rt, c, w.tag, w.target) && ProvesResult(w.result)
  {
    hide SaysRun, SaysFiles, PyEq;
  }

  /** Evidence is accepted for a state exactly when what it says was seen proves that state of the release, and
      it names no secret. */
  lemma SightingDecides(rt: Runtime, ev: Dict, w: Sighting, c: Context)
    requires Says(ev, w) && c.envelope.Str?
    ensures ValidEvidence(rt, STATES[StageOf(w)], ev, c) <==> Safe(rt, Obj(ev)) && Proves(rt, c, w)
  {
    hide Says, Safe, PreparedEvidence, AuthorEvidence, AssetsEvidence, ImmutableEvidence, BrowserRunEvidence,
      BrowserDigestEvidence, BrowserScriptEvidence, BrowserResultEvidence, PagesCoordinatorEvidence,
      PagesDeploymentEvidence, ProvesPages, ProvesCoordinator, ProvesRun, ProvesFiles, ProvesResult, BindsRelease,
      IsHex;
    match w
    case Drafted(_, _, _, _, _) => DraftedDecides(rt, ev, w, c);
    case Signed(_, _, _, _, _) => SignedDecides(rt, ev, w, c);
    case Uploaded(_, _, _) => UploadedDecides(rt, ev, w, c);
    case Published(_, _, _, _, _, _, _) => PublishedDecides(rt, ev, w, c);
    case Materialized(_, _, _, _, _) =>
      PagesDecide(rt, ev, w, c);
      CoordinatorDecides(rt, ev, w, c);
    case Browsed(_, _, _, _, _, _) =>
      RunDecides(rt, ev, w, c);
      FilesDecide(rt, ev, w, c);
      ResultDecides(rt, ev, w, c);
  }
}
