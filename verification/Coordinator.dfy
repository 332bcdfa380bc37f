/** scripts/release_transaction_coordinator.py: receipts, their evidence, and the transitions. */
module Coordinator {
  import opened Decimal
  import opened Json
  import opened PythonValues

  const KIND := "continuum.release-transaction"
  const ENVELOPE := "continuum-release-envelope-v2.json"
  const STATES: seq<string> := [
    "PREPARED", "AUTHOR_ATTESTED", "ASSETS_UPLOADED", "IMMUTABLE", "PAGES_MATERIALIZED", "BROWSER_VERIFIED"]

  // ---- identity patterns

  predicate IsTagChar(c: char) {
    IsDigit(c) || 'a' <= c <= 'z' || 'A' <= c <= 'Z' || c == '_' || c == '.' || c == '-'
  }

  predicate IsTag(s: string) { s != [] && forall i :: 0 <= i < |s| ==> IsTagChar(s[i]) }

  predicate IsRepository(s: string) {
    exists i :: 0 < i < |s| && s[i] == '/' && IsTag(s[..i]) && IsTag(s[i + 1..])
  }

  /** A repository is an owner and a name. */
  lemma RepositoryIsTwoNames(s: string)
    ensures IsRepository(s) <==> exists owner, name :: IsTag(owner) && IsTag(name) && s == owner + "/" + name
  {
    hide IsTag;
    if IsRepository(s) {
      var i :| 0 < i < |s| && s[i] == '/' && IsTag(s[..i]) && IsTag(s[i + 1..]);
      assert s == s[..i] + "/" + s[i + 1..];
    }
    if owner, name :| IsTag(owner) && IsTag(name) && s == owner + "/" + name {
      TagIsNotEmpty(owner);
      assert s[..|owner|] == owner && s[|owner| + 1..] == name && s[|owner|] == '/';
    }
  }

  lemma TagIsNotEmpty(s: string)
    requires IsTag(s)
    ensures |s| > 0
  {
  }

  // ---- evidence

  /** _require_safe_evidence: no key, at any depth, names a secret. */
  predicate Safe(rt: Runtime, j: Json)
    decreases j
  {
    match j
    case Obj(m) => forall k :: k in m ==> !rt.sensitive(k) && Safe(rt, m[k])
    case Arr(items) => forall i :: 0 <= i < |items| ==> Safe(rt, items[i])
    case _ => true
  }

  predicate IsAssetName(s: string) { s != "" && '/' !in s && '\\' !in s }

  /** _require_digest_map: asset names to digests, or an error. */
  function DigestMap(j: Json): Option<map<string, string>> {
    if j.Obj? && j.members != map[] && forall k :: k in j.members ==> IsAssetName(k) && IsSha256(PyStr(j.members[k]))
    then Some(map k | k in j.members :: PyStr(j.members[k]))
    else None
  }

  predicate BindsEnvelope(rt: Runtime, digests: map<string, string>, envelope: Json) {
    PyEq(rt, if ENVELOPE in digests then Str(digests[ENVELOPE]) else Null, envelope)
  }

  /** The receipt fields evidence is checked against. */
  datatype Context = Context(repository: Json, tag: Json, source: Json, envelope: Json, pagesReceipt: Json)

  function ContextOf(r: Dict): Context {
    Context(
      Get(r, "repository"), Get(r, "release_tag"), Get(r, "source_digest"), Get(r, "envelope_sha256"),
      if Get(r, "state") == Str("BROWSER_VERIFIED") then Get(r, "previous_receipt_sha256")
      else Get(r, "receipt_sha256"))
  }

  predicate PreparedEvidence(rt: Runtime, ev: Dict, c: Context) {
    && IntAtLeast(rt, GetOr(ev, "release_id", Int(0)), 1)
    && Get(ev, "release_draft") == Bool(true)
    && PyEq(rt, Get(ev, "release_target"), c.source)
    && PyEq(rt, Get(ev, "envelope_sha256"), c.envelope)
    && var digests := DigestMap(Get(ev, "expected_asset_digests"));
       digests.Some? && BindsEnvelope(rt, digests.value, c.envelope)
  }

  predicate AuthorEvidence(rt: Runtime, ev: Dict, c: Context) {
    && PyEq(rt, Get(ev, "author_attestation_count"), Int(1))
    && IsSha256(PyStr(Get(ev, "author_bundle_sha256")))
    && Get(ev, "signer_workflow") == Str(PyStr(c.repository) + "/.github/workflows/release-envelope.yml")
    && Get(ev, "source_ref") == Str("refs/heads/main")
    && Get(ev, "rekor_log") == Str("https://rekor.sigstore.dev")
  }

  predicate AssetsEvidence(rt: Runtime, ev: Dict, c: Context) {
    var expected := DigestMap(Get(ev, "expected_asset_digests"));
    var observed := DigestMap(Get(ev, "observed_asset_digests"));
    && expected.Some? && expected == observed
    && BindsEnvelope(rt, expected.value, c.envelope)
    && Get(ev, "release_draft") == Bool(true)
  }

  predicate ImmutableEvidence(rt: Runtime, ev: Dict, c: Context) {
    && Get(ev, "immutable") == Bool(true)
    && Get(ev, "release_draft") == Bool(false)
    && PyEq(rt, Get(ev, "release_target"), c.source)
    && PyEq(rt, Get(ev, "release_tag"), c.tag)
    && PyEq(rt, Get(ev, "author_attestation_count"), Int(1))
    && PyEq(rt, Get(ev, "platform_attestation_count"), Int(1))
    && PyEq(rt, Get(ev, "total_attestation_count"), Int(2))
  }

  predicate StartsWith(j: Json, prefix: string) { prefix <= PyStr(j) }

  predicate PrefixedDigest(j: Json) {
    var s := PyStr(j);
    "sha256:" <= s && IsSha256(s[7..])
  }

  predicate PagesCoordinatorEvidence(rt: Runtime, ev: Dict, c: Context) {
    var source := PyStr(GetOr(ev, "coordinator_source_digest", Str("")));
    && IntAtLeast(rt, GetOr(ev, "coordinator_workflow_run_id", Int(0)), 1)
    && IntAtLeast(rt, GetOr(ev, "coordinator_artifact_id", Int(0)), 1)
    && IsSha1(source)
    && Get(ev, "coordinator_artifact_name") == Str("release-transaction-" + PyStr(c.tag) + "-" + source)
    && PrefixedDigest(GetOr(ev, "coordinator_artifact_digest", Str("")))
    && IsSha256(PyStr(GetOr(ev, "coordinator_receipt_sha256", Str(""))))
    && StartsWith(GetOr(ev, "coordinator_workflow_url", Str("")), "https://github.com/")
  }

  predicate PagesDeploymentEvidence(rt: Runtime, ev: Dict, c: Context) {
    && Get(ev, "status") == Str("success")
    && IntAtLeast(rt, GetOr(ev, "pages_workflow_run_id", Int(0)), 1)
    && IsSha1(PyStr(GetOr(ev, "pages_source_digest", Str(""))))
    && StartsWith(GetOr(ev, "pages_workflow_url", Str("")), "https://github.com/")
    && StartsWith(GetOr(ev, "public_receipt_url", Str("")), "https://")
    && PyEq(rt, Get(ev, "release_tag"), c.tag)
    && PyEq(rt, Get(ev, "release_target"), c.source)
    && IsSha256(PyStr(Get(ev, "public_bundle_sha256")))
  }

  predicate PagesEvidence(rt: Runtime, ev: Dict, c: Context) {
    PagesCoordinatorEvidence(rt, ev, c) && PagesDeploymentEvidence(rt, ev, c)
  }

  predicate BrowserRunEvidence(rt: Runtime, ev: Dict, c: Context) {
    var run := PyInt(rt, GetOr(ev, "browser_workflow_run_id", Int(0)));
    && Get(ev, "status") == Str("success")
    && run.Some? && run.value >= 1
    && IntAtLeast(rt, GetOr(ev, "browser_artifact_id", Int(0)), 1)
    && Get(ev, "browser_workflow_url")
         == Str("https://github.com/" + PyStr(c.repository) + "/actions/runs/" + IntText(run.value))
    && PyEq(rt, Get(ev, "browser_source_digest"), c.source)
    && Get(ev, "browser_artifact_name") == Str("browser-verification-candidate-" + IntText(run.value))
    && PrefixedDigest(GetOr(ev, "browser_artifact_digest", Str("")))
  }

  predicate BrowserDigestEvidence(rt: Runtime, ev: Dict, c: Context) {
    && IsSha256(PyStr(Get(ev, "browser_receipt_sha256")))
    && IsSha256(PyStr(Get(ev, "screenshot_sha256")))
    && IsSha256(PyStr(Get(ev, "network_receipt_sha256")))
    && IsSha256(PyStr(Get(ev, "console_receipt_sha256")))
    && IsSha256(PyStr(Get(ev, "script_sha256")))
    && IsSha256(PyStr(Get(ev, "pages_receipt_sha256")))
    && PyEq(rt, Get(ev, "pages_receipt_sha256"), c.pagesReceipt)
  }

  predicate BrowserScriptEvidence(rt: Runtime, ev: Dict) {
    var script := PyStr(GetOr(ev, "script_sha256", Str("")));
    && Get(ev, "script_asset_name") == Str("assets/offline-judge." + script + ".js")
    && Get(ev, "script_integrity") == Str("sha256-" + rt.scriptIntegrity(script))
  }

  predicate BrowserResultEvidence(rt: Runtime, ev: Dict, c: Context) {
    && Get(ev, "browser_context_fresh") == Bool(true)
    && Get(ev, "browser_engine") == Str("chromium")
    && Get(ev, "headless") == Bool(true)
    && Get(ev, "candidate_status") == Str("CANDIDATE_PASS")
    && Get(ev, "candidate_transaction_state") == Str("PAGES_MATERIALIZED")
    && (IntIs(rt, GetOr(ev, "ui_check_count", Int(0)), 38) || IntIs(rt, GetOr(ev, "ui_check_count", Int(0)), 39))
    && IntIs(rt, GetOr(ev, "github_api_requests", Int(-1)), 0)
    && IntIs(rt, GetOr(ev, "console_error_count", Int(-1)), 0)
    && PyEq(rt, Get(ev, "release_tag"), c.tag)
    && PyEq(rt, Get(ev, "release_target"), c.source)
    && StartsWith(GetOr(ev, "public_verifier_url", Str("")), "https://")
  }

  predicate BrowserEvidence(rt: Runtime, ev: Dict, c: Context) {
    && BrowserRunEvidence(rt, ev, c)
    && BrowserDigestEvidence(rt, ev, c)
    && BrowserScriptEvidence(rt, ev)
    && BrowserResultEvidence(rt, ev, c)
  }

  /** _validate_evidence. */
  predicate ValidEvidence(rt: Runtime, state: string, ev: Dict, c: Context) {
    && Safe(rt, Obj(ev))
    && if state == STATES[0] then PreparedEvidence(rt, ev, c)
       else if state == STATES[1] then AuthorEvidence(rt, ev, c)
       else if state == STATES[2] then AssetsEvidence(rt, ev, c)
       else if state == STATES[3] then ImmutableEvidence(rt, ev, c)
       else if state == STATES[4] then PagesEvidence(rt, ev, c)
       else state == STATES[5] && BrowserEvidence(rt, ev, c)
  }

  // ---- receipts

  function IdentityBody(repository: string, tag: string, source: string, envelope: string): Json {
    Obj(map[
      "kind" := Str(KIND),
      "repository" := Str(repository),
      "release_tag" := Str(tag),
      "source_digest" := Str(source),
      "envelope_sha256" := Str(envelope)])
  }

  /** transaction_id. */
  function TransactionId(rt: Runtime, repository: string, tag: string, source: string, envelope: string): string {
    rt.digest(IdentityBody(repository, tag, source, envelope))
  }

  function ReceiptDigest(rt: Runtime, r: Dict): Hex64 { rt.digest(Obj(r - {"receipt_sha256"})) }

  function EventDigest(rt: Runtime, event: Dict): Hex64 { rt.digest(Obj(event - {"event_sha256"})) }

  /** _event. */
  function Event(rt: Runtime, state: string, ev: Dict, observedAt: string, previous: Json): Json {
    var base: Dict := map[
      "state" := Str(state),
      "observed_at" := Str(observedAt),
      "previous_event_sha256" := previous,
      "evidence" := Obj(ev),
      "evidence_sha256" := Str(rt.digest(Obj(ev)))];
    Obj(base["event_sha256" := Str(rt.digest(Obj(base)))])
  }

  predicate ValidIdentity(rt: Runtime, r: Dict) {
    var repository := PyStr(GetOr(r, "repository", Str("")));
    var tag := PyStr(GetOr(r, "release_tag", Str("")));
    var source := PyStr(GetOr(r, "source_digest", Str("")));
    var envelope := PyStr(GetOr(r, "envelope_sha256", Str("")));
    && PyEq(rt, Get(r, "schema_version"), Int(1))
    && Get(r, "kind") == Str(KIND)
    && IsRepository(repository) && IsTag(tag) && IsSha1(source) && IsSha256(envelope)
    && Get(r, "transaction_id") == Str(TransactionId(rt, repository, tag, source, envelope))
  }

  /** One event of a receipt: state name, checked evidence, link to its predecessor, own digest. */
  predicate ValidEvent(rt: Runtime, c: Context, event: Json, state: string, previous: Json) {
    && event.Obj?
    && Get(event.members, "state") == Str(state)
    && Get(event.members, "evidence").Obj?
    && ValidEvidence(rt, state, Get(event.members, "evidence").members, c)
    && Get(event.members, "previous_event_sha256") == previous
    && Get(event.members, "evidence_sha256") == Str(rt.digest(Get(event.members, "evidence")))
    && Get(event.members, "event_sha256") == Str(EventDigest(rt, event.members))
  }

  /** The digest event i must point back to. */
  function PreviousOf(events: seq<Json>, i: nat): Json
    requires i <= |events|
  {
    if i == 0 then Null
    else if events[i - 1].Obj? then Get(events[i - 1].members, "event_sha256")
    else Null
  }

  predicate ValidEvents(rt: Runtime, c: Context, events: seq<Json>) {
    && 1 <= |events| <= |STATES|
    && forall i :: 0 <= i < |events| ==> ValidEvent(rt, c, events[i], STATES[i], PreviousOf(events, i))
  }

  function EventsOf(r: Dict): seq<Json> {
    if Get(r, "events").Arr? then Get(r, "events").items else []
  }

  /** verify_receipt. */
  predicate Verified(rt: Runtime, r: Dict) {
    var events := EventsOf(r);
    && ValidIdentity(rt, r)
    && ValidEvents(rt, ContextOf(r), events)
    && IntIs(rt, GetOr(r, "revision", Int(-1)), |events| - 1)
    && Get(r, "state") == Str(STATES[|events| - 1])
    && Get(r, "receipt_sha256") == Str(ReceiptDigest(rt, r))
  }

  function Seal(rt: Runtime, r: Dict): Dict { r["receipt_sha256" := Str(ReceiptDigest(rt, r))] }

  /** What a transaction is about; every field is text, as initialize_receipt declares. */
  datatype Intent = Intent(repository: string, tag: string, source: string, envelope: string)

  predicate ValidIntent(x: Intent) {
    IsRepository(x.repository) && IsTag(x.tag) && IsSha1(x.source) && IsSha256(x.envelope)
  }

  function Draft(rt: Runtime, x: Intent): Dict {
    map[
      "schema_version" := Int(1),
      "kind" := Str(KIND),
      "transaction_id" := Str(TransactionId(rt, x.repository, x.tag, x.source, x.envelope)),
      "repository" := Str(x.repository),
      "release_tag" := Str(x.tag),
      "source_digest" := Str(x.source),
      "envelope_sha256" := Str(x.envelope),
      "state" := Str(STATES[0]),
      "revision" := Int(0),
      "previous_receipt_sha256" := Null,
      "events" := Arr([])]
  }

  predicate CanInitialize(rt: Runtime, x: Intent, ev: Dict) {
    ValidIntent(x) && ValidEvidence(rt, STATES[0], ev, ContextOf(Draft(rt, x)))
  }

  function Initialized(rt: Runtime, x: Intent, ev: Dict, observedAt: string): Dict {
    Seal(rt, Draft(rt, x)["events" := Arr([Event(rt, STATES[0], ev, observedAt, Null)])])
  }

  /** initialize_receipt: None is any raised error, the closing verify_receipt included. */
  function Initialize(rt: Runtime, x: Intent, ev: Dict, observedAt: string): Option<Dict> {
    if !CanInitialize(rt, x, ev) then None
    else
      var r := Initialized(rt, x, ev, observedAt);
      if Verified(rt, r) then Some(r) else None
  }

  predicate CanAdvance(rt: Runtime, r: Dict, toState: string, ev: Dict) {
    && Verified(rt, r)
    && |EventsOf(r)| < |STATES| && toState == STATES[|EventsOf(r)|]
    && ValidEvidence(rt, toState, ev, ContextOf(r))
  }

  function Advanced(rt: Runtime, r: Dict, toState: string, ev: Dict, observedAt: string): Dict {
    var events := EventsOf(r);
    var revision := PyInt(rt, Get(r, "revision"));
    Seal(rt, (r - {"receipt_sha256"})[
      "state" := Str(toState)][
      "revision" := Int(if revision.Some? then revision.value + 1 else 0)][
      "previous_receipt_sha256" := Get(r, "receipt_sha256")][
      "events" := Arr(events + [Event(rt, toState, ev, observedAt, PreviousOf(events, |events|))])])
  }

  /** advance_receipt. */
  function Advance(rt: Runtime, r: Dict, toState: string, ev: Dict, observedAt: string): Option<Dict> {
    if !CanAdvance(rt, r, toState, ev) then None
    else
      var advanced := Advanced(rt, r, toState, ev, observedAt);
      if Verified(rt, advanced) then Some(advanced) else None
  }
}
