/** From a transaction to an accepted envelope: what a capsule says of the release it was built from, and which
    envelopes of which releases it can travel in. */
module CapsulePath {
  import opened Json
  import opened PythonValues
  import opened Capsule
  import opened Envelope
  import opened OldSchemas
  import opened RelayChains
  import opened VerifiedCapsules
  import B = CapsuleBuilder
  import Cap = Capsulation
  import C = Coordinator
  import T = TamperEvidence

  /** The capsule that build_capsule makes of its inputs. */
  function Made(rt: Runtime, i: B.Inputs): Dict { Seal(rt, B.Unsealed(rt, i)) }

  function PredecessorOf(c: Dict): Dict {
    if Section(c, "predecessor").Obj? then Section(c, "predecessor").members else map[]
  }

  // ---- what it says of the transaction

  /** Field f of the evidence of event n of a receipt. */
  function Recorded(r: Dict, n: nat, f: string): Json {
    var events := C.EventsOf(r);
    if n < |events| && events[n].Obj? && Get(events[n].members, "evidence").Obj?
    then Get(Get(events[n].members, "evidence").members, f) else Null
  }

  lemma StateOfEvent(rt: Runtime, r: Dict, n: nat)
    requires C.Verified(rt, r) && n < |C.EventsOf(r)|
    ensures n < |C.STATES| && C.EventsOf(r)[n].Obj?
    ensures Get(C.EventsOf(r)[n].members, "state") == Str(C.STATES[n])
    ensures Get(C.EventsOf(r)[n].members, "evidence").Obj? && "evidence" in C.EventsOf(r)[n].members
  {
    hide C.ValidEvidence, C.ValidIdentity, C.EventDigest, C.ReceiptDigest;
    T.EventHolds(rt, r, n);
  }

  /** Searching the events of a verified receipt for a state finds the one at its index. */
  lemma {:induction false} FoundAt(rt: Runtime, r: Dict, m: nat, n: nat)
    requires C.Verified(rt, r) && m <= n < |C.EventsOf(r)|
    ensures n < |C.STATES|
    ensures B.EvidenceOf(C.EventsOf(r)[m..], C.STATES[n]) == Get(C.EventsOf(r)[n].members, "evidence")
    decreases n - m
  {
    hide C.Verified, C.EventsOf;
    StateOfEvent(rt, r, n);
    StateOfEvent(rt, r, m);
    var events := C.EventsOf(r);
    assert events[m..][0] == events[m];
    if m < n {
      if C.STATES[m] == C.STATES[n] { T.StatesDistinct(m, n); }
      assert events[m..][1..] == events[m + 1..];
      FoundAt(rt, r, m + 1, n);
    }
  }

  lemma RecordedField(rt: Runtime, r: Dict, n: nat, f: string)
    requires C.Verified(rt, r) && n < |C.EventsOf(r)|
    ensures n < |C.STATES| && B.EvidenceField(C.EventsOf(r), C.STATES[n], f) == Recorded(r, n, f)
  {
    hide C.Verified, C.EventsOf, B.EvidenceOf;
    StateOfEvent(rt, r, n);
    FoundAt(rt, r, 0, n);
    assert C.EventsOf(r)[0..] == C.EventsOf(r);
  }

  lemma PredecessorReadsTag(rt: Runtime, i: B.Inputs)
    ensures var p := B.PredecessorJson(rt, i).members;
      && Get(p, "release_tag") == Get(B.Reference(i), "tag")
      && Get(p, "release_target") == Get(i.release, "target_commitish")
  {
    hide B.EnvelopeSha, B.Reference;
  }

  lemma PredecessorReadsDigests(rt: Runtime, i: B.Inputs)
    ensures var p := B.PredecessorJson(rt, i).members;
      && Get(p, "release_envelope_sha256") == Str(B.EnvelopeSha(rt, i))
      && Get(p, "transaction_receipt_sha256") == Get(i.transaction, "receipt_sha256")
  {
    hide B.EnvelopeSha, B.Reference;
  }

  lemma PredecessorReadsBundles(rt: Runtime, i: B.Inputs)
    ensures var p := B.PredecessorJson(rt, i).members;
      && Get(p, "author_bundle_sha256") == Str(rt.sha(i.authorBytes))
      && Get(p, "network_bundle_sha256") == Str(rt.sha(i.networkBytes))
  {
    hide B.EnvelopeSha, B.Reference;
  }

  lemma PredecessorReadsFiles(rt: Runtime, i: B.Inputs)
    ensures var p := B.PredecessorJson(rt, i).members;
      && Get(p, "transaction_file_sha256") == Str(rt.sha(i.transactionBytes))
      && Get(p, "evidence_sha256") == Str(rt.sha(i.evidenceBytes))
  {
    hide B.EnvelopeSha, B.Reference;
  }

  lemma MadePredecessor(rt: Runtime, i: B.Inputs)
    ensures PredecessorOf(Made(rt, i)) == B.PredecessorJson(rt, i).members
  {
    hide Seal, B.Unsealed, B.PredecessorJson, B.OnlineJson, B.UiRows, CompilerJson, UiSourcesJson, UiSources,
      RequestPolicy, B.GateJson;
    SealedParts(rt, i);
    EntrySections(rt, i);
  }

  /** What a capsule says of its predecessor is what this transaction says of itself. */
  predicate TellsOf(rt: Runtime, c: Dict, t: Dict) {
    var p := PredecessorOf(c);
    && PyEq(rt, Get(t, "release_tag"), Get(p, "release_tag"))
    && Get(p, "release_target") == Get(t, "source_digest")
    && Get(p, "release_envelope_sha256") == Get(t, "envelope_sha256")
    && Get(p, "transaction_receipt_sha256") == Get(t, "receipt_sha256")
    && Get(p, "author_bundle_sha256") == Recorded(t, 1, "author_bundle_sha256")
    && Get(p, "network_bundle_sha256") == Recorded(t, 4, "public_bundle_sha256")
  }

  /** What the built capsule says of its predecessor is what the transaction says of itself: tag, commit, envelope,
      receipt, and the bundles recorded when it was signed and when its pages went up. It is never the release
      the capsule is compiled for. */
  lemma NamesTransaction(rt: Runtime, i: B.Inputs)
    requires B.CanBuild(rt, i)
    ensures TellsOf(rt, Made(rt, i), i.transaction)
    ensures !PyEq(rt, Get(PredecessorOf(Made(rt, i)), "release_tag"), Str(i.compiler.releaseTag))
  {
    hide Made, B.PredecessorJson, B.AssetsPass, B.ReportPasses, B.ValidBuildCompiler, C.Verified, C.EventsOf,
      B.EvidenceField, B.EnvelopeSha, IsHex, Recorded;
    MadePredecessor(rt, i);
    PredecessorReadsTag(rt, i);
    PredecessorReadsDigests(rt, i);
    PredecessorReadsBundles(rt, i);
    LateEnough(rt, i.transaction);
    RecordedField(rt, i.transaction, 1, "author_bundle_sha256");
    RecordedField(rt, i.transaction, 4, "public_bundle_sha256");
  }

  lemma LateEnough(rt: Runtime, r: Dict)
    requires C.Verified(rt, r) && (Get(r, "state") == Str(C.STATES[4]) || Get(r, "state") == Str(C.STATES[5]))
    ensures |C.EventsOf(r)| >= 5
  {
    hide C.Verified, C.EventsOf;
    Cap.LateState(rt, r);
  }

  // ---- what it was built from

  predicate HasAssetName(rt: Runtime, items: seq<Json>, k: nat, name: Json) {
    k < |items| && items[k].Obj? && PyEq(rt, Get(items[k].members, "name"), name)
  }

  /** Of all listed assets only the one at k has the name. */
  ghost predicate OnlyAsset(rt: Runtime, items: seq<Json>, k: nat, name: Json) {
    HasAssetName(rt, items, k, name) && forall j: nat :: HasAssetName(rt, items, j, name) ==> j == k
  }

  lemma NamedInTail(rt: Runtime, items: seq<Json>, j: nat, name: Json)
    requires items != []
    ensures HasAssetName(rt, items, j + 1, name) == HasAssetName(rt, items[1..], j, name)
  {
    hide PyEq;
  }

  lemma {:induction false} NoneNamed(rt: Runtime, items: seq<Json>, name: Json)
    requires B.AssetsNamed(rt, items, name) == []
    ensures forall j: nat :: !HasAssetName(rt, items, j, name)
  {
    hide PyEq;
    if items != [] {
      NoneNamed(rt, items[1..], name);
      forall j: nat ensures !HasAssetName(rt, items, j, name) {
        if j > 0 { NamedInTail(rt, items, j - 1, name); }
      }
    }
  }

  lemma {:induction false} OneNamed(rt: Runtime, items: seq<Json>, name: Json) returns (k: nat)
    requires |B.AssetsNamed(rt, items, name)| == 1
    ensures OnlyAsset(rt, items, k, name) && items[k] == B.AssetsNamed(rt, items, name)[0]
  {
    hide PyEq;
    if B.IsAssetNamed(rt, items[0], name) {
      NoneNamed(rt, items[1..], name);
      k := 0;
      forall j: nat | HasAssetName(rt, items, j, name) ensures j == 0 {
        if j > 0 { NamedInTail(rt, items, j - 1, name); }
      }
    } else {
      var m := OneNamed(rt, items[1..], name);
      k := m + 1;
      forall j: nat | HasAssetName(rt, items, j, name) ensures j == k {
        if j > 0 { NamedInTail(rt, items, j - 1, name); }
      }
    }
  }

  function ListedAssets(release: Dict): seq<Json> {
    if Get(release, "assets").Arr? then Get(release, "assets").items else []
  }

  /** The release was published, immutable, under the tag of the evidence, each of the two bundles is its
      only asset of that name, with the digest that is recorded, and the compiler can be named. */
  ghost predicate BuiltFromPublished(rt: Runtime, i: B.Inputs, envelope: nat, author: nat) {
    var items := ListedAssets(i.release);
    && Get(i.release, "immutable") == Bool(true) && Get(i.release, "draft") == Bool(false)
    && PyEq(rt, Get(i.release, "tag_name"), Get(B.Reference(i), "tag"))
    && OnlyAsset(rt, items, envelope, Get(B.Reference(i), "asset_name"))
    && OnlyAsset(rt, items, author, B.AuthorAssetName(i))
    && Get(items[author].members, "digest") == Str("sha256:" + rt.sha(i.authorBytes))
    && IsSha1(i.compiler.sourceHead) && i.compiler.runId >= 1 && i.compiler.attempt >= 1
    && '/' in i.compiler.repository && |i.compiler.releaseTag| > 0
    && (forall n :: 0 <= n < |i.compiler.releaseTag| ==> !rt.isSpace(i.compiler.releaseTag[n]))
    && (var digest := PyStr(GetOr(items[envelope].members, "digest", Str("")));
        var recorded := PyStr(Get(i.transaction, "envelope_sha256"));
        digest == recorded || digest == "sha256:" + recorded)
  }

  lemma NeedsPublished(rt: Runtime, i: B.Inputs) returns (envelope: nat, author: nat)
    requires B.CanBuild(rt, i)
    ensures BuiltFromPublished(rt, i, envelope, author)
  {
    hide B.ReportPasses, C.Verified, B.EvidenceField, IsHex, PyEq, B.AssetsNamed, C.EventsOf;
    var items := ListedAssets(i.release);
    envelope := OneNamed(rt, items, Get(B.Reference(i), "asset_name"));
    author := OneNamed(rt, items, B.AuthorAssetName(i));
    WithPrefix(PyStr(GetOr(items[envelope].members, "digest", Str(""))));
  }

  lemma WithPrefix(s: string)
    ensures s == B.WithoutPrefix(s) || s == "sha256:" + B.WithoutPrefix(s)
  {
    if "sha256:" <= s { assert s == s[..7] + s[7..]; }
  }

  const LINEAGE: set<string> := {
    "mode", "checks", "workflow_run_id", "vector_benchmark_run_id", "agent_pressure_run_id", "agent_ablation_run_id",
    "deployment_head_sha"}

  /** The capsule carries the report of the online verifier, when and under which claim it was made, and the
      digests of the files it was made from. */
  ghost predicate CarriesReport(rt: Runtime, c: Dict, i: B.Inputs) {
    var online := Section(c, "online_verification");
    && online.Obj? && (forall k :: k in LINEAGE ==> Get(online.members, k) == Get(i.report, k))
    && Get(c, "observed_at") == Str(i.observedAt) && Get(c, "claim_boundary") == Str(i.claimBoundary)
    && Get(PredecessorOf(c), "transaction_file_sha256") == Str(rt.sha(i.transactionBytes))
    && Get(PredecessorOf(c), "evidence_sha256") == Str(rt.sha(i.evidenceBytes))
  }

  lemma OnlineLineage(report: Dict, k: string)
    requires k in LINEAGE
    ensures B.OnlineJson(report).Obj? && Get(B.OnlineJson(report).members, k) == Get(report, k)
  {
  }

  lemma MadeHeader(rt: Runtime, i: B.Inputs)
    ensures Get(Made(rt, i), "observed_at") == Str(i.observedAt)
    ensures Get(Made(rt, i), "claim_boundary") == Str(i.claimBoundary)
  {
    hide B.PredecessorJson, B.OnlineJson, B.UiRows, CompilerJson, UiSourcesJson, UiSources, RequestPolicy, B.GateJson,
      CapsuleDigest;
  }

  lemma MadeCarriesReport(rt: Runtime, i: B.Inputs)
    ensures CarriesReport(rt, Made(rt, i), i)
  {
    hide B.PredecessorJson, B.OnlineJson, B.UiRows, CompilerJson, UiSourcesJson, UiSources, RequestPolicy, B.GateJson,
      Seal, B.Unsealed, LINEAGE;
    SealedParts(rt, i);
    EntrySections(rt, i);
    MadeHeader(rt, i);
    MadePredecessor(rt, i);
    PredecessorReadsFiles(rt, i);
    forall k | k in LINEAGE ensures Get(B.OnlineJson(i.report).members, k) == Get(i.report, k) {
      OnlineLineage(i.report, k);
    }
  }

  // ---- which envelopes a built capsule travels in

  /** The reference names the capsule file and where it is served. */
  predicate RefersToCapsule(rt: Runtime, x: Inputs) {
    && x.reference.Obj? && PyEq(rt, Get(x.reference.members, "schema_version"), Int(1))
    && Get(x.reference.members, "asset_name") == Str("judge-offline-capsule-v1.json")
    && Get(x.reference.members, "public_url") == Str(RStrip(x.demoUrl) + "/evidence/judge-offline-capsule-v1.json")
  }

  predicate OfCompiler(x: Inputs, k: Compiler) {
    x.repository == k.repository && x.commit == k.sourceHead && x.tag == k.releaseTag
  }

  /** The sections an entry is read from. */
  predicate CanBeListed(c: Dict) {
    && Section(c, "predecessor").Obj?
    && "release_tag" in Section(c, "predecessor").members && "release_target" in Section(c, "predecessor").members
    && Section(c, "online_verification").Obj? && "check_count" in Section(c, "online_verification").members
    && Get(c, "ui_checks").Obj?
  }

  lemma MadeFacts(rt: Runtime, i: B.Inputs)
    requires B.CanBuild(rt, i)
    ensures var c := Made(rt, i);
      && ValidCapsule(rt, c) && CanBeListed(c) && "relay" !in c
      && Section(c, "compiler") == CompilerJson(i.compiler)
  {
    hide B.Unsealed, B.CanBuild, B.PredecessorJson, B.OnlineJson, B.UiRows, CompilerJson, UiSourcesJson, UiSources,
      RequestPolicy, B.GateJson, ValidCapsule, Seal;
    B.BuilderAgrees(rt, i);
    SealedParts(rt, i);
    EntrySections(rt, i);
    RowsPresent(rt, i);
    NoRelay(rt, i);
  }

  lemma NoRelay(rt: Runtime, i: B.Inputs)
    ensures "relay" !in Made(rt, i)
  {
    hide B.PredecessorJson, B.OnlineJson, B.UiRows, CompilerJson, UiSourcesJson, UiSources, RequestPolicy, B.GateJson,
      CapsuleDigest;
  }

  lemma CompilerSays(k: Compiler)
    ensures CompilerJson(k).Obj?
    ensures var m := CompilerJson(k).members;
      && Get(m, "repository") == Str(k.repository) && Get(m, "source_head") == Str(k.sourceHead)
      && Get(m, "successor_release_tag") == Str(k.releaseTag)
  {
  }

  /** The compiler section names the workflow, its run and its attempt. */
  predicate NamesRun(c: Dict, k: Compiler) {
    var section := Section(c, "compiler");
    && section.Obj? && Get(section.members, "workflow_run_id") == Int(k.runId)
    && Get(section.members, "workflow_attempt") == Int(k.attempt)
    && Get(section.members, "workflow") == Str(k.repository + "/.github/workflows/release-envelope.yml")
  }

  lemma CompilerNamesRun(c: Dict, k: Compiler)
    requires Section(c, "compiler") == CompilerJson(k)
    ensures NamesRun(c, k)
  {
  }

  /** Whether built or relayed, a capsule names the run that compiled it last, so that the next relay can name
      that run in turn. */
  lemma RunNamed(rt: Runtime, i: B.Inputs, c: Dict, q: RelayRequest)
    ensures B.CanBuild(rt, i) ==> NamesRun(Made(rt, i), i.compiler)
    ensures CanRelay(rt, c, q) ==> NamesRun(Relayed(rt, c, q), q.compiler)
  {
    hide B.CanBuild, Made, CanRelay, Relayed, NamesRun, CompilerJson;
    if B.CanBuild(rt, i) {
      MadeFacts(rt, i);
      CompilerNamesRun(Made(rt, i), i.compiler);
    }
    RelayedFields(rt, c, q);
    CompilerNamesRun(Relayed(rt, c, q), q.compiler);
  }

  /** What the gate asks of an envelope whose capsule has no relay and names this compiler. */
  predicate Carries(rt: Runtime, x: Inputs, k: Compiler) {
    RefersToCapsule(rt, x) && RelayReference(x) == Null && OfCompiler(x, k)
  }

  lemma GateOfMade(rt: Runtime, x: Inputs, c: Dict, k: Compiler)
    requires x.capsule == Some(c) && x.judgeSchema >= 16 && "relay" !in c && Section(c, "compiler") == CompilerJson(k)
    requires CanBeListed(c) && Get(PredecessorOf(c), "release_tag") != Str(k.releaseTag)
    ensures CapsuleBound(rt, x) <==> Carries(rt, x, k)
  {
    hide CompilerJson, PyEq, RStrip, RelayBound, RelayReference;
    CompilerSays(k);
    NoRelayBound(rt, RelayReference(x), c);
    SameUrl(RStrip(x.demoUrl));
  }

  lemma NoRelayBound(rt: Runtime, reference: Json, c: Dict)
    requires "relay" !in c
    ensures RelayBound(rt, reference, c) <==> reference == Null
  {
    hide PyEq;
    NullIsNotOne(rt);
  }

  lemma SameUrl(s: string)
    ensures s + "/evidence/" + ASSET_NAME == s + "/evidence/judge-offline-capsule-v1.json"
  {
  }

  lemma ListedCanBeEmitted(rt: Runtime, x: Inputs, c: Dict, k: Compiler)
    requires CanBeListed(c) && Carries(rt, x, k)
    ensures CanEmitEntry(x, c)
  {
    hide PyEq, RStrip;
  }

  /** From judge schema 16 on a built capsule goes out exactly in the envelopes of its own compiler's release
      that name the capsule and no relay, and is accepted with each of them. */
  lemma BuiltTravels(rt: Runtime, i: B.Inputs, x: Inputs)
    requires B.CanBuild(rt, i) && x.capsule == Some(Made(rt, i)) && x.judgeSchema >= 16
    ensures Emit(rt, x).Some? <==> Carries(rt, x, i.compiler)
    ensures Emit(rt, x).Some? ==> BindingAccepted(rt, Made(rt, i), x.bytes, Emit(rt, x).value)
  {
    hide Made, ValidCapsule, CompilerJson, B.CanBuild, BindingAccepted, PyEq, RStrip, Entry, Carries, CapsuleBound,
      CanEmitEntry, CanBeListed, TellsOf;
    var c := Made(rt, i);
    MadeFacts(rt, i);
    NamesTransaction(rt, i);
    TagDiffers(rt, Get(PredecessorOf(c), "release_tag"), i.compiler.releaseTag);
    GateOfMade(rt, x, c, i.compiler);
    if Carries(rt, x, i.compiler) { ListedCanBeEmitted(rt, x, c, i.compiler); }
    if Emit(rt, x).Some? { EmittedIsAccepted(rt, x, Emit(rt, x).value); }
  }

  lemma TagDiffers(rt: Runtime, tag: Json, s: string)
    requires !PyEq(rt, tag, Str(s))
    ensures tag != Str(s)
  {
  }

  lemma NullIsNotOne(rt: Runtime)
    ensures !PyEq(rt, Null, Int(1))
  {
  }

  // ---- and a relayed one

  /** The relay reference names the failed release this request relays through, as it is kept. */
  predicate RefersToRelay(rt: Runtime, reference: Json, c: Dict, q: RelayRequest) {
    && reference.Obj?
    && var ref := reference.members;
    && Get(ref, "enabled") == Bool(true) && Get(ref, "source_release_immutable") == Bool(true)
    && Get(ref, "failed_pages_conclusion") == Str("failure") && PyEq(rt, Get(ref, "schema_version"), Int(1))
    && Get(ref, "reason") == Str("preserved_candidate_browser_failure")
    && Get(ref, "source_release_tag") == Str(q.sourceTag) && Get(ref, "source_release_target") == Str(q.sourceTarget)
    && Get(ref, "source_asset_sha256") == Str(rt.sha(q.bytes))
    && Get(ref, "source_receipt_sha256") == Get(c, "receipt_sha256")
    && PyEq(rt, CompilerRun(c), Get(ref, "source_compiler_workflow_run_id"))
    && PyEq(rt, Int(q.failedPagesRun), Get(ref, "failed_pages_workflow_run_id"))
    && PyEq(rt, Get(PredecessorOf(c), "release_tag"), Get(ref, "source_predecessor_release_tag"))
  }

  function CompilerRun(c: Dict): Json {
    if Section(c, "compiler").Obj? then Get(Section(c, "compiler").members, "workflow_run_id") else Null
  }

  lemma RelaySays(rt: Runtime, c: Dict, q: RelayRequest)
    ensures RelayJson(rt, c, q).Obj?
    ensures var m := RelayJson(rt, c, q).members;
      && Get(m, "schema_version") == Int(1) && Get(m, "reason") == Str("preserved_candidate_browser_failure")
      && Get(m, "source_asset_sha256") == Str(rt.sha(q.bytes))
  {
  }

  lemma RelaySaysSource(rt: Runtime, c: Dict, q: RelayRequest)
    ensures var m := RelayJson(rt, c, q).members;
      Get(m, "source_release_tag") == Str(q.sourceTag) && Get(m, "source_release_target") == Str(q.sourceTarget)
  {
  }

  lemma RelaySaysRuns(rt: Runtime, c: Dict, q: RelayRequest)
    ensures var m := RelayJson(rt, c, q).members;
      && Get(m, "source_receipt_sha256") == Str(q.expectedReceipt)
      && Get(m, "source_compiler_workflow_run_id") == CompilerRun(c)
      && Get(m, "failed_pages_workflow_run_id") == Int(q.failedPagesRun)
      && Get(m, "failed_epoch_promoted_to_pass") == Bool(false)
  {
  }

  lemma RelayedFacts(rt: Runtime, c: Dict, q: RelayRequest)
    requires CanRelay(rt, c, q) && CanBeListed(c)
    ensures var d := Relayed(rt, c, q);
      && ValidCapsule(rt, d) && CanBeListed(d) && "relay" in d && d["relay"] == RelayJson(rt, c, q)
      && Section(d, "compiler") == CompilerJson(q.compiler) && PredecessorOf(d) == PredecessorOf(c)
      && Get(c, "receipt_sha256") == Str(q.expectedReceipt)
  {
    hide ValidCapsule, Relayed, RelayJson, CompilerJson;
    RelayCloses(rt, c, q);
    RelayedFields(rt, c, q);
    Kept();
  }

  lemma Kept()
    ensures "relay" in REWRITTEN && "predecessor" !in REWRITTEN
    ensures "online_verification" !in REWRITTEN && "ui_checks" !in REWRITTEN
  {
  }

  /** What the gate asks of an envelope with the relayed capsule. */
  predicate CarriesRelay(rt: Runtime, x: Inputs, c: Dict, q: RelayRequest) {
    && RefersToCapsule(rt, x) && OfCompiler(x, q.compiler)
    && Get(PredecessorOf(c), "release_tag") != Str(q.compiler.releaseTag)
    && (RelayReference(x) == Null || RefersToRelay(rt, RelayReference(x), c, q))
  }

  lemma RelayGate(rt: Runtime, reference: Json, c: Dict, d: Dict, q: RelayRequest)
    requires CanBeListed(d) && "relay" in d && d["relay"] == RelayJson(rt, c, q) && PredecessorOf(d) == PredecessorOf(c)
    requires Get(c, "receipt_sha256") == Str(q.expectedReceipt) && reference.Obj?
    ensures RelayBound(rt, reference, d) <==> RefersToRelay(rt, reference, c, q)
  {
    hide RelayJson, PyEq, CompilerRun;
    RelaySays(rt, c, q);
    RelaySaysSource(rt, c, q);
    RelaySaysRuns(rt, c, q);
    TextCompares(rt);
    PyEqReflexive(rt, Int(1));
  }

  lemma TextCompares(rt: Runtime)
    ensures forall s, j :: PyEq(rt, Str(s), j) <==> j == Str(s)
  {
  }

  lemma GateOfRelayed(rt: Runtime, x: Inputs, c: Dict, d: Dict, q: RelayRequest)
    requires x.capsule == Some(d) && x.judgeSchema >= 16 && Section(d, "compiler") == CompilerJson(q.compiler)
    requires CanBeListed(d) && "relay" in d && d["relay"] == RelayJson(rt, c, q) && PredecessorOf(d) == PredecessorOf(c)
    requires Get(c, "receipt_sha256") == Str(q.expectedReceipt)
    ensures CapsuleBound(rt, x) <==> CarriesRelay(rt, x, c, q)
  {
    hide CompilerJson, PyEq, RStrip, RelayBound, RelayReference, RefersToRelay, RelayJson;
    CompilerSays(q.compiler);
    SameUrl(RStrip(x.demoUrl));
    var reference := RelayReference(x);
    if reference.Obj? { RelayGate(rt, reference, c, d, q); } else { NotObject(rt, reference, c, d, q); }
  }

  lemma NotObject(rt: Runtime, reference: Json, c: Dict, d: Dict, q: RelayRequest)
    requires !reference.Obj?
    ensures RelayBound(rt, reference, d) <==> reference == Null
    ensures !RefersToRelay(rt, reference, c, q)
  {
    hide PyEq;
  }

  lemma RelayedCanBeEmitted(rt: Runtime, x: Inputs, c: Dict, d: Dict, q: RelayRequest)
    requires CanBeListed(d) && "relay" in d && CarriesRelay(rt, x, c, q)
    ensures CanEmitEntry(x, d)
  {
    hide PyEq, RStrip, RefersToRelay;
  }

  /** From judge schema 16 on a relayed capsule goes out exactly in the envelopes of its new compiler's release
      that name the capsule and, if they name a relay at all, the failed release it came through; not when
      that release is the predecessor itself. It is accepted with each of them. */
  lemma RelayTravels(rt: Runtime, c: Dict, q: RelayRequest, x: Inputs)
    requires CanRelay(rt, c, q) && CanBeListed(c) && x.capsule == Some(Relayed(rt, c, q)) && x.judgeSchema >= 16
    ensures Emit(rt, x).Some? <==> CarriesRelay(rt, x, c, q)
    ensures Emit(rt, x).Some? ==> BindingAccepted(rt, Relayed(rt, c, q), x.bytes, Emit(rt, x).value)
  {
    hide Relayed, ValidCapsule, CompilerJson, CanRelay, BindingAccepted, PyEq, RStrip, Entry, CarriesRelay,
      CapsuleBound, CanEmitEntry, CanBeListed, RelayJson;
    var d := Relayed(rt, c, q);
    RelayedFacts(rt, c, q);
    GateOfRelayed(rt, x, c, d, q);
    if CarriesRelay(rt, x, c, q) { RelayedCanBeEmitted(rt, x, c, d, q); }
    if Emit(rt, x).Some? { EmittedIsAccepted(rt, x, Emit(rt, x).value); }
  }

  // ---- what the envelope then tells

  function EntryOf(envelope: Dict): Dict {
    var entry := Section(envelope, "offline_judge_capsule");
    if entry.Obj? then entry.members else map[]
  }

  lemma EntryFields(rt: Runtime, x: Inputs, c: Dict)
    requires CanEmitEntry(x, c)
    ensures var e := Entry(rt, x, c);
      && Get(e, "predecessor_release_tag") == Get(PredecessorOf(c), "release_tag")
      && Get(e, "predecessor_release_target") == Get(PredecessorOf(c), "release_target")
  {
  }

  lemma EntryPlaces(rt: Runtime, x: Inputs, c: Dict)
    requires CanEmitEntry(x, c)
    ensures var e := Entry(rt, x, c);
      && Get(e, "asset_url") == x.assetUrl && Get(e, "public_url") == Get(x.reference.members, "public_url")
  {
  }

  lemma EntryCounts(rt: Runtime, x: Inputs, c: Dict)
    requires CanEmitEntry(x, c)
    ensures var e := Entry(rt, x, c);
      && Get(e, "online_check_count") == Get(Section(c, "online_verification").members, "check_count")
      && Get(e, "ui_check_count") == Int(|Get(c, "ui_checks").members|)
      && Get(e, "github_api_requests_per_judge_click") == Int(0)
  {
  }

  /** The entry of an emitted envelope tells the predecessor of its capsule and counts its checks and rows. */
  lemma EntryTells(rt: Runtime, x: Inputs, c: Dict, envelope: Dict)
    requires Emit(rt, x) == Some(envelope) && x.capsule == Some(c)
    ensures Get(EntryOf(envelope), "predecessor_release_tag") == Get(PredecessorOf(c), "release_tag")
    ensures Get(EntryOf(envelope), "predecessor_release_target") == Get(PredecessorOf(c), "release_target")
    ensures PyEq(rt, Get(EntryOf(envelope), "online_check_count"), Int(|ChecksOf(c)|))
    ensures Get(EntryOf(envelope), "ui_check_count") == Int(|RowsOf(c)|)
    ensures x.reference.Obj? && Get(EntryOf(envelope), "public_url") == Get(x.reference.members, "public_url")
    ensures Get(EntryOf(envelope), "asset_url") == x.assetUrl
  {
    hide ValidCapsule, Entry, CanEmitEntry, CapsuleBound, ReleaseEntry;
    EnvelopeReads(ReleaseEntry(x), Obj(Entry(rt, x, c)));
    EntryFields(rt, x, c);
    EntryCounts(rt, x, c);
    EntryPlaces(rt, x, c);
    CountHolds(rt, c);
    RowsPresentIn(x, c);
  }

  lemma RowsPresentIn(x: Inputs, c: Dict)
    requires CanEmitEntry(x, c)
    ensures Get(c, "ui_checks").Obj? && Section(c, "online_verification").Obj? && x.reference.Obj?
  {
  }

  predicate EnvelopeTellsOf(rt: Runtime, envelope: Dict, t: Dict) {
    && PyEq(rt, Get(t, "release_tag"), Get(EntryOf(envelope), "predecessor_release_tag"))
    && Get(EntryOf(envelope), "predecessor_release_target") == Get(t, "source_digest")
  }

  /** However many failed releases a capsule was relayed through, the envelope it goes out in tells the tag and
      the commit of the transaction it was built from. */
  lemma ChainTells(rt: Runtime, i: B.Inputs, caps: seq<Dict>, n: nat, x: Inputs, envelope: Dict)
    requires n < |caps| && x.capsule == Some(caps[n]) && Emit(rt, x) == Some(envelope)
    requires caps[0] == Made(rt, i) && IsChain(rt, caps) && B.CanBuild(rt, i)
    ensures EnvelopeTellsOf(rt, envelope, i.transaction)
  {
    hide B.CanBuild, Made, IsChain, Emit, ValidCapsule, PyEq, Recorded, EntryOf, CanBeListed;
    ChainKeepsProof(rt, caps, n);
    NamesTransaction(rt, i);
    MadeFacts(rt, i);
    SamePredecessor(caps[0], caps[n]);
    EntryTells(rt, x, caps[n], envelope);
  }

  lemma SamePredecessor(c: Dict, d: Dict)
    requires SameProof(c, d) && CanBeListed(c)
    ensures PredecessorOf(d) == PredecessorOf(c)
  {
  }

  // ---- what the consumer would notice

  /** The entry with field k set to v. */
  function Edited(envelope: Dict, k: string, v: Json): Dict {
    envelope["offline_judge_capsule" := Obj(EntryOf(envelope)[k := v])]
  }

  /** What may stand in field k of an entry. */
  predicate Tolerated(rt: Runtime, c: Dict, bytes: string, k: string, v: Json) {
    && (k == "schema_version" ==> PyEq(rt, v, Int(1)))
    && (k == "asset_name" ==> v == Str("judge-offline-capsule-v1.json"))
    && (k == "asset_sha256" ==> v == Str(rt.sha(bytes)))
    && (k == "receipt_sha256" ==> PyEq(rt, v, Get(c, "receipt_sha256")))
    && (k == "relay" && v != Null ==>
          "relay" in c && PyEq(rt, v, c["relay"]) && NotPromoted(c))
  }

  lemma EditedReads(envelope: Dict, k: string, v: Json)
    ensures Section(Edited(envelope, k, v), "offline_judge_capsule") == Obj(EntryOf(envelope)[k := v])
    ensures Section(Edited(envelope, k, v), "release") == Section(envelope, "release")
    ensures forall f :: Get(EntryOf(envelope)[k := v], f) == if f == k then v else Get(EntryOf(envelope), f)
  {
    hide EntryOf;
    var e := EntryOf(envelope)[k := v];
    var d := Edited(envelope, k, v);
    assert "offline_judge_capsule" in d && d["offline_judge_capsule"] == Obj(e);
    assert |"release"| != |"offline_judge_capsule"|;
    assert "release" in d <==> "release" in envelope;
    assert Section(d, "release") == Section(envelope, "release");
    assert forall f :: Get(e, f) == if f == k then v else Get(EntryOf(envelope), f);
  }

  /** An accepted envelope in which one field of the entry is changed is accepted exactly when the field is not
      one of the five that are looked at, or its new value says the same. */
  lemma EditNoticed(rt: Runtime, c: Dict, bytes: string, envelope: Dict, k: string, v: Json)
    requires BindingAccepted(rt, c, bytes, envelope)
    ensures BindingAccepted(rt, c, bytes, Edited(envelope, k, v)) <==> Tolerated(rt, c, bytes, k, v)
  {
    hide ValidCapsule, ReleaseAccepted, PyEq, Edited, EntryOf, RelayAccepted;
    EditedReads(envelope, k, v);
    EntryIsSection(rt, c, bytes, envelope);
    RelayTolerated(rt, c, v);
    var e, f := EntryOf(envelope), EntryOf(envelope)[k := v];
    assert ReferenceAccepted(rt, Obj(f), c, bytes) <==> Tolerated(rt, c, bytes, k, v);
  }

  lemma EntryIsSection(rt: Runtime, c: Dict, bytes: string, envelope: Dict)
    requires BindingAccepted(rt, c, bytes, envelope)
    ensures Section(envelope, "offline_judge_capsule") == Obj(EntryOf(envelope))
  {
    hide ValidCapsule, ReleaseAccepted, PyEq;
  }

  lemma RelayTolerated(rt: Runtime, c: Dict, v: Json)
    ensures RelayAccepted(rt, v, c) <==> v == Null || ("relay" in c && PyEq(rt, v, c["relay"]) && NotPromoted(c))
  {
    hide PyEq;
  }

  predicate SameRelease(rt: Runtime, release: Dict, c: Dict) {
    && Section(c, "compiler").Obj?
    && PyEq(rt, Get(release, "commit_sha"), Get(Section(c, "compiler").members, "source_head"))
    && PyEq(rt, Get(release, "tag"), Get(Section(c, "compiler").members, "successor_release_tag"))
  }

  /** And one in which the release is changed, exactly when commit and tag still say the same. */
  lemma ReleaseEditNoticed(rt: Runtime, c: Dict, bytes: string, envelope: Dict, release: Dict)
    requires BindingAccepted(rt, c, bytes, envelope)
    ensures BindingAccepted(rt, c, bytes, envelope["release" := Obj(release)]) <==> SameRelease(rt, release, c)
  {
    hide ValidCapsule, ReferenceAccepted, PyEq;
  }
}
