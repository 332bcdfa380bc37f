/** Which transactions can be turned into a capsule. */
module Capsulation {
  import opened Json
  import opened PythonValues
  import opened Capsule
  import opened CapsuleBuilder
  import C = Coordinator
  import E = Completion
  import T = TamperEvidence

  const AUTHOR_BUNDLE := "author-attestation.json"

  /** The checks some row of the judge page stands on. */
  function CheckNames(rows: map<string, seq<string>>): (s: set<string>)
    ensures forall n, i :: n in rows && 0 <= i < |rows[n]| ==> rows[n][i] in s
  {
    set n, i | n in rows && 0 <= i < |rows[n]| :: rows[n][i]
  }

  function PassingChecks(rows: map<string, seq<string>>): Dict { map k | k in CheckNames(rows) :: Bool(true) }

  function PassingReport(checks: Dict): Dict {
    map["ok" := Bool(true), "mode" := Str("read-only-http-get"), "checks" := Obj(checks)]
  }

  /** A release as it was published: the tag as its transaction holds it, source and envelope as text. */
  datatype Published = Published(tag: Json, source: string, envelope: string)

  function AssetEntry(name: string, digest: string): Json {
    Obj(map["name" := Str(name), "digest" := Str("sha256:" + digest)])
  }

  function ReleaseFor(rt: Runtime, x: Published, authorBytes: string): Dict {
    map[
      "target_commitish" := Str(x.source),
      "immutable" := Bool(true),
      "draft" := Bool(false),
      "tag_name" := x.tag,
      "assets" := Arr([AssetEntry(C.ENVELOPE, x.envelope), AssetEntry(AUTHOR_BUNDLE, rt.sha(authorBytes))])]
  }

  function JudgeEvidenceFor(x: Published): Dict {
    map[
      "release_envelope" := Obj(map["tag" := x.tag, "asset_name" := Str(C.ENVELOPE)]),
      "network_sign_once" := Obj(map["author_bundle_asset_name" := Str(AUTHOR_BUNDLE)])]
  }

  function InputsFor(
    rt: Runtime, x: Published, r: Dict, authorBytes: string, networkBytes: string, k: Compiler, checks: Dict): Inputs
  {
    Inputs("", "", JudgeEvidenceFor(x), PassingReport(checks), ReleaseFor(rt, x, authorBytes), r, "", authorBytes,
      networkBytes, k, "", "")
  }

  lemma ReportGood(rt: Runtime)
    ensures ReportPasses(rt, PassingReport(PassingChecks(UiSources(KIND))))
  {
    hide UiSources, CheckNames, PassingReport;
    ReportReads(PassingChecks(UiSources(KIND)));
    SomeRow();
    ChecksExist(UiSources(KIND), "bundle");
  }

  lemma ReportReads(checks: Dict)
    ensures var r := PassingReport(checks);
      Get(r, "ok") == Bool(true) && Get(r, "mode") == Str("read-only-http-get") && Get(r, "checks") == Obj(checks)
  {
  }

  lemma SomeRow()
    ensures "bundle" in UiSources(KIND) && UiSources(KIND)["bundle"] != []
  {
  }

  lemma ChecksExist(rows: map<string, seq<string>>, n: string)
    requires n in rows && rows[n] != []
    ensures PassingChecks(rows) != map[]
  {
    assert rows[n][0] in PassingChecks(rows);
  }

  lemma ReferencesRead(x: Published)
    ensures var e := JudgeEvidenceFor(x);
      && Get(e, "release_envelope").Obj? && Get(e, "network_sign_once").Obj?
      && "tag" in Get(e, "release_envelope").members
      && Get(Get(e, "release_envelope").members, "tag") == x.tag
      && "asset_name" in Get(e, "release_envelope").members
      && Get(Get(e, "release_envelope").members, "asset_name") == Str(C.ENVELOPE)
      && "author_bundle_asset_name" in Get(e, "network_sign_once").members
      && Get(Get(e, "network_sign_once").members, "author_bundle_asset_name") == Str(AUTHOR_BUNDLE)
  {
  }

  lemma ReleaseReads(rt: Runtime, x: Published, authorBytes: string)
    ensures var r := ReleaseFor(rt, x, authorBytes);
      && Get(r, "target_commitish") == Str(x.source) && Get(r, "tag_name") == x.tag
      && Get(r, "immutable") == Bool(true) && Get(r, "draft") == Bool(false)
      && GetOr(r, "assets", Arr([]))
           == Arr([AssetEntry(C.ENVELOPE, x.envelope), AssetEntry(AUTHOR_BUNDLE, rt.sha(authorBytes))])
  {
    hide AssetEntry;
  }

  lemma EntryReads(name: string, digest: string)
    ensures var e := AssetEntry(name, digest);
      && e.Obj? && Get(e.members, "name") == Str(name) && Get(e.members, "digest") == Str("sha256:" + digest)
      && "digest" in e.members
  {
  }

  /** Of two assets with different names each is found, once. */
  lemma AssetsFound(rt: Runtime, a: Json, b: Json, n: string, m: string)
    requires a.Obj? && b.Obj? && Get(a.members, "name") == Str(n) && Get(b.members, "name") == Str(m) && n != m
    ensures AssetsNamed(rt, [a, b], Str(n)) == [a] && AssetsNamed(rt, [a, b], Str(m)) == [b]
  {
    assert [a, b][1..] == [b] && [b][1..] == [];
    assert AssetsNamed(rt, [], Str(n)) == [] && AssetsNamed(rt, [], Str(m)) == [];
    assert AssetsNamed(rt, [b], Str(n)) == [] && AssetsNamed(rt, [b], Str(m)) == [b];
  }

  lemma AssetsGood(rt: Runtime, x: Published, r: Dict, authorBytes: string, networkBytes: string, k: Compiler,
    checks: Dict)
    requires IsSha256(x.envelope)
    ensures var i := InputsFor(rt, x, r, authorBytes, networkBytes, k, checks);
      AssetsPass(rt, i) && EnvelopeSha(rt, i) == x.envelope
  {
    hide JudgeEvidenceFor, ReleaseFor, PassingReport, AssetEntry, AssetsNamed, IsHex;
    ReferencesRead(x);
    ReleaseReads(rt, x, authorBytes);
    EntryReads(C.ENVELOPE, x.envelope);
    EntryReads(AUTHOR_BUNDLE, rt.sha(authorBytes));
    NamesDiffer();
    AssetsFound(rt, AssetEntry(C.ENVELOPE, x.envelope), AssetEntry(AUTHOR_BUNDLE, rt.sha(authorBytes)),
      C.ENVELOPE, AUTHOR_BUNDLE);
    assert ("sha256:" + x.envelope)[7..] == x.envelope;
  }

  lemma NamesDiffer()
    ensures C.ENVELOPE != AUTHOR_BUNDLE
  {
    assert |C.ENVELOPE| != |AUTHOR_BUNDLE|;
  }

  lemma PredecessorGood(rt: Runtime, x: Published, r: Dict, authorBytes: string, networkBytes: string, k: Compiler,
    checks: Dict)
    requires IsSha1(x.source) && x.tag != Str(k.releaseTag)
    ensures PredecessorPasses(rt, InputsFor(rt, x, r, authorBytes, networkBytes, k, checks))
  {
    hide JudgeEvidenceFor, ReleaseFor, PassingReport, IsHex;
    ReferencesRead(x);
    ReleaseReads(rt, x, authorBytes);
    PyEqReflexive(rt, x.tag);
  }

  lemma TransactionGood(rt: Runtime, x: Published, r: Dict, authorBytes: string, networkBytes: string, k: Compiler,
    checks: Dict)
    requires C.Verified(rt, r) && Buildable(rt, r, authorBytes, networkBytes, k) && IsSha256(x.envelope)
    requires Get(r, "release_tag") == x.tag && Get(r, "source_digest") == Str(x.source)
          && Get(r, "envelope_sha256") == Str(x.envelope)
    ensures TransactionPasses(rt, InputsFor(rt, x, r, authorBytes, networkBytes, k, checks))
  {
    hide JudgeEvidenceFor, ReleaseFor, PassingReport, IsHex, EvidenceField, EnvelopeSha, C.Verified, C.EventsOf,
      AssetsPass, ValidBuildCompiler;
    AssetsGood(rt, x, r, authorBytes, networkBytes, k, checks);
    ReferencesRead(x);
    ReleaseReads(rt, x, authorBytes);
    PyEqReflexive(rt, x.tag);
    LateState(rt, r);
  }

  /** The last two states are those with five or six events. */
  lemma LateState(rt: Runtime, r: Dict)
    requires C.Verified(rt, r)
    ensures Get(r, "state") == Str(C.STATES[4]) || Get(r, "state") == Str(C.STATES[5]) <==> |C.EventsOf(r)| >= 5
  {
    hide C.ValidIdentity, C.ValidEvent, C.ReceiptDigest;
    var n := |C.EventsOf(r)|;
    if Get(r, "state") == Str(C.STATES[4]) { T.StatesDistinct(n - 1, 4); }
    if Get(r, "state") == Str(C.STATES[5]) { T.StatesDistinct(n - 1, 5); }
  }

  /** What the transaction, the bundles and the compiler must be, whatever the rest of the inputs. */
  predicate Buildable(rt: Runtime, r: Dict, authorBytes: string, networkBytes: string, k: Compiler) {
    && |C.EventsOf(r)| >= 5 && Get(r, "source_digest").Str?
    && EvidenceField(C.EventsOf(r), C.STATES[4], "public_bundle_sha256") == Str(rt.sha(networkBytes))
    && EvidenceField(C.EventsOf(r), C.STATES[1], "author_bundle_sha256") == Str(rt.sha(authorBytes))
    && ValidBuildCompiler(rt, k) && Get(r, "release_tag") != Str(k.releaseTag)
  }

  ghost predicate BuildsFrom(
    rt: Runtime, i: Inputs, r: Dict, authorBytes: string, networkBytes: string, k: Compiler)
  {
    CanBuild(rt, i) && i.transaction == r && i.authorBytes == authorBytes && i.networkBytes == networkBytes
      && i.compiler == k
  }

  lemma BuildableBuilds(rt: Runtime, r: Dict, authorBytes: string, networkBytes: string, k: Compiler)
    returns (i: Inputs)
    requires C.Verified(rt, r) && Buildable(rt, r, authorBytes, networkBytes, k)
    ensures BuildsFrom(rt, i, r, authorBytes, networkBytes, k)
  {
    hide C.Verified, C.IsRepository, C.IsTag, UiSources, EvidenceField, AssetsPass, PredecessorPasses, ReportPasses,
      TransactionPasses, ValidBuildCompiler, PassingReport, PassingChecks, IsHex, C.EventsOf;
    T.IdentityTexts(rt, r);
    EnvelopeText(rt, r);
    var x := Published(Get(r, "release_tag"), Get(r, "source_digest").s, Get(r, "envelope_sha256").s);
    var checks := PassingChecks(UiSources(KIND));
    i := InputsFor(rt, x, r, authorBytes, networkBytes, k, checks);
    AssetsGood(rt, x, r, authorBytes, networkBytes, k, checks);
    PredecessorGood(rt, x, r, authorBytes, networkBytes, k, checks);
    ReportGood(rt);
    TransactionGood(rt, x, r, authorBytes, networkBytes, k, checks);
  }

  lemma EnvelopeText(rt: Runtime, r: Dict)
    requires C.Verified(rt, r)
    ensures Get(r, "envelope_sha256").Str?
  {
    hide C.Verified, C.ValidEvidence;
    E.EnvelopeIsText(rt, r);
  }

  lemma BuildsOnlyBuildable(rt: Runtime, i: Inputs)
    requires CanBuild(rt, i)
    ensures Buildable(rt, i.transaction, i.authorBytes, i.networkBytes, i.compiler)
  {
    hide C.Verified, UiProjection, EvidenceField, AssetsPass, ReportPasses, EnvelopeSha, ValidBuildCompiler, IsHex,
      C.EventsOf, HasReferences;
    LateState(rt, i.transaction);
  }

  /** Exactly which verified transactions can become a capsule with these bundles and this compiler: those
      that have reached their Pages, recorded these bundles, name their source as text and carry another
      tag than the compiler's. */
  lemma BuildableExactly(rt: Runtime, r: Dict, authorBytes: string, networkBytes: string, k: Compiler)
    requires C.Verified(rt, r)
    ensures (exists i :: BuildsFrom(rt, i, r, authorBytes, networkBytes, k))
        <==> Buildable(rt, r, authorBytes, networkBytes, k)
  {
    hide C.Verified, CanBuild, Buildable;
    if i :| BuildsFrom(rt, i, r, authorBytes, networkBytes, k) { BuildsOnlyBuildable(rt, i); }
    if Buildable(rt, r, authorBytes, networkBytes, k) {
      var i := BuildableBuilds(rt, r, authorBytes, networkBytes, k);
    }
  }

  /** So a finished transaction with its own bundles always yields a capsule that verifies. */
  lemma FinishedTransactionBuilds(rt: Runtime, r: Dict, authorBytes: string, networkBytes: string, k: Compiler)
    returns (i: Inputs)
    requires C.Verified(rt, r) && Buildable(rt, r, authorBytes, networkBytes, k)
    ensures i.transaction == r && Build(rt, i).Built? && ValidCapsule(rt, Build(rt, i).capsule)
  {
    hide C.Verified, CanBuild, Buildable, Build, ValidCapsule;
    i := BuildableBuilds(rt, r, authorBytes, networkBytes, k);
    BuilderAgrees(rt, i);
  }
}
