/** Every intent can be carried through all six states. */
module Completion {
  import opened Json
  import opened PythonValues
  import opened Coordinator
  import opened CoordinatorClosure
  import opened Replay
  import opened TamperEvidence
  import opened Evidence
  import opened Observations
  import opened ReleaseRuns

  /** Between any verified receipt and the last state there is evidence that advances it. */
  lemma CanAlwaysAdvance(rt: Runtime, r: Dict) returns (ev: Dict)
    requires Verified(rt, r) && |EventsOf(r)| < 6 && FieldsSafe(rt)
    ensures Advance(rt, r, STATES[|EventsOf(r)|], ev, "").Some?
  {
    hide ValidIdentity, ValidEvents, ValidEvidence, Advanced, EvidenceFor, GoodAssets, TransactionId, ReceiptDigest,
      GoodContext, EventsOf, ContextOf, PyStr, IsHex;
    IdentityTexts(rt, r);
    ContextIsGood(rt, r);
    var assets := map[ENVELOPE := PyStr(Get(r, "envelope_sha256"))];
    EnvelopeNameIsSafe(rt, r);
    OneAsset(rt, PyStr(Get(r, "envelope_sha256")));
    var i := |EventsOf(r)|;
    StateIndex(rt, r);
    ev := EvidenceFor(rt, i, ContextOf(r), assets);
    EvidencePasses(rt, i, ContextOf(r), assets);
    AdvanceCloses(rt, r, STATES[i], ev, "");
  }

  lemma ContextIsGood(rt: Runtime, r: Dict)
    requires Verified(rt, r) && |EventsOf(r)| < 6
    ensures GoodContext(ContextOf(r)) && ContextOf(r).envelope == Get(r, "envelope_sha256")
    ensures Get(r, "envelope_sha256") == Str(PyStr(Get(r, "envelope_sha256")))
  {
    hide ValidEvents, TransactionId, IsRepository, IsTag, ValidIdentity, ReceiptDigest;
    IdentityTexts(rt, r);
    IdentityIsScalar(rt, r);
    EnvelopeIsText(rt, r);
    StateIndex(rt, r);
    NotFinal(|EventsOf(r)| - 1);
    assert IsHex(ReceiptDigest(rt, r), 64);
  }

  /** No tag and no digest starts with a bracket. */
  lemma IdentityIsScalar(rt: Runtime, r: Dict)
    requires Verified(rt, r)
    ensures IsScalar(ContextOf(r).tag) && IsScalar(ContextOf(r).source)
  {
    hide ContextOf, Verified, TransactionId, IsRepository;
    IdentityTexts(rt, r);
    assert !IsTagChar("["[0]) && !IsTagChar("{"[0]);
  }

  /** The PREPARED assets bind the envelope digest, so it is always text. */
  lemma EnvelopeIsText(rt: Runtime, r: Dict)
    requires Verified(rt, r)
    ensures ContextOf(r).envelope.Str?
  {
    hide ContextOf, Verified, Safe, IntAtLeast, DigestMap;
    IdentityTexts(rt, r);
    var ev := EvidenceAt(rt, r, 0);
  }

  /** And the evidence there was searched for secret-looking names. */
  lemma EnvelopeNameIsSafe(rt: Runtime, r: Dict)
    requires Verified(rt, r)
    ensures !rt.sensitive(ENVELOPE)
  {
    hide ContextOf, Verified, IntAtLeast, IsHex, IsAssetName;
    IdentityTexts(rt, r);
    var ev := EvidenceAt(rt, r, 0);
    EnvelopeIsText(rt, r);
    var table := Get(ev, "expected_asset_digests");
    assert ENVELOPE in table.members;
    assert Safe(rt, ev["expected_asset_digests"]);
  }

  lemma NotFinal(i: nat)
    requires i < 5
    ensures STATES[i] != STATES[5]
  {
  }

  lemma OneAsset(rt: Runtime, envelope: string)
    requires IsSha256(envelope) && !rt.sensitive(ENVELOPE)
    ensures GoodAssets(rt, map[ENVELOPE := envelope], envelope)
  {
    hide IsHex;
    PlainEnvelopeName();
  }

  lemma EnvelopeIsDigest(x: Intent)
    requires ValidIntent(x)
    ensures IsSha256(x.envelope)
  {
    hide IsHex, IsRepository, IsTag;
  }

  lemma PlainEnvelopeName()
    ensures IsAssetName(ENVELOPE)
  {
  }

  /** Some evidence starts the transaction. */
  lemma CanStart(rt: Runtime, x: Intent, assets: map<string, string>) returns (ev: Dict)
    requires ValidIntent(x) && FieldsSafe(rt) && GoodAssets(rt, assets, x.envelope)
    ensures Initialize(rt, x, ev, "").Some?
  {
    hide ValidEvidence, EvidenceFor, GoodAssets, TransactionId, ReceiptDigest, Verified, Initialized, IsRepository,
      IsTag, IsHex, Initialize, Draft, FieldsSafe;
    var c := ContextOf(Draft(rt, x)).(pagesReceipt := Str(Zeros(64)));
    DraftReads(rt, x);
    ev := EvidenceFor(rt, 0, c, assets);
    EvidencePasses(rt, 0, c, assets);
    EvidenceFrame(rt, STATES[0], ev, c, ContextOf(Draft(rt, x)));
    InitializeCloses(rt, x, ev, "");
  }

  lemma RunStarts(rt: Runtime, x: Intent, step: Observation)
    ensures Run(rt, x, [step]) == Initialize(rt, x, step.evidence, step.observedAt)
  {
    hide Initialize, Advance;
  }

  lemma RunExtends(rt: Runtime, x: Intent, steps: seq<Observation>, r: Dict, more: Observation)
    requires Run(rt, x, steps) == Some(r) && 1 <= |steps| < 6
    ensures Run(rt, x, steps + [more]) == Advance(rt, r, STATES[|steps|], more.evidence, more.observedAt)
  {
    hide Initialize, Advance;
    assert (steps + [more])[..|steps|] == steps;
  }

  /** For every valid intent there is a run of each length up to six; the last one ends in
      BROWSER_VERIFIED. */
  lemma {:induction false} RunOfLength(rt: Runtime, x: Intent, n: nat) returns (steps: seq<Observation>, r: Dict)
    requires ValidIntent(x) && FieldsSafe(rt) && !rt.sensitive(ENVELOPE) && 1 <= n <= 6
    ensures |steps| == n && Run(rt, x, steps) == Some(r)
    ensures Verified(rt, r) && IsAbout(r, x) && Get(r, "state") == Str(STATES[n - 1])
    decreases n
  {
    hide Verified, Run, IsAbout, Advance, Initialize, EventsOf, GoodAssets, ValidIntent, Recorded;
    var assets := map[ENVELOPE := x.envelope];
    if n == 1 {
      EnvelopeIsDigest(x);
      OneAsset(rt, x.envelope);
      var ev := CanStart(rt, x, assets);
      steps, r := [Observation(ev, "")], Initialize(rt, x, ev, "").value;
      RunStarts(rt, x, steps[0]);
    } else {
      var before, b := RunOfLength(rt, x, n - 1);
      RunShape(rt, x, before, b);
      RecordedLength(rt, EventsOf(b), before);
      var ev := CanAlwaysAdvance(rt, b);
      steps, r := before + [Observation(ev, "")], Advance(rt, b, STATES[n - 1], ev, "").value;
      RunExtends(rt, x, before, b, Observation(ev, ""));
    }
    RunShape(rt, x, steps, r);
    RecordedLength(rt, EventsOf(r), steps);
    StateIndex(rt, r);
  }
}
