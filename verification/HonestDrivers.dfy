/** Drivers that record what they saw: when reconcile_receipt and advance_receipt agree. */
module HonestDrivers {
  import opened Json
  import opened PythonValues
  import opened Coordinator
  import opened CoordinatorClosure
  import opened Replay
  import opened TamperEvidence
  import opened Evidence
  import opened Reconciliation
  import opened ReleaseRuns
  import opened Observations
  import opened Completion
  import opened Convergence

  /** Status, tag and target as the report of a run gives them. */
  predicate SeesReport(report: Report, status: string, tag: Json, target: Json) {
    match report
    case Absent => status != "success"
    case Reported(success, t, c) =>
      status == (if success then "success" else "failure") && tag == Str(t) && target == Str(c)
  }

  /** The part of an observation that is about the release is what the provider shows. */
  predicate Sees(i: nat, p: Provider, w: Sighting) {
    match i
    case 0 => w.Signed? && w.authors == p.author
    case 1 => w.Uploaded? && w.draft == !p.immutable && w.expected == p.expected && w.observed == p.observed
    case 2 =>
      && w.Published? && w.immutable == p.immutable && w.draft == !p.immutable
      && w.authors == p.author && w.platforms == p.platform && w.total == p.author + p.platform
    case 3 => w.Materialized? && SeesReport(p.pages, w.status, w.tag, w.target)
    case 4 => w.Browsed? && SeesReport(p.browser, w.status, w.tag, w.target)
    case _ => false
  }

  /** The same observation of a release that is ready. */
  function OfReady(x: Intent, w: Sighting): Sighting {
    match w
    case Drafted(_, _, _, _, _) => w
    case Signed(_, bundle, workflow, ref, log) => Signed(1, bundle, workflow, ref, log)
    case Uploaded(_, expected, _) => Uploaded(true, expected, expected)
    case Published(_, _, target, tag, _, _, _) => Published(true, false, target, tag, 1, 1, 2)
    case Materialized(_, _, _, pages, k) => Materialized("success", Str(x.tag), Str(x.source), pages, k)
    case Browsed(_, _, _, run, files, result) =>
      Browsed("success", Str(x.tag), Str(x.source), run, files, result)
  }

  /** What the provider must show for the state after i recorded transitions. */
  predicate Ready(i: nat, x: Intent, p: Provider) {
    match i
    case 0 => p.author == 1
    case 1 => p.expected == p.observed && !p.immutable
    case 2 => p.immutable && p.author == 1 && p.platform == 1
    case 3 => Succeeded(x, p.pages)
    case 4 => Succeeded(x, p.browser)
    case _ => false
  }

  lemma ReadyProves(rt: Runtime, x: Intent, i: nat, p: Provider, w: Sighting, c: Context)
    requires i < 5 && Sees(i, p, w) && Proves(rt, c, OfReady(x, w)) && IsContextOf(c, x)
    ensures StageOf(w) == i + 1
    ensures Proves(rt, c, w) <==> Ready(i, x, p)
  {
    hide ProvesPages, ProvesCoordinator, ProvesRun, ProvesFiles, ProvesResult, BindsRelease;
  }

  /** A driver whose observation is true to the provider, and otherwise in order. */
  ghost predicate Honest(rt: Runtime, x: Intent, s: Sys, ev: Dict, w: Sighting) {
    && Says(ev, w) && Safe(rt, Obj(ev)) && Stage(s) < 5 && Sees(Stage(s), s.provider, w)
    && Proves(rt, ContextOf(s.receipt), OfReady(x, w))
  }

  /** advance_receipt accepts an honest observation exactly when the provider is ready, whatever
      reconcile_receipt would say. */
  lemma HonestAdvance(rt: Runtime, x: Intent, s: Sys, ev: Dict, w: Sighting)
    requires Verified(rt, s.receipt) && IsAbout(s.receipt, x) && Honest(rt, x, s, ev, w)
    ensures CanAdvance(rt, s.receipt, STATES[Stage(s) + 1], ev) <==> Ready(Stage(s), x, s.provider)
  {
    hide Verified, Says, Safe, Sees, Proves, Ready, ValidEvidence, EventsOf;
    StateIndex(rt, s.receipt);
    ReadyProves(rt, x, Stage(s), s.provider, w, ContextOf(s.receipt));
    SightingDecides(rt, ev, w, ContextOf(s.receipt));
  }

  /** reconcile_receipt and advance_receipt on one provider. What is advised for recording is then refused
      exactly when a release was published before its assets are recorded; what advance_receipt accepts was
      not advised exactly when an attestation count is doubled, or the author's is gone at AUTHOR_ATTESTED. */
  lemma AdviceAndRecord(rt: Runtime, x: Intent, s: Sys, ev: Dict, w: Sighting)
    requires Verified(rt, s.receipt) && IsAbout(s.receipt, x) && Honest(rt, x, s, ev, w)
    requires FieldsSafe(rt) && NamesSafe(rt, s.provider)
    ensures var i, p := Stage(s), s.provider;
      var advised := Reconcile(rt, s.receipt, Snapshot(x, p)) == Next(Record(STATES[i + 1]));
      var accepted := CanAdvance(rt, s.receipt, STATES[i + 1], ev);
      && (advised ==> (accepted <==> !(i == 1 && p.immutable)))
      && (accepted ==> (advised <==> p.author <= 1 && p.platform <= 1 && (i == 1 ==> p.author == 1)))
  {
    hide Verified, Honest, Reconcile, CanAdvance, FieldsSafe, NamesSafe, Snapshot, EventsOf, Decide, Ready;
    HonestIsEarly(rt, x, s, ev, w);
    StateIndex(rt, s.receipt);
    ReconcileDecides(rt, x, s.receipt, s.provider);
    HonestAdvance(rt, x, s, ev, w);
    ReadyAndAdvised(Stage(s), x, s.provider);
  }

  lemma HonestIsEarly(rt: Runtime, x: Intent, s: Sys, ev: Dict, w: Sighting)
    requires Honest(rt, x, s, ev, w)
    ensures Stage(s) < 5
    ensures Stage(s) == 1 ==> s.provider.expected != map[]
  {
    hide Says, Safe, ProvesPages, ProvesCoordinator, ProvesRun, ProvesFiles, ProvesResult;
  }

  lemma ReadyAndAdvised(i: nat, x: Intent, p: Provider)
    requires i < 5 && (i == 1 ==> p.expected != map[])
    ensures var advised := Decide(i, x, p) == Next(Record(STATES[i + 1]));
      && (advised ==> (Ready(i, x, p) <==> !(i == 1 && p.immutable)))
      && (Ready(i, x, p) ==> (advised <==> p.author <= 1 && p.platform <= 1 && (i == 1 ==> p.author == 1)))
  {
    hide Succeeded;
  }

  /** Whatever a verified receipt records of a state is proof of that state. */
  lemma RecordedProves(rt: Runtime, r: Dict, ev: Dict, w: Sighting)
    requires Verified(rt, r) && StageOf(w) < |EventsOf(r)| && Says(ev, w)
    requires EventsOf(r)[StageOf(w)].Obj? && Get(EventsOf(r)[StageOf(w)].members, "evidence") == Obj(ev)
    ensures Proves(rt, ContextOf(r), w)
  {
    hide Verified, EventsOf, ContextOf, Says, Proves, ValidEvidence;
    EnvelopeIsText(rt, r);
    var recorded := EvidenceAt(rt, r, StageOf(w));
    SightingDecides(rt, ev, w, ContextOf(r));
  }

  // ---- runs of honest drivers

  /** Before its assets are recorded a release must be a draft, and the assets it expects must be well named,
      carry digests and bind the envelope. */
  predicate CanBeRecorded(x: Intent, s: Sys) {
    Stage(s) <= 1 ==> !s.provider.immutable && BindsRelease(s.provider.expected, Str(x.envelope))
  }

  /** A fresh step whose record, if one is advised, is made on an honest observation. */
  ghost predicate HonestStep(rt: Runtime, x: Intent, s: Sys, step: Step) {
    && IsFresh(step)
    && (step.Advise? && Stage(s) < 5 && Decide(Stage(s), x, s.provider) == Next(Record(STATES[Stage(s) + 1])) ==>
          exists w :: Honest(rt, x, s, step.evidence, w))
  }

  ghost predicate HonestRun(rt: Runtime, x: Intent, s: Sys, steps: seq<Step>)
    decreases |steps|
  {
    steps == [] || (HonestStep(rt, x, s, steps[0]) && HonestRun(rt, x, Take(rt, x, s, steps[0]), steps[1..]))
  }

  /** When the provider is ready some honest observation can be made. */
  lemma HonestEvidence(rt: Runtime, x: Intent, s: Sys) returns (ev: Dict, w: Sighting)
    requires Inv(rt, x, s) && FieldsSafe(rt) && Stage(s) < 5 && CanBeRecorded(x, s)
    requires Ready(Stage(s), x, s.provider)
    ensures Honest(rt, x, s, ev, w)
  {
    hide Verified, FieldsSafe, IsAbout, EventsOf, ContextOf, Says, Safe, Filled, GoodContext, SafeSighting, Proves;
    var i, p, c := Stage(s), s.provider, ContextOf(s.receipt);
    StateIndex(rt, s.receipt);
    ContextIsGood(rt, s.receipt);
    AboutContext(x, s.receipt);
    w := Sample(rt, i + 1, c, p.expected);
    ev := Filled(w);
    FilledSays(w);
    if i == 1 { BoundIsGood(rt, x, p); }
    SampleProves(rt, i + 1, c, p.expected);
    FilledIsSafe(rt, w);
    SampleSees(rt, x, i, p, c);
  }

  lemma AboutContext(x: Intent, r: Dict)
    requires IsAbout(r, x)
    ensures IsContextOf(ContextOf(r), x)
  {
  }

  lemma BoundIsGood(rt: Runtime, x: Intent, p: Provider)
    requires BindsRelease(p.expected, Str(x.envelope)) && NamesSafe(rt, p)
    ensures GoodAssets(rt, p.expected, x.envelope)
  {
  }

  /** Of a ready provider the sample is a true observation. */
  lemma SampleSees(rt: Runtime, x: Intent, i: nat, p: Provider, c: Context)
    requires i < 5 && Ready(i, x, p) && IsContextOf(c, x)
    ensures var w := Sample(rt, i + 1, c, p.expected); Sees(i, p, w) && OfReady(x, w) == w
  {
  }

  /** A fresh step moves the receipt only by an accepted record of what is advised, and before the assets are
      recorded it changes neither what is expected nor whether the release is published. */
  lemma FreshStep(rt: Runtime, x: Intent, s: Sys, step: Step)
    requires Verified(rt, s.receipt) && IsAbout(s.receipt, x) && FieldsSafe(rt) && IsFresh(step)
    ensures var t := Take(rt, x, s, step);
      && Verified(rt, t.receipt) && IsAbout(t.receipt, x) && Stage(s) <= Stage(t)
      && (Stage(s) <= 1 ==> t.provider.immutable == s.provider.immutable && t.provider.expected == s.provider.expected)
      && (t.receipt != s.receipt ==>
            && step.Advise? && Stage(s) < 5 && Stage(t) == Stage(s) + 1
            && Decide(Stage(s), x, s.provider) == Next(Record(STATES[Stage(s) + 1]))
            && CanAdvance(rt, s.receipt, STATES[Stage(s) + 1], step.evidence))
  {
    hide Verified, Reconcile, FieldsSafe, IsAbout, NamesSafe, Snapshot, Succeeded, EventsOf, CanAdvance, Advanced;
    StateIndex(rt, s.receipt);
    if !NamesSafe(rt, s.provider) {
      SensitiveNameRefused(rt, x, s.receipt, s.provider);
    } else {
      ReconcileDecides(rt, x, s.receipt, s.provider);
      var plan := Decide(Stage(s), x, s.provider);
      if step.Advise? && plan.Next? && plan.action.Record? {
        var next := Advance(rt, s.receipt, plan.action.state, step.evidence, step.observedAt);
        if next.Some? {
          AdvanceMoves(rt, x, s.receipt, plan.action.state, step.evidence, step.observedAt, next.value);
        }
      }
    }
  }

  /** What an honest driver can record of the assets, it could record before; what it cannot, it never can. */
  lemma RecordableStays(rt: Runtime, x: Intent, s: Sys, step: Step)
    requires Verified(rt, s.receipt) && IsAbout(s.receipt, x) && FieldsSafe(rt) && HonestStep(rt, x, s, step)
    ensures CanBeRecorded(x, Take(rt, x, s, step)) <==> CanBeRecorded(x, s)
  {
    hide Verified, FieldsSafe, IsAbout, EventsOf, CanAdvance, Honest, BindsRelease, Take, Decide;
    FreshStep(rt, x, s, step);
    var t := Take(rt, x, s, step);
    if t.receipt != s.receipt && Stage(s) == 1 {
      var w :| Honest(rt, x, s, step.evidence, w);
      AcceptedIsRecordable(rt, x, s, step.evidence, w);
    }
  }

  lemma AcceptedIsRecordable(rt: Runtime, x: Intent, s: Sys, ev: Dict, w: Sighting)
    requires Verified(rt, s.receipt) && IsAbout(s.receipt, x) && Honest(rt, x, s, ev, w) && Stage(s) == 1
    requires CanAdvance(rt, s.receipt, STATES[2], ev)
    ensures CanBeRecorded(x, s)
  {
    hide Verified, EventsOf, CanAdvance, BindsRelease, Says, Safe, ContextOf;
    HonestAdvance(rt, x, s, ev, w);
    AboutContext(x, s.receipt);
  }

  lemma AdvisedIsReady(i: nat, x: Intent, p: Provider)
    requires i < 5 && Decide(i, x, p) == Next(Record(STATES[i + 1])) && (i == 1 ==> !p.immutable)
    ensures Ready(i, x, p)
  {
    hide Succeeded;
  }

  lemma HonestProgress(rt: Runtime, x: Intent, s: Sys) returns (step: Step)
    requires Inv(rt, x, s) && FieldsSafe(rt) && CanBeRecorded(x, s)
    requires Rank(x, s) > 0 && AssetsCanMatch(Stage(s), s.provider)
    ensures HonestStep(rt, x, s, step) && Productive(rt, x, s, step)
  {
    hide Inv, Reconcile, FieldsSafe, Snapshot, Decide, Rank, AssetsCanMatch, Honest, CanBeRecorded, Ready, Succeeded,
      Missing;
    InvDecides(rt, x, s);
    RankZero(rt, x, s);
    match Decide(Stage(s), x, s.provider).action
    case Act(effect) => step := CanAct(rt, x, s, effect);
    case Record(state) => step := HonestRecord(rt, x, s, state);
    case Complete => step := Crash;
  }

  lemma HonestRecord(rt: Runtime, x: Intent, s: Sys, state: string) returns (step: Step)
    requires Inv(rt, x, s) && FieldsSafe(rt) && CanBeRecorded(x, s)
    requires Decide(Stage(s), x, s.provider) == Next(Record(state))
    ensures HonestStep(rt, x, s, step) && Productive(rt, x, s, step)
  {
    hide Verified, FieldsSafe, IsAbout, Advanced, EventsOf, Honest, ProviderFits, Ready, CanAdvance, BindsRelease;
    var i := Stage(s);
    StateIndex(rt, s.receipt);
    RecordIsNext(i, x, s.provider, state);
    AdvisedIsReady(i, x, s.provider);
    var ev, w := HonestEvidence(rt, x, s);
    HonestAdvance(rt, x, s, ev, w);
    AdvanceCloses(rt, s.receipt, STATES[i + 1], ev, "");
    step := Advise(ev, "");
  }

  lemma RecordIsNext(i: nat, x: Intent, p: Provider, state: string)
    requires Decide(i, x, p) == Next(Record(state))
    ensures i < 5 && state == STATES[i + 1]
  {
    hide Succeeded;
  }

  lemma {:induction false} FinishHonestly(rt: Runtime, x: Intent, s: Sys) returns (steps: seq<Step>)
    requires Inv(rt, x, s) && FieldsSafe(rt) && CanBeRecorded(x, s) && AssetsCanMatch(Stage(s), s.provider)
    ensures HonestRun(rt, x, s, steps) && |steps| <= Rank(x, s)
    ensures Get(Drive(rt, x, s, steps).receipt, "state") == Str("BROWSER_VERIFIED")
    decreases Rank(x, s)
  {
    hide Reconcile, FieldsSafe, Rank, Take, Snapshot, Productive, AssetsCanMatch, Stage, CanBeRecorded, HonestStep,
      ProviderFits, Verified, IsAbout;
    RankZero(rt, x, s);
    if Rank(x, s) == 0 {
      steps := [];
    } else {
      var step := HonestProgress(rt, x, s);
      HonestIsFresh(rt, x, s, step);
      TakeKeepsInv(rt, x, s, step);
      TakeLowers(rt, x, s, step);
      MatchStays(rt, x, s, step);
      RecordableStays(rt, x, s, step);
      var rest := FinishHonestly(rt, x, Take(rt, x, s, step));
      steps := [step] + rest;
      assert steps[1..] == rest;
    }
  }

  lemma HonestIsFresh(rt: Runtime, x: Intent, s: Sys, step: Step)
    requires HonestStep(rt, x, s, step)
    ensures IsFresh(step)
  {
  }

  lemma {:induction false} HonestRunIsFresh(rt: Runtime, x: Intent, s: Sys, steps: seq<Step>)
    requires HonestRun(rt, x, s, steps)
    ensures Fresh(steps)
    decreases |steps|
  {
    hide Take, HonestStep;
    if steps != [] {
      HonestIsFresh(rt, x, s, steps[0]);
      HonestRunIsFresh(rt, x, Take(rt, x, s, steps[0]), steps[1..]);
      assert forall step :: step in steps ==> step == steps[0] || step in steps[1..];
    }
  }

  lemma {:induction false} NeverRecorded(rt: Runtime, x: Intent, s: Sys, steps: seq<Step>)
    requires Verified(rt, s.receipt) && IsAbout(s.receipt, x) && FieldsSafe(rt) && HonestRun(rt, x, s, steps)
    requires !CanBeRecorded(x, s)
    ensures Stage(Drive(rt, x, s, steps)) <= 1
    ensures Get(Drive(rt, x, s, steps).receipt, "state") != Str("BROWSER_VERIFIED")
    decreases |steps|
  {
    hide Verified, FieldsSafe, IsAbout, Take, EventsOf, HonestStep, BindsRelease;
    if steps == [] {
      StateIndex(rt, s.receipt);
      NotFinal(Stage(s));
    } else {
      HonestIsFresh(rt, x, s, steps[0]);
      FreshStep(rt, x, s, steps[0]);
      RecordableStays(rt, x, s, steps[0]);
      NeverRecorded(rt, x, Take(rt, x, s, steps[0]), steps[1..]);
    }
  }

  /** Exactly when honest drivers can finish a release, for every provider and every verified receipt: when
      fresh drivers could with any evidence, and, until its assets are recorded, the release is still a
      draft that expects well-named assets with the envelope among them. */
  lemma HonestlyFinishes(rt: Runtime, x: Intent, s: Sys)
    requires Verified(rt, s.receipt) && IsAbout(s.receipt, x) && FieldsSafe(rt)
    ensures (exists steps ::
              HonestRun(rt, x, s, steps) && Get(Drive(rt, x, s, steps).receipt, "state") == Str("BROWSER_VERIFIED"))
        <==> Finishable(rt, s) && CanBeRecorded(x, s)
  {
    hide Verified, FieldsSafe, IsAbout, Drive, ProviderFits, AssetsCanMatch, EventsOf, HonestStep, BindsRelease;
    if !(Finishable(rt, s) && CanBeRecorded(x, s)) {
      forall steps | HonestRun(rt, x, s, steps)
        ensures Get(Drive(rt, x, s, steps).receipt, "state") != Str("BROWSER_VERIFIED")
      {
        HonestRunIsFresh(rt, x, s, steps);
        if !CanBeRecorded(x, s) { NeverRecorded(rt, x, s, steps); } else { StuckForever(rt, x, s, steps); }
      }
    } else if Stage(s) == 5 {
      Finished(rt, x, s);
      assert HonestRun(rt, x, s, []);
    } else {
      var steps := FinishHonestly(rt, x, s);
    }
  }
}
