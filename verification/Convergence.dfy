/** Every run of fresh drivers heads for COMPLETE. */
module Convergence {
  import opened Json
  import opened PythonValues
  import opened Coordinator
  import opened Replay
  import opened Evidence
  import opened Observations
  import opened Reconciliation
  import opened ReleaseRuns
  import opened Completion

  /** Expected assets that are not there, or there with another digest. */
  function Missing(p: Provider): set<string> {
    set k | k in p.expected && !(k in p.observed && p.observed[k] == p.expected[k])
  }

  /** What is left to do after i recorded transitions, each upload counted. */
  function Remaining(i: nat, x: Intent, p: Provider): nat {
    if i == 0 then 8 + |p.expected| + (if p.author == 0 then 1 else 0)
    else if i == 1 then 7 + |Missing(p)|
    else if i == 2 then 5 + (if p.immutable then 0 else 1)
    else if i == 3 then 3 + (if Succeeded(x, p.pages) then 0 else 1)
    else if i == 4 then 1 + (if Succeeded(x, p.browser) then 0 else 1)
    else 0
  }

  function Rank(x: Intent, s: Sys): nat { Remaining(Stage(s), x, s.provider) }

  /** The step gets something durable done: an effect that takes, or an accepted record. */
  ghost predicate Productive(rt: Runtime, x: Intent, s: Sys, step: Step) {
    var plan := Decide(Stage(s), x, s.provider);
    plan.Next? &&
    match plan.action
    case Act(UploadMissingAssets) => step.Perform? && step.done * Missing(s.provider) != {}
    case Act(DispatchPages) => step.Perform? && Succeeded(x, step.outcome)
    case Act(RunBrowserVerification) => step.Perform? && Succeeded(x, step.outcome)
    case Act(_) => step.Perform?
    case Record(state) =>
      step.Advise? && Advance(rt, s.receipt, state, step.evidence, step.observedAt).Some?
    case Complete => false
  }

  lemma CountShrinks(a: set<string>, b: set<string>)
    requires a <= b
    ensures |a| <= |b| && (a != b ==> |a| < |b|)
  {
    assert b == a + (b - a);
    assert |b| == |a| + |b - a|;
  }

  lemma AffectLowers(rt: Runtime, x: Intent, i: nat, p: Provider, effect: Effect, done: set<string>, outcome: Report)
    requires ProviderFits(rt, i, p) && i <= 5 && Decide(i, x, p) == Next(Act(effect))
    ensures var q := Affect(p, effect, done, outcome);
      && Remaining(i, x, q) <= Remaining(i, x, p)
      && (effect.SignAuthor? || effect.PublishImmutable? ==> Remaining(i, x, q) < Remaining(i, x, p))
      && (effect.UploadMissingAssets? && done * Missing(p) != {} ==> Remaining(i, x, q) < Remaining(i, x, p))
      && (effect.DispatchPages? || effect.RunBrowserVerification? ==>
           (Succeeded(x, outcome) ==> Remaining(i, x, q) < Remaining(i, x, p)))
  {
    hide ProviderFits, Succeeded;
    if effect.UploadMissingAssets? { UploadLowers(p, done, outcome); }
  }

  lemma UploadLowers(p: Provider, done: set<string>, outcome: Report)
    ensures var q := Affect(p, UploadMissingAssets, done, outcome);
      && |Missing(q)| <= |Missing(p)|
      && (done * Missing(p) != {} ==> |Missing(q)| < |Missing(p)|)
  {
    var q := Affect(p, UploadMissingAssets, done, outcome);
    assert Missing(q) == Missing(p) - done;
    CountShrinks(Missing(q), Missing(p));
    if done * Missing(p) != {} {
      var k :| k in done * Missing(p);
      assert k in Missing(p) && k !in Missing(q);
    }
  }

  /** Moving on to the next state leaves strictly less, because that state's effect is already done. */
  lemma RecordLowers(rt: Runtime, x: Intent, i: nat, p: Provider, state: string)
    requires ProviderFits(rt, i, p) && i <= 5 && Decide(i, x, p) == Next(Record(state))
    ensures i < 5 && Remaining(i + 1, x, p) < Remaining(i, x, p)
  {
    hide NamesSafe, Succeeded;
    CountShrinks(Missing(p), p.expected.Keys);
    assert |p.expected.Keys| == |p.expected|;
    if i == 1 { assert Missing(p) == {}; }
  }

  lemma TakeLowers(rt: Runtime, x: Intent, s: Sys, step: Step)
    requires Inv(rt, x, s) && FieldsSafe(rt) && IsFresh(step)
    ensures Rank(x, Take(rt, x, s, step)) <= Rank(x, s)
    ensures Productive(rt, x, s, step) ==> Rank(x, Take(rt, x, s, step)) < Rank(x, s)
  {
    hide Verified, Reconcile, FieldsSafe, IsAbout, Advance, ProviderFits, Snapshot, Succeeded, Affect, Remaining,
      Decide, EventsOf;
    InvDecides(rt, x, s);
    var i, p := Stage(s), s.provider;
    var action := Decide(i, x, p).action;
    if step.Perform? && action.Act? {
      AffectLowers(rt, x, i, p, action.effect, step.done, step.outcome);
    } else if step.Advise? && action.Record? {
      RecordLowers(rt, x, i, p, action.state);
      var next := Advance(rt, s.receipt, action.state, step.evidence, step.observedAt);
      if next.Some? {
        AdvanceMoves(rt, x, s.receipt, action.state, step.evidence, step.observedAt, next.value);
        StateIndex(rt, s.receipt);
        assert Stage(s.(receipt := next.value)) == i + 1;
      }
    }
  }

  /** How many steps of a run were productive. */
  ghost function Progress(rt: Runtime, x: Intent, s: Sys, steps: seq<Step>): nat
    decreases |steps|
  {
    if steps == [] then 0
    else
      var rest := Progress(rt, x, Take(rt, x, s, steps[0]), steps[1..]);
      if Productive(rt, x, s, steps[0]) then 1 + rest else rest
  }

  lemma {:induction false} ProgressBounded(rt: Runtime, x: Intent, s: Sys, steps: seq<Step>)
    requires Inv(rt, x, s) && FieldsSafe(rt) && Fresh(steps)
    ensures Progress(rt, x, s, steps) + Rank(x, Drive(rt, x, s, steps)) <= Rank(x, s)
    decreases |steps|
  {
    hide Inv, FieldsSafe, Take, Rank, Productive;
    if steps != [] {
      TakeKeepsInv(rt, x, s, steps[0]);
      TakeLowers(rt, x, s, steps[0]);
      ProgressBounded(rt, x, Take(rt, x, s, steps[0]), steps[1..]);
    }
  }

  /** Nothing is left exactly when the receipt is complete. */
  lemma RankZero(rt: Runtime, x: Intent, s: Sys)
    requires Inv(rt, x, s) && FieldsSafe(rt)
    ensures Rank(x, s) <= 9 + |s.provider.expected|
    ensures Rank(x, s) == 0 <==> Reconcile(rt, s.receipt, Snapshot(x, s.provider)) == Next(Complete)
    ensures Rank(x, s) == 0 <==> Get(s.receipt, "state") == Str("BROWSER_VERIFIED")
  {
    hide Verified, Reconcile, FieldsSafe, IsAbout, NamesSafe, Snapshot, Succeeded, EventsOf;
    InvDecides(rt, x, s);
    StateIndex(rt, s.receipt);
    CountShrinks(Missing(s.provider), s.provider.expected.Keys);
    assert |s.provider.expected.Keys| == |s.provider.expected|;
  }

  /** Convergence: however steps and crashes interleave, a run with at least nine plus as many
      productive steps as there are assets ends COMPLETE. */
  lemma Converges(rt: Runtime, x: Intent, s: Sys, steps: seq<Step>)
    requires Inv(rt, x, s) && FieldsSafe(rt) && Fresh(steps)
    requires Progress(rt, x, s, steps) >= 9 + |s.provider.expected|
    ensures var t := Drive(rt, x, s, steps);
      && Reconcile(rt, t.receipt, Snapshot(x, t.provider)) == Next(Complete)
      && Get(t.receipt, "state") == Str("BROWSER_VERIFIED")
  {
    hide Inv, Reconcile, FieldsSafe, Rank, Drive, Progress, Snapshot;
    ProgressBounded(rt, x, s, steps);
    SignsOnce(rt, x, s, steps);
    RankZero(rt, x, s);
    RankZero(rt, x, Drive(rt, x, s, steps));
  }

  // ---- where progress is possible

  /** Up to AUTHOR_ATTESTED the listed assets can still become the expected ones: there are some, and no
      foreign name is listed, which no upload would remove. */
  predicate AssetsCanMatch(i: nat, p: Provider) {
    i >= 2 || (p.expected != map[] && p.observed.Keys <= p.expected.Keys)
  }

  /** Until the receipt is complete, some next step of a fresh driver is productive. */
  lemma CanProgress(rt: Runtime, x: Intent, s: Sys) returns (step: Step)
    requires Inv(rt, x, s) && FieldsSafe(rt)
    requires Rank(x, s) > 0 && AssetsCanMatch(Stage(s), s.provider)
    ensures IsFresh(step) && Productive(rt, x, s, step)
  {
    hide Inv, Reconcile, FieldsSafe, Snapshot, Productive, Decide, Rank, AssetsCanMatch;
    InvDecides(rt, x, s);
    RankZero(rt, x, s);
    match Decide(Stage(s), x, s.provider).action
    case Act(effect) => step := CanAct(rt, x, s, effect);
    case Record(state) => step := CanRecord(rt, x, s, state);
    case Complete => step := Crash;
  }

  lemma CanAct(rt: Runtime, x: Intent, s: Sys, effect: Effect) returns (step: Step)
    requires Inv(rt, x, s) && FieldsSafe(rt) && Decide(Stage(s), x, s.provider) == Next(Act(effect))
    requires AssetsCanMatch(Stage(s), s.provider)
    ensures IsFresh(step) && Productive(rt, x, s, step)
  {
    hide Verified, FieldsSafe, IsAbout, NamesSafe, Stage, Missing;
    var missing := Missing(s.provider);
    if missing == {} && effect.UploadMissingAssets? { NothingMissing(s.provider); }
    step := Perform(missing, Reported(true, x.tag, x.source));
    assert missing * missing == missing;
  }

  lemma CanRecord(rt: Runtime, x: Intent, s: Sys, state: string) returns (step: Step)
    requires Inv(rt, x, s) && FieldsSafe(rt)
    requires Decide(Stage(s), x, s.provider) == Next(Record(state))
    ensures IsFresh(step) && Productive(rt, x, s, step)
  {
    hide Verified, FieldsSafe, IsAbout, NamesSafe, Advance, EventsOf, Succeeded;
    StateIndex(rt, s.receipt);
    var ev := CanAlwaysAdvance(rt, s.receipt);
    step := Advise(ev, "");
  }

  lemma NothingMissing(p: Provider)
    requires Missing(p) == {} && p.observed.Keys <= p.expected.Keys
    ensures p.expected == p.observed
  {
    forall k | k in p.expected ensures k in p.observed && p.observed[k] == p.expected[k] {
      assert k !in Missing(p);
    }
    assert p.expected.Keys == p.observed.Keys;
  }

  /** A new transaction starts inside the invariant, whatever assets its draft lists and with an existing
      author signature included. */
  lemma Starts(rt: Runtime, x: Intent, ev: Dict, observedAt: string, r: Dict, p: Provider)
    requires Initialize(rt, x, ev, observedAt) == Some(r)
    ensures Inv(rt, x, Sys(r, p)) <==> ProviderFits(rt, 0, p)
    ensures Stage(Sys(r, p)) == 0
  {
    hide Verified, ValidEvidence, ProviderFits, TransactionId, Event, ReceiptDigest;
    InitialRun(rt, x, Observation(ev, observedAt), r);
    InitializedVerified(rt, x, ev, observedAt, r);
    RecordedLength(rt, EventsOf(r), [Observation(ev, observedAt)]);
  }

  // ---- which releases can be finished

  lemma MatchStays(rt: Runtime, x: Intent, s: Sys, step: Step)
    requires Inv(rt, x, s) && FieldsSafe(rt) && IsFresh(step) && AssetsCanMatch(Stage(s), s.provider)
    ensures AssetsCanMatch(Stage(Take(rt, x, s, step)), Take(rt, x, s, step).provider)
  {
    hide Verified, Reconcile, FieldsSafe, IsAbout, Advance, NamesSafe, Snapshot, Succeeded, EventsOf;
    InvDecides(rt, x, s);
    var action := Decide(Stage(s), x, s.provider).action;
    if step.Advise? && action.Record? {
      var next := Advance(rt, s.receipt, action.state, step.evidence, step.observedAt);
      if next.Some? {
        AdvanceMoves(rt, x, s.receipt, action.state, step.evidence, step.observedAt, next.value);
      }
    }
  }

  /** Where the assets can match some run of fresh drivers, no longer than the rank, ends in
      BROWSER_VERIFIED. */
  lemma {:induction false} CanFinish(rt: Runtime, x: Intent, s: Sys) returns (steps: seq<Step>)
    requires Inv(rt, x, s) && FieldsSafe(rt) && AssetsCanMatch(Stage(s), s.provider)
    ensures Fresh(steps) && |steps| <= Rank(x, s)
    ensures Get(Drive(rt, x, s, steps).receipt, "state") == Str("BROWSER_VERIFIED")
    decreases Rank(x, s)
  {
    hide Inv, Reconcile, FieldsSafe, Rank, Take, Snapshot, Productive, AssetsCanMatch, Stage;
    RankZero(rt, x, s);
    if Rank(x, s) == 0 {
      steps := [];
    } else {
      var step := CanProgress(rt, x, s);
      TakeKeepsInv(rt, x, s, step);
      TakeLowers(rt, x, s, step);
      MatchStays(rt, x, s, step);
      var rest := CanFinish(rt, x, Take(rt, x, s, step));
      steps := [step] + rest;
      assert steps[1..] == rest;
    }
  }

  /** What a fresh driver finds in the receipt and the provider when the release can still be finished. */
  ghost predicate Finishable(rt: Runtime, s: Sys) {
    Stage(s) == 5 || (ProviderFits(rt, Stage(s), s.provider) && AssetsCanMatch(Stage(s), s.provider))
  }

  /** An effect cannot make an unfinishable provider finishable. */
  lemma AffectStaysStuck(rt: Runtime, x: Intent, i: nat, p: Provider, effect: Effect, done: set<string>,
    outcome: Report)
    requires i < 5 && !(ProviderFits(rt, i, p) && AssetsCanMatch(i, p)) && Decide(i, x, p) == Next(Act(effect))
    requires NamesSafe(rt, p)
    ensures var q := Affect(p, effect, done, outcome); !(ProviderFits(rt, i, q) && AssetsCanMatch(i, q))
  {
    hide Succeeded;
    if effect.UploadMissingAssets? && !(p.observed.Keys <= p.expected.Keys) {
      var k :| k in p.observed && k !in p.expected;
      assert k in Affect(p, effect, done, outcome).observed;
    }
  }

  /** Nor does a record: what it is advised for fits the state before. */
  lemma RecordStaysStuck(rt: Runtime, x: Intent, i: nat, p: Provider, state: string)
    requires i < 5 && !(ProviderFits(rt, i, p) && AssetsCanMatch(i, p)) && Decide(i, x, p) == Next(Record(state))
    requires NamesSafe(rt, p)
    ensures i + 1 < 5 && !(ProviderFits(rt, i + 1, p) && AssetsCanMatch(i + 1, p))
  {
    hide Succeeded;
  }

  lemma StuckStays(rt: Runtime, x: Intent, s: Sys, step: Step)
    requires Verified(rt, s.receipt) && IsAbout(s.receipt, x) && FieldsSafe(rt) && IsFresh(step)
    requires !Finishable(rt, s)
    ensures var t := Take(rt, x, s, step);
      Verified(rt, t.receipt) && IsAbout(t.receipt, x) && !Finishable(rt, t)
  {
    hide Verified, Reconcile, FieldsSafe, IsAbout, Advance, NamesSafe, Snapshot, Succeeded, Affect, EventsOf,
      ProviderFits, AssetsCanMatch, Decide;
    var i, p := Stage(s), s.provider;
    StateIndex(rt, s.receipt);
    if !NamesSafe(rt, p) {
      SensitiveNameRefused(rt, x, s.receipt, p);
    } else {
      ReconcileDecides(rt, x, s.receipt, p);
      var plan := Decide(i, x, p);
      if step.Perform? && plan.Next? && plan.action.Act? {
        AffectStaysStuck(rt, x, i, p, plan.action.effect, step.done, step.outcome);
      } else if step.Advise? && plan.Next? && plan.action.Record? {
        RecordStaysStuck(rt, x, i, p, plan.action.state);
        var next := Advance(rt, s.receipt, plan.action.state, step.evidence, step.observedAt);
        if next.Some? {
          AdvanceMoves(rt, x, s.receipt, plan.action.state, step.evidence, step.observedAt, next.value);
        }
      }
    }
  }

  /** An asset with the name of a secret makes reconcile_receipt refuse the snapshot. */
  lemma SensitiveNameRefused(rt: Runtime, x: Intent, r: Dict, p: Provider)
    requires !NamesSafe(rt, p)
    ensures Reconcile(rt, r, Snapshot(x, p)) == Refused
  {
    hide Verified, AssetTable, ReportJson, NextAction;
    var s := Snapshot(x, p);
    TableIsUnsafe(rt, p);
    assert "expected_asset_digests" in s && "observed_asset_digests" in s;
  }

  lemma TableIsUnsafe(rt: Runtime, p: Provider)
    requires !NamesSafe(rt, p)
    ensures !Safe(rt, AssetTable(p.expected)) || !Safe(rt, AssetTable(p.observed))
  {
    assert forall k :: k in p.expected ==> k in AssetTable(p.expected).members;
    assert forall k :: k in p.observed ==> k in AssetTable(p.observed).members;
  }

  lemma {:induction false} StuckForever(rt: Runtime, x: Intent, s: Sys, steps: seq<Step>)
    requires Verified(rt, s.receipt) && IsAbout(s.receipt, x) && FieldsSafe(rt) && Fresh(steps)
    requires !Finishable(rt, s)
    ensures Get(Drive(rt, x, s, steps).receipt, "state") != Str("BROWSER_VERIFIED")
    decreases |steps|
  {
    hide Verified, FieldsSafe, IsAbout, Finishable, Take, EventsOf;
    if steps == [] {
      StateIndex(rt, s.receipt);
      NotComplete(rt, s);
    } else {
      StuckStays(rt, x, s, steps[0]);
      StuckForever(rt, x, Take(rt, x, s, steps[0]), steps[1..]);
    }
  }

  lemma NotComplete(rt: Runtime, s: Sys)
    requires Verified(rt, s.receipt) && !Finishable(rt, s)
    ensures Get(s.receipt, "state") != Str("BROWSER_VERIFIED")
  {
    hide Verified, ProviderFits, AssetsCanMatch;
    StateIndex(rt, s.receipt);
    if |EventsOf(s.receipt)| <= 5 { NotFinal(|EventsOf(s.receipt)| - 1); }
  }

  /** Exactly when some run of fresh drivers finishes a release, for every provider and every verified
      receipt: no doubled count, no lost or missing attestation, no secret-looking asset name, and, until
      the assets are recorded, no asset listed that is not expected. */
  lemma FinishesExactly(rt: Runtime, x: Intent, s: Sys)
    requires Verified(rt, s.receipt) && IsAbout(s.receipt, x) && FieldsSafe(rt)
    ensures (exists steps :: Fresh(steps) && Get(Drive(rt, x, s, steps).receipt, "state") == Str("BROWSER_VERIFIED"))
        <==> Finishable(rt, s)
  {
    hide Verified, FieldsSafe, IsAbout, Drive, ProviderFits, AssetsCanMatch, EventsOf;
    if !Finishable(rt, s) {
      forall steps | Fresh(steps) ensures Get(Drive(rt, x, s, steps).receipt, "state") != Str("BROWSER_VERIFIED") {
        StuckForever(rt, x, s, steps);
      }
    } else if Stage(s) == 5 {
      Finished(rt, x, s);
      assert Fresh([]);
    } else {
      var steps := CanFinish(rt, x, s);
    }
  }

  lemma Finished(rt: Runtime, x: Intent, s: Sys)
    requires Verified(rt, s.receipt) && Stage(s) == 5
    ensures Get(Drive(rt, x, s, []).receipt, "state") == Str("BROWSER_VERIFIED")
  {
    hide Verified;
    StateIndex(rt, s.receipt);
  }

  /** One listed asset that is not expected, at AUTHOR_ATTESTED, whatever else is listed: the plan stays
      to upload for ever. */
  lemma ForeignAssetUploadsForever(rt: Runtime, x: Intent, s: Sys, k: string, steps: seq<Step>)
    requires Inv(rt, x, s) && FieldsSafe(rt) && Fresh(steps) && Stage(s) == 1
    requires k in s.provider.observed && k !in s.provider.expected
    ensures var t := Drive(rt, x, s, steps);
      t.receipt == s.receipt && Reconcile(rt, t.receipt, Snapshot(x, t.provider)) == Next(Act(UploadMissingAssets))
    decreases |steps|
  {
    hide Verified, Reconcile, FieldsSafe, IsAbout, Advance, NamesSafe, Snapshot, Succeeded, EventsOf;
    InvDecides(rt, x, s);
    if steps != [] {
      TakeKeepsInv(rt, x, s, steps[0]);
      ForeignAssetUploadsForever(rt, x, Take(rt, x, s, steps[0]), k, steps[1..]);
    }
  }
}
