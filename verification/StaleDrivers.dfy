/** Drivers that act or record late, on what they read earlier: exactly when they double an attestation, and
    what they can still do then. */
module StaleDrivers {
  import opened Json
  import opened PythonValues
  import opened Coordinator
  import opened CoordinatorClosure
  import opened Replay
  import opened Evidence
  import opened Reconciliation
  import opened ReleaseRuns
  import opened Completion

  // ---- doubled counts

  /** No driver signs late where a signature already is. */
  ghost predicate NoLateSignature(rt: Runtime, x: Intent, s: Sys, steps: seq<Step>)
    decreases |steps|
  {
    steps == [] ||
    (&& !(steps[0].Stale? && steps[0].effect.SignAuthor? && s.provider.author >= 1)
     && NoLateSignature(rt, x, Take(rt, x, s, steps[0]), steps[1..]))
  }

  /** No driver publishes late what is already attested as published. */
  ghost predicate NoLatePublication(rt: Runtime, x: Intent, s: Sys, steps: seq<Step>)
    decreases |steps|
  {
    steps == [] ||
    (&& !(steps[0].Stale? && steps[0].effect.PublishImmutable? && s.provider.platform >= 1)
     && NoLatePublication(rt, x, Take(rt, x, s, steps[0]), steps[1..]))
  }

  lemma {:induction false} CountsOnlyGrow(rt: Runtime, x: Intent, s: Sys, steps: seq<Step>)
    ensures Drive(rt, x, s, steps).provider.author >= s.provider.author
    ensures Drive(rt, x, s, steps).provider.platform >= s.provider.platform
    decreases |steps|
  {
    hide Take;
    if steps != [] {
      TakeGrows(rt, x, s, steps[0]);
      CountsOnlyGrow(rt, x, Take(rt, x, s, steps[0]), steps[1..]);
    }
  }

  /** Whatever the receipt, on a fresh snapshot signing is advised only where there is no signature,
      publishing only where nothing is published, and nothing at all where a count is doubled. */
  lemma AdviceLooks(rt: Runtime, x: Intent, r: Dict, p: Provider)
    ensures var plan := Reconcile(rt, r, Snapshot(x, p));
      && (plan == Next(Act(SignAuthor)) ==> p.author == 0)
      && (plan == Next(Act(PublishImmutable)) ==> !p.immutable)
      && (p.author > 1 || p.platform > 1 ==> !plan.Next?)
  {
    hide Verified, Safe, Snapshot, Delivered, PyEq;
    SnapshotReads(x, p);
  }

  /** One step doubles the author signature exactly when it is a late signature. */
  lemma StepSigns(rt: Runtime, x: Intent, s: Sys, step: Step)
    requires s.provider.author <= 1
    ensures Take(rt, x, s, step).provider.author > 1
        <==> step.Stale? && step.effect.SignAuthor? && s.provider.author == 1
  {
    hide Reconcile, Advance, Snapshot;
    AdviceLooks(rt, x, s.receipt, s.provider);
  }

  lemma StepPublishes(rt: Runtime, x: Intent, s: Sys, step: Step)
    requires s.provider.platform <= 1 && (s.provider.platform == 1 ==> s.provider.immutable)
    ensures var q := Take(rt, x, s, step).provider;
      && (q.platform > 1 <==> step.Stale? && step.effect.PublishImmutable? && s.provider.platform == 1)
      && (q.platform >= 1 ==> q.immutable)
  {
    hide Reconcile, Advance, Snapshot;
    AdviceLooks(rt, x, s.receipt, s.provider);
  }

  /** Whatever drivers do, from any state, late effects and late records included: there is at most one author
      signature exactly when no driver signs late where a signature is. */
  lemma {:induction false} SignedOnceExactly(rt: Runtime, x: Intent, s: Sys, steps: seq<Step>)
    requires s.provider.author <= 1
    ensures Drive(rt, x, s, steps).provider.author <= 1 <==> NoLateSignature(rt, x, s, steps)
    decreases |steps|
  {
    hide Take;
    if steps != [] {
      var t := Take(rt, x, s, steps[0]);
      TakeGrows(rt, x, s, steps[0]);
      StepSigns(rt, x, s, steps[0]);
      CountsOnlyGrow(rt, x, t, steps[1..]);
      if t.provider.author <= 1 { SignedOnceExactly(rt, x, t, steps[1..]); }
    }
  }

  /** The same for the platform attestation that publication brings. */
  lemma {:induction false} PublishedOnceExactly(rt: Runtime, x: Intent, s: Sys, steps: seq<Step>)
    requires s.provider.platform <= 1 && (s.provider.platform == 1 ==> s.provider.immutable)
    ensures Drive(rt, x, s, steps).provider.platform <= 1 <==> NoLatePublication(rt, x, s, steps)
    decreases |steps|
  {
    hide Take;
    if steps != [] {
      var t := Take(rt, x, s, steps[0]);
      TakeGrows(rt, x, s, steps[0]);
      StepPublishes(rt, x, s, steps[0]);
      CountsOnlyGrow(rt, x, t, steps[1..]);
      if t.provider.platform <= 1 { PublishedOnceExactly(rt, x, t, steps[1..]); }
    }
  }

  /** Two drivers advised to sign before either did: the second, acting late, signs again. */
  lemma StaleDriverSignsTwice(rt: Runtime, x: Intent, s: Sys)
    requires Inv(rt, x, s) && FieldsSafe(rt) && Stage(s) == 0 && s.provider.author == 0
    ensures Reconcile(rt, s.receipt, Snapshot(x, s.provider)) == Next(Act(SignAuthor))
    ensures var steps := [Perform({}, Absent), Stale(SignAuthor, {}, Absent)];
      Drive(rt, x, s, steps).provider.author == 2
  {
    hide Inv, Reconcile, FieldsSafe, Snapshot;
    InvDecides(rt, x, s);
    InvBounds(rt, x, s);
    var a := Take(rt, x, s, Perform({}, Absent));
    assert a.provider.author == 1;
    var steps := [Perform({}, Absent), Stale(SignAuthor, {}, Absent)];
    assert steps[1..] == [Stale(SignAuthor, {}, Absent)];
    assert steps[1..][1..] == [];
    assert Drive(rt, x, s, steps) == Drive(rt, x, a, steps[1..]);
  }

  // ---- after a count is doubled

  /** The receipt after the late records of a run, taken on their own. */
  function LateReceipt(rt: Runtime, r: Dict, steps: seq<Step>): Dict
    decreases |steps|
  {
    if steps == [] then r
    else
      var next :=
        if steps[0].LateRecord?
        then Advance(rt, steps[0].from, steps[0].toState, steps[0].lateEvidence, steps[0].lateAt) else None;
      LateReceipt(rt, if next.Some? then next.value else r, steps[1..])
  }

  predicate Doubled(p: Provider) { p.author > 1 || p.platform > 1 }

  /** From any state in which a count exceeds one and whatever any driver does from then on: no reconcile
      advises anything again, and the receipt is what the accepted late records make it, nothing else. */
  lemma {:induction false} DoubledCountStops(rt: Runtime, x: Intent, s: Sys, steps: seq<Step>)
    requires Doubled(s.provider)
    ensures var t := Drive(rt, x, s, steps);
      && Doubled(t.provider)
      && t.receipt == LateReceipt(rt, s.receipt, steps)
      && forall r :: !Reconcile(rt, r, Snapshot(x, t.provider)).Next?
    decreases |steps|
  {
    hide Reconcile, Snapshot, Advance;
    if steps == [] {
      forall r ensures !Reconcile(rt, r, Snapshot(x, s.provider)).Next? { AdviceLooks(rt, x, r, s.provider); }
    } else {
      AdviceLooks(rt, x, s.receipt, s.provider);
      TakeGrows(rt, x, s, steps[0]);
      DoubledCountStops(rt, x, Take(rt, x, s, steps[0]), steps[1..]);
    }
  }

  /** For a verified receipt about the release the answer is AMBIGUOUS, with the attestation counts as reason. */
  lemma DoubledCountIsAmbiguous(rt: Runtime, x: Intent, r: Dict, p: Provider)
    requires Verified(rt, r) && IsAbout(r, x) && FieldsSafe(rt) && NamesSafe(rt, p) && Doubled(p)
    ensures Reconcile(rt, r, Snapshot(x, p)) == Ambiguous(AttestationCardinality)
  {
    hide Verified, Reconcile, FieldsSafe, IsAbout, Snapshot, NamesSafe, EventsOf;
    ReconcileDecides(rt, x, r, p);
  }

  /** An accepted late record of something else than the receipt. */
  predicate RecordsOther(rt: Runtime, r: Dict, step: Step) {
    && step.LateRecord?
    && var next := Advance(rt, step.from, step.toState, step.lateEvidence, step.lateAt);
    && next.Some? && next.value != r
  }

  /** One step under a doubled count changes the receipt exactly when it is an accepted late record of
      something else than what the receipt already is. */
  lemma ReceiptMovesExactly(rt: Runtime, x: Intent, s: Sys, step: Step)
    requires Doubled(s.provider)
    ensures Take(rt, x, s, step).receipt != s.receipt <==> RecordsOther(rt, s.receipt, step)
  {
    hide Reconcile, Snapshot, Advance;
    AdviceLooks(rt, x, s.receipt, s.provider);
  }

  /** advance_receipt does not look at the provider: under a doubled count every receipt before the last state
      can still be moved one state on by a driver that reconciled before. */
  lemma LateRecordMoves(rt: Runtime, x: Intent, s: Sys) returns (step: Step)
    requires Verified(rt, s.receipt) && |EventsOf(s.receipt)| < 6 && FieldsSafe(rt)
    requires Doubled(s.provider)
    ensures step.LateRecord? && step.from == s.receipt
    ensures var t := Take(rt, x, s, step);
      && t.provider == s.provider && Verified(rt, t.receipt)
      && |EventsOf(t.receipt)| == |EventsOf(s.receipt)| + 1 && EventsOf(s.receipt) <= EventsOf(t.receipt)
  {
    hide Verified, FieldsSafe, EventsOf, ValidEvidence, Advanced, Event;
    var ev := CanAlwaysAdvance(rt, s.receipt);
    var state := STATES[|EventsOf(s.receipt)|];
    AdvancedFields(rt, s.receipt, state, ev, "");
    step := LateRecord(s.receipt, state, ev, "");
  }
}
