/** Whole runs of the coordinator: initialize_receipt followed by any number of advance_receipt. */
module Replay {
  import opened Json
  import opened PythonValues
  import opened Coordinator
  import opened CoordinatorClosure

  /** What the workflow supplies at each transition. */
  datatype Observation = Observation(evidence: Dict, observedAt: string)

  /** The receipt after the first |steps| transitions, or None when one of them is refused. */
  function Run(rt: Runtime, x: Intent, steps: seq<Observation>): Option<Dict>
    decreases |steps|
  {
    var n := |steps| - 1;
    if n < 0 || n >= |STATES| then None
    else if n == 0 then Initialize(rt, x, steps[0].evidence, steps[0].observedAt)
    else
      match Run(rt, x, steps[..n])
      case None => None
      case Some(r) => Advance(rt, r, STATES[n], steps[n].evidence, steps[n].observedAt)
  }

  function TextOf(j: Json): string { if j.Str? then j.s else "" }

  function IntentOf(r: Dict): Intent {
    Intent(TextOf(Get(r, "repository")), TextOf(Get(r, "release_tag")),
           TextOf(Get(r, "source_digest")), TextOf(Get(r, "envelope_sha256")))
  }

  function ObservationOf(event: Json): Observation {
    if event.Obj? && Get(event.members, "evidence").Obj?
    then Observation(Get(event.members, "evidence").members, TextOf(Get(event.members, "observed_at")))
    else Observation(map[], "")
  }

  function ObservationsOf(events: seq<Json>): (s: seq<Observation>)
    ensures |s| == |events|
  {
    seq(|events|, i requires 0 <= i < |events| => ObservationOf(events[i]))
  }

  lemma EventObservation(rt: Runtime, state: string, s: Observation, previous: Json)
    ensures ObservationOf(Event(rt, state, s.evidence, s.observedAt, previous)) == s
  {
  }

  /** The fields initialize_receipt copies from the intent. */
  ghost predicate IsAbout(r: Dict, x: Intent) {
    && Get(r, "repository") == Str(x.repository) && Get(r, "release_tag") == Str(x.tag)
    && Get(r, "source_digest") == Str(x.source) && Get(r, "envelope_sha256") == Str(x.envelope)
  }

  /** Event i of a run is built from observation i and linked to event i - 1. */
  ghost predicate Recorded(rt: Runtime, events: seq<Json>, steps: seq<Observation>) {
    && |events| == |steps| <= |STATES|
    && forall i :: 0 <= i < |steps| ==>
         events[i] == Event(rt, STATES[i], steps[i].evidence, steps[i].observedAt, PreviousOf(events, i))
  }

  lemma RecordedGrows(rt: Runtime, events: seq<Json>, steps: seq<Observation>, more: Observation)
    requires Recorded(rt, events, steps) && |steps| < |STATES|
    ensures var event := Event(rt, STATES[|events|], more.evidence, more.observedAt, PreviousOf(events, |events|));
      Recorded(rt, events + [event], steps + [more])
  {
    hide Event;
    var n := |events|;
    var events' := events + [Event(rt, STATES[n], more.evidence, more.observedAt, PreviousOf(events, n))];
    forall i | 0 <= i <= n ensures PreviousOf(events', i) == PreviousOf(events, i) {}
  }

  lemma InitialRun(rt: Runtime, x: Intent, step: Observation, r: Dict)
    requires Initialize(rt, x, step.evidence, step.observedAt) == Some(r)
    ensures IsAbout(r, x) && Recorded(rt, EventsOf(r), [step])
  {
    hide Event, TransactionId, ReceiptDigest, ValidEvidence, ValidEvents, ValidIdentity;
    DraftFields(rt, x, step.evidence, step.observedAt);
    assert forall k :: k in {"repository", "release_tag", "source_digest", "envelope_sha256"} ==>
      k in Draft(rt, x) && k != "events";
  }

  lemma AdvancedAbout(rt: Runtime, x: Intent, r: Dict, toState: string, ev: Dict, observedAt: string)
    requires CanAdvance(rt, r, toState, ev) && IsAbout(r, x)
    ensures IsAbout(Advanced(rt, r, toState, ev, observedAt), x)
  {
    hide Advanced, CanAdvance, ReceiptDigest, Event;
    AdvancedFields(rt, r, toState, ev, observedAt);
    assert forall k :: k in {"repository", "release_tag", "source_digest", "envelope_sha256"} ==> k !in CHANGED;
  }

  /** Every receipt of a run is about the intent and records exactly the observations of the run. */
  lemma {:induction false} RunShape(rt: Runtime, x: Intent, steps: seq<Observation>, r: Dict)
    requires Run(rt, x, steps) == Some(r)
    ensures Verified(rt, r) && IsAbout(r, x) && Recorded(rt, EventsOf(r), steps)
    decreases |steps|
  {
    hide Advanced, Initialize, CanAdvance, Verified, IsAbout, Recorded, Event;
    var n := |steps| - 1;
    assert 0 <= n < |STATES|;
    if n == 0 {
      assert steps == [steps[0]];
      InitialRun(rt, x, steps[0], r);
      InitializedVerified(rt, x, steps[0].evidence, steps[0].observedAt, r);
    } else {
      var before := Run(rt, x, steps[..n]).value;
      var s := steps[n];
      RunShape(rt, x, steps[..n], before);
      AdvancedFields(rt, before, STATES[n], s.evidence, s.observedAt);
      AdvancedAbout(rt, x, before, STATES[n], s.evidence, s.observedAt);
      assert |EventsOf(before)| == n by { RecordedLength(rt, EventsOf(before), steps[..n]); }
      RecordedGrows(rt, EventsOf(before), steps[..n], s);
      assert steps == steps[..n] + [s];
    }
  }

  lemma RecordedLength(rt: Runtime, events: seq<Json>, steps: seq<Observation>)
    requires Recorded(rt, events, steps)
    ensures |events| == |steps|
  {
  }

  lemma InitializedVerified(rt: Runtime, x: Intent, ev: Dict, observedAt: string, r: Dict)
    requires Initialize(rt, x, ev, observedAt) == Some(r)
    ensures Verified(rt, r)
  {
  }

  lemma ObservationsRecovered(rt: Runtime, events: seq<Json>, steps: seq<Observation>)
    requires Recorded(rt, events, steps)
    ensures ObservationsOf(events) == steps
  {
    hide Event, ObservationOf;
    forall i | 0 <= i < |steps| ensures ObservationsOf(events)[i] == steps[i] {
      EventObservation(rt, STATES[i], steps[i], PreviousOf(events, i));
    }
  }

  /** Replaying the identity, evidence and times a receipt carries rebuilds it field for field,
      its chain of receipt digests included. */
  lemma ReplayRebuilds(rt: Runtime, x: Intent, steps: seq<Observation>, r: Dict)
    requires Run(rt, x, steps) == Some(r)
    ensures IntentOf(r) == x && ObservationsOf(EventsOf(r)) == steps
    ensures Run(rt, IntentOf(r), ObservationsOf(EventsOf(r))) == Some(r)
  {
    hide Run, Verified;
    RunShape(rt, x, steps, r);
    ObservationsRecovered(rt, EventsOf(r), steps);
  }

  /** So replay decides which of all receipts the coordinator itself produced. */
  lemma ReplayDecides(rt: Runtime, r: Dict)
    ensures (exists x, steps :: Run(rt, x, steps) == Some(r))
        <==> Run(rt, IntentOf(r), ObservationsOf(EventsOf(r))) == Some(r)
  {
    hide Run;
    if x, steps :| Run(rt, x, steps) == Some(r) {
      ReplayRebuilds(rt, x, steps, r);
    }
  }

  // ---- what holds along a run

  /** One advance appends one event for the immediate successor state and links the two receipts. */
  lemma LastStep(rt: Runtime, x: Intent, steps: seq<Observation>, r: Dict) returns (before: Dict)
    requires Run(rt, x, steps) == Some(r) && |steps| >= 2
    ensures var m := |steps| - 1;
      && Run(rt, x, steps[..m]) == Some(before)
      && |EventsOf(before)| == m < |STATES|
      && |EventsOf(r)| == m + 1 && EventsOf(r)[..m] == EventsOf(before)
      && Get(r, "state") == Str(STATES[m])
      && Get(r, "previous_receipt_sha256") == Get(before, "receipt_sha256")
      && Get(r, "revision") == Int(m)
  {
    hide Advanced, CanAdvance, Verified, IsAbout, Recorded, Event, Initialize;
    var m := |steps| - 1;
    before := Run(rt, x, steps[..m]).value;
    RunShape(rt, x, steps[..m], before);
    RecordedLength(rt, EventsOf(before), steps[..m]);
    AdvancedFields(rt, before, STATES[m], steps[m].evidence, steps[m].observedAt);
  }

  /** Along a run the event list only grows at its end, no state is skipped, the identity stays, and
      there are at most five advances. */
  lemma {:induction false} RunGrows(rt: Runtime, x: Intent, steps: seq<Observation>, n: nat, r: Dict)
    requires Run(rt, x, steps) == Some(r) && 1 <= n <= |steps|
    ensures |EventsOf(r)| == |steps| <= 6 && IsAbout(r, x)
    ensures var early := Run(rt, x, steps[..n]);
      early.Some? && IsAbout(early.value, x) && EventsOf(early.value) == EventsOf(r)[..n]
    decreases |steps|
  {
    hide Run, Verified, IsAbout, Recorded;
    RunShape(rt, x, steps, r);
    RecordedLength(rt, EventsOf(r), steps);
    if n == |steps| {
      assert steps[..n] == steps && EventsOf(r)[..n] == EventsOf(r);
      RecordedBound(rt, EventsOf(r), steps);
    } else {
      var before := LastStep(rt, x, steps, r);
      var m := |steps| - 1;
      RunGrows(rt, x, steps[..m], n, before);
      assert steps[..m][..n] == steps[..n];
      assert EventsOf(before)[..n] == EventsOf(r)[..n];
    }
  }

  lemma RecordedBound(rt: Runtime, events: seq<Json>, steps: seq<Observation>)
    requires Recorded(rt, events, steps)
    ensures |steps| <= 6
  {
  }

  /** What one event of a run says about the release agrees with the intent. */
  ghost predicate Agrees(i: nat, ev: Dict, x: Intent) {
    && (i in {0, 3, 4, 5} ==> Get(ev, "release_target") == Str(x.source))
    && (i in {3, 4, 5} ==> Get(ev, "release_tag") == Str(x.tag))
    && (i == 0 ==> Get(ev, "envelope_sha256") == Str(x.envelope))
    && (i in {0, 2} ==>
         var digests := DigestMap(Get(ev, "expected_asset_digests"));
         digests.Some? && ENVELOPE in digests.value && digests.value[ENVELOPE] == x.envelope)
    && (i == 1 ==> Get(ev, "signer_workflow") == Str(x.repository + "/.github/workflows/release-envelope.yml"))
    && (i == 5 ==> Get(ev, "browser_source_digest") == Str(x.source))
  }

  lemma ValidEvidenceAgrees(rt: Runtime, i: nat, ev: Dict, c: Context, x: Intent)
    requires i < |STATES| && ValidEvidence(rt, STATES[i], ev, c)
    requires IsContextOf(c, x)
    ensures Agrees(i, ev, x)
  {
    hide Safe, PreparedEvidence, AuthorEvidence, AssetsEvidence, ImmutableEvidence, PagesEvidence, BrowserEvidence,
      Agrees;
    match i
    case 0 => PreparedAgrees(rt, ev, c, x);
    case 1 => AuthorAgrees(rt, ev, c, x);
    case 2 => AssetsAgrees(rt, ev, c, x);
    case 3 => ImmutableAgrees(rt, ev, c, x);
    case 4 => PagesAgrees(rt, ev, c, x);
    case _ => BrowserAgrees(rt, ev, c, x);
  }

  predicate IsContextOf(c: Context, x: Intent) {
    && c.repository == Str(x.repository) && c.tag == Str(x.tag)
    && c.source == Str(x.source) && c.envelope == Str(x.envelope)
  }

  lemma PreparedAgrees(rt: Runtime, ev: Dict, c: Context, x: Intent)
    requires PreparedEvidence(rt, ev, c) && IsContextOf(c, x)
    ensures Agrees(0, ev, x)
  {
    hide DigestMap, IntAtLeast;
  }

  lemma AuthorAgrees(rt: Runtime, ev: Dict, c: Context, x: Intent)
    requires AuthorEvidence(rt, ev, c) && IsContextOf(c, x)
    ensures Agrees(1, ev, x)
  {
    hide IsHex;
  }

  lemma AssetsAgrees(rt: Runtime, ev: Dict, c: Context, x: Intent)
    requires AssetsEvidence(rt, ev, c) && IsContextOf(c, x)
    ensures Agrees(2, ev, x)
  {
    hide DigestMap;
  }

  lemma ImmutableAgrees(rt: Runtime, ev: Dict, c: Context, x: Intent)
    requires ImmutableEvidence(rt, ev, c) && IsContextOf(c, x)
    ensures Agrees(3, ev, x)
  {
  }

  lemma PagesAgrees(rt: Runtime, ev: Dict, c: Context, x: Intent)
    requires PagesEvidence(rt, ev, c) && IsContextOf(c, x)
    ensures Agrees(4, ev, x)
  {
    hide PagesCoordinatorEvidence, IsHex, IntAtLeast;
  }

  lemma BrowserAgrees(rt: Runtime, ev: Dict, c: Context, x: Intent)
    requires BrowserEvidence(rt, ev, c) && IsContextOf(c, x)
    ensures Agrees(5, ev, x)
  {
    hide BrowserDigestEvidence, BrowserScriptEvidence, IsHex, IntAtLeast, IntIs, PrefixedDigest;
  }

  /** Every event of every run agrees with the one intent the run was started with. */
  lemma RunAgrees(rt: Runtime, x: Intent, steps: seq<Observation>, r: Dict, i: nat)
    requires Run(rt, x, steps) == Some(r) && i < |steps|
    ensures Agrees(i, steps[i].evidence, x)
  {
    hide Run, ValidEvidence, ValidIdentity, Agrees, ReceiptDigest, EventDigest, Recorded;
    RunShape(rt, x, steps, r);
    RecordedLength(rt, EventsOf(r), steps);
    assert ValidEvent(rt, ContextOf(r), EventsOf(r)[i], STATES[i], PreviousOf(EventsOf(r), i));
    ObservationsRecovered(rt, EventsOf(r), steps);
    assert ObservationsOf(EventsOf(r))[i] == ObservationOf(EventsOf(r)[i]);
    ValidEvidenceAgrees(rt, i, steps[i].evidence, ContextOf(r), x);
  }
}
