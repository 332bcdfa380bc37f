/** The closing verify_receipt of initialize_receipt and advance_receipt never fires. */
module CoordinatorClosure {
  import opened Json
  import opened PythonValues
  import opened Coordinator

  /** Every field but the sealed digest reads as before; the digest covers the rest. */
  lemma SealHolds(rt: Runtime, r: Dict)
    ensures Get(Seal(rt, r), "receipt_sha256") == Str(ReceiptDigest(rt, Seal(rt, r)))
    ensures Seal(rt, r) - {"receipt_sha256"} == r - {"receipt_sha256"}
  {
    assert Seal(rt, r) - {"receipt_sha256"} == r - {"receipt_sha256"};
  }

  /** A new event passes the per-event check of verify_receipt under any context its evidence fits. */
  lemma EventIsValid(rt: Runtime, c: Context, state: string, ev: Dict, observedAt: string, previous: Json)
    requires ValidEvidence(rt, state, ev, c)
    ensures ValidEvent(rt, c, Event(rt, state, ev, observedAt, previous), state, previous)
  {
    hide ValidEvidence;
    var e := Event(rt, state, ev, observedAt, previous).members;
    var base: Dict := map[
      "state" := Str(state),
      "observed_at" := Str(observedAt),
      "previous_event_sha256" := previous,
      "evidence" := Obj(ev),
      "evidence_sha256" := Str(rt.digest(Obj(ev)))];
    assert e - {"event_sha256"} == base;
  }

  /** Only BROWSER_VERIFIED evidence looks at the Pages receipt. */
  lemma EvidenceFrame(rt: Runtime, state: string, ev: Dict, c: Context, d: Context)
    requires state != STATES[5] && c == d.(pagesReceipt := c.pagesReceipt)
    ensures ValidEvidence(rt, state, ev, c) <==> ValidEvidence(rt, state, ev, d)
  {
  }

  const IDENTITY: set<string> :=
    {"schema_version", "kind", "repository", "release_tag", "source_digest", "envelope_sha256", "transaction_id"}

  lemma DraftFields(rt: Runtime, x: Intent, ev: Dict, observedAt: string)
    ensures var r, d := Initialized(rt, x, ev, observedAt), Draft(rt, x);
      && EventsOf(r) == [Event(rt, STATES[0], ev, observedAt, Null)]
      && Get(r, "state") == Str(STATES[0]) && Get(r, "revision") == Int(0)
      && (forall k :: k in d && k != "events" ==> k in r && r[k] == d[k])
      && ContextOf(r) == ContextOf(d).(pagesReceipt := Get(r, "receipt_sha256"))
  {
    hide TransactionId, ReceiptDigest, Event;
  }

  /** A new receipt has these fields and no others. */
  lemma NewReceiptFields(rt: Runtime, x: Intent, ev: Dict, observedAt: string)
    ensures Initialized(rt, x, ev, observedAt).Keys
         == IDENTITY + {"state", "revision", "previous_receipt_sha256", "events", "receipt_sha256"}
  {
    hide TransactionId, ReceiptDigest, Event;
  }

  lemma IdentityFromDraft(rt: Runtime, x: Intent, r: Dict)
    requires ValidIntent(x)
    requires var d := Draft(rt, x); forall k :: k in d && k != "events" ==> k in r && r[k] == d[k]
    ensures ValidIdentity(rt, r)
  {
    hide TransactionId, IsRepository, IsTag, IsHex, Draft;
    DraftReads(rt, x);
    assert forall k :: k in IDENTITY ==> k != "events";
  }

  lemma DraftReads(rt: Runtime, x: Intent)
    ensures var d := Draft(rt, x);
      && IDENTITY <= d.Keys
      && d["schema_version"] == Int(1) && d["kind"] == Str(KIND)
      && d["repository"] == Str(x.repository) && d["release_tag"] == Str(x.tag)
      && d["source_digest"] == Str(x.source) && d["envelope_sha256"] == Str(x.envelope)
      && d["transaction_id"] == Str(TransactionId(rt, x.repository, x.tag, x.source, x.envelope))
  {
    hide TransactionId;
  }

  lemma InitializeCloses(rt: Runtime, x: Intent, ev: Dict, observedAt: string)
    requires CanInitialize(rt, x, ev)
    ensures Verified(rt, Initialized(rt, x, ev, observedAt))
    ensures Initialize(rt, x, ev, observedAt) == Some(Initialized(rt, x, ev, observedAt))
  {
    hide ValidEvidence, Event, TransactionId, ReceiptDigest, Draft, ValidEvent, ValidIdentity;
    var r := Initialized(rt, x, ev, observedAt);
    DraftFields(rt, x, ev, observedAt);
    IdentityFromDraft(rt, x, r);
    EvidenceFrame(rt, STATES[0], ev, ContextOf(r), ContextOf(Draft(rt, x)));
    EventIsValid(rt, ContextOf(r), STATES[0], ev, observedAt, Null);
    SealHolds(rt, Draft(rt, x)["events" := Arr([Event(rt, STATES[0], ev, observedAt, Null)])]);
  }

  const CHANGED: set<string> :=
    {"state", "revision", "previous_receipt_sha256", "events", "receipt_sha256"}

  /** advance_receipt rewrites five fields and copies every other one, known or not. */
  lemma AdvancedFields(rt: Runtime, r: Dict, toState: string, ev: Dict, observedAt: string)
    requires CanAdvance(rt, r, toState, ev)
    ensures var a, events := Advanced(rt, r, toState, ev, observedAt), EventsOf(r);
      && EventsOf(a) == events + [Event(rt, toState, ev, observedAt, PreviousOf(events, |events|))]
      && Get(a, "state") == Str(toState)
      && Get(a, "revision") == Int(|events|)
      && Get(a, "previous_receipt_sha256") == Get(r, "receipt_sha256")
      && Get(a, "receipt_sha256") == Str(ReceiptDigest(rt, a))
      && a.Keys == r.Keys + CHANGED
      && (forall k :: k in r && k !in CHANGED ==> a[k] == r[k])
  {
    hide ValidEvidence, Event, ValidIdentity, ReceiptDigest, ValidEvent;
    var events := EventsOf(r);
    var body := (r - {"receipt_sha256"})[
      "state" := Str(toState)][
      "revision" := Int(|events|)][
      "previous_receipt_sha256" := Get(r, "receipt_sha256")][
      "events" := Arr(events + [Event(rt, toState, ev, observedAt, PreviousOf(events, |events|))])];
    assert "revision" in r;
    assert Advanced(rt, r, toState, ev, observedAt) == Seal(rt, body);
    SealHolds(rt, body);
  }

  lemma SameIdentity(rt: Runtime, r: Dict, a: Dict)
    requires r.Keys <= a.Keys <= r.Keys + CHANGED && forall k :: k in r && k !in CHANGED ==> a[k] == r[k]
    ensures ValidIdentity(rt, r) ==> ValidIdentity(rt, a)
    ensures ContextOf(a) == ContextOf(r).(pagesReceipt := ContextOf(a).pagesReceipt)
  {
    hide TransactionId;
    forall k | k in IDENTITY
      ensures k !in CHANGED && Get(a, k) == Get(r, k) && (k in a <==> k in r)
    {
    }
    assert Get(a, "repository") == Get(r, "repository") && Get(a, "release_tag") == Get(r, "release_tag");
  }

  lemma EventFrame(rt: Runtime, c: Context, d: Context, event: Json, i: nat, previous: Json)
    requires i < 5 && c == d.(pagesReceipt := c.pagesReceipt)
    requires ValidEvent(rt, c, event, STATES[i], previous)
    ensures ValidEvent(rt, d, event, STATES[i], previous)
  {
    hide ValidEvidence, EventDigest;
    EvidenceFrame(rt, STATES[i], Get(event.members, "evidence").members, c, d);
  }

  lemma AdvancedEventValid(rt: Runtime, r: Dict, toState: string, ev: Dict, observedAt: string, i: nat)
    requires CanAdvance(rt, r, toState, ev) && i <= |EventsOf(r)|
    requires var a := Advanced(rt, r, toState, ev, observedAt);
      && ContextOf(a) == ContextOf(r).(pagesReceipt := ContextOf(a).pagesReceipt)
      && (|EventsOf(r)| == 5 ==> ContextOf(a) == ContextOf(r))
    ensures var a := Advanced(rt, r, toState, ev, observedAt);
      && i < |EventsOf(a)|
      && ValidEvent(rt, ContextOf(a), EventsOf(a)[i], STATES[i], PreviousOf(EventsOf(a), i))
  {
    hide ValidEvidence, Event, ValidIdentity, Advanced, ReceiptDigest, ValidEvent, EventsOf, ContextOf;
    var a := Advanced(rt, r, toState, ev, observedAt);
    var events := EventsOf(r);
    AdvancedFields(rt, r, toState, ev, observedAt);
    assert PreviousOf(EventsOf(a), i) == PreviousOf(events, i);
    if i < |events| {
      EventFrame(rt, ContextOf(r), ContextOf(a), events[i], i, PreviousOf(events, i));
    } else {
      if i < 5 { EvidenceFrame(rt, STATES[i], ev, ContextOf(r), ContextOf(a)); }
      EventIsValid(rt, ContextOf(a), toState, ev, observedAt, PreviousOf(events, i));
    }
  }

  /** Old events revalidate under the new receipt, and the evidence of the last step, checked against
      receipt_sha256 before it, still matches previous_receipt_sha256 after it. */
  lemma AdvanceCloses(rt: Runtime, r: Dict, toState: string, ev: Dict, observedAt: string)
    requires CanAdvance(rt, r, toState, ev)
    ensures Verified(rt, Advanced(rt, r, toState, ev, observedAt))
    ensures Advance(rt, r, toState, ev, observedAt) == Some(Advanced(rt, r, toState, ev, observedAt))
  {
    hide ValidEvidence, Event, ValidIdentity, Advanced, ReceiptDigest, ValidEvent;
    var a := Advanced(rt, r, toState, ev, observedAt);
    AdvancedFields(rt, r, toState, ev, observedAt);
    SameIdentity(rt, r, a);
    assert |EventsOf(r)| == 5 ==> ContextOf(a) == ContextOf(r);
    forall i | 0 <= i < |EventsOf(a)|
      ensures ValidEvent(rt, ContextOf(a), EventsOf(a)[i], STATES[i], PreviousOf(EventsOf(a), i))
    {
      AdvancedEventValid(rt, r, toState, ev, observedAt, i);
    }
  }
}
