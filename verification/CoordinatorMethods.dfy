/** The coordinator's loops, as they run, against the predicates that specify them. */
module CoordinatorMethods {
  import opened Json
  import opened PythonValues
  import opened Coordinator
  import opened CoordinatorClosure
  import opened TamperEvidence

  method RequireDigestMap(value: Json) returns (result: Option<map<string, string>>)
    ensures result == DigestMap(value)
  {
    if !value.Obj? || value.members == map[] {
      return None;
    }
    var filled: map<string, string> := map[];
    var left := value.members.Keys;
    while left != {}
      invariant left <= value.members.Keys
      invariant filled.Keys == value.members.Keys - left
      invariant forall k :: k in filled ==>
                  IsAssetName(k) && IsSha256(PyStr(value.members[k])) && filled[k] == PyStr(value.members[k])
      decreases left
    {
      var name :| name in left;
      var digest := PyStr(value.members[name]);
      if name == "" || '/' in name || '\\' in name || !IsSha256(digest) {
        return None;
      }
      filled := filled[name := digest];
      left := left - {name};
    }
    assert filled == map k | k in value.members :: PyStr(value.members[k]);
    result := Some(filled);
  }

  /** The body of verify_receipt's loop. */
  method VerifyEvent(rt: Runtime, context: Context, item: Json, state: string, previousEvent: Json)
    returns (ok: bool)
    ensures ok <==> ValidEvent(rt, context, item, state, previousEvent)
  {
    hide ValidEvidence, EventDigest;
    if !item.Obj? {
      return false;
    }
    var event := item.members;
    var evidence := Get(event, "evidence");
    if Get(event, "state") != Str(state) || !evidence.Obj? {
      return false;
    }
    if !ValidEvidence(rt, state, evidence.members, context) {
      return false;
    }
    ok := && Get(event, "previous_event_sha256") == previousEvent
          && Get(event, "evidence_sha256") == Str(rt.digest(evidence))
          && Get(event, "event_sha256") == Str(EventDigest(rt, event));
  }

  /** verify_receipt: true when nothing is raised. */
  method VerifyReceipt(rt: Runtime, r: Dict) returns (ok: bool)
    ensures ok <==> Verified(rt, r)
  {
    hide ValidEvent, ValidIdentity, ReceiptDigest, ContextOf, PyInt;
    if !ValidIdentity(rt, r) || !Get(r, "events").Arr? {
      return false;
    }
    var events := Get(r, "events").items;
    if events == [] || |events| > |STATES| || !IntIs(rt, GetOr(r, "revision", Int(-1)), |events| - 1) {
      return false;
    }
    var context := ContextOf(r);
    var previousEvent := Null;
    for n := 0 to |events|
      invariant previousEvent == PreviousOf(events, n)
      invariant forall i :: 0 <= i < n ==> ValidEvent(rt, context, events[i], STATES[i], PreviousOf(events, i))
    {
      var valid := VerifyEvent(rt, context, events[n], STATES[n], previousEvent);
      if !valid {
        return false;
      }
      EventIsObject(rt, context, events[n], STATES[n], previousEvent);
      previousEvent := Get(events[n].members, "event_sha256");
    }
    ok := Get(r, "state") == Str(STATES[|events| - 1]) && Get(r, "receipt_sha256") == Str(ReceiptDigest(rt, r));
  }

  lemma EventIsObject(rt: Runtime, context: Context, item: Json, state: string, previousEvent: Json)
    requires ValidEvent(rt, context, item, state, previousEvent)
    ensures item.Obj?
  {
    hide ValidEvidence;
  }

  /** initialize_receipt: the receipt is filled in place, sealed, and verified. It fails exactly when a guard
      does, never in the closing check. */
  method InitializeReceipt(rt: Runtime, x: Intent, ev: Dict, observedAt: string) returns (result: Option<Dict>)
    ensures result == Initialize(rt, x, ev, observedAt)
    ensures result.Some? <==> CanInitialize(rt, x, ev)
    ensures result.Some? ==> Verified(rt, result.value)
  {
    hide ValidEvidence, Verified, TransactionId, ReceiptDigest, Event, ValidIntent, Draft;
    if CanInitialize(rt, x, ev) { InitializeCloses(rt, x, ev, observedAt); }
    if !ValidIntent(x) {
      return None;
    }
    var receipt: Dict := Draft(rt, x);
    if !ValidEvidence(rt, STATES[0], ev, ContextOf(receipt)) {
      return None;
    }
    receipt := receipt["events" := Arr([Event(rt, STATES[0], ev, observedAt, Null)])];
    receipt := receipt["receipt_sha256" := Str(ReceiptDigest(rt, receipt))];
    var ok := VerifyReceipt(rt, receipt);
    result := if ok then Some(receipt) else None;
  }

  /** STATES.index. */
  method IndexOfState(state: string) returns (index: nat)
    requires state in STATES
    ensures index < |STATES| && STATES[index] == state
  {
    index := 0;
    while STATES[index] != state
      invariant index < |STATES| && state in STATES[index..]
      decreases |STATES| - index
    {
      index := index + 1;
    }
  }

  /** advance_receipt: the receipt is verified, its successor assembled, sealed, and verified. It fails
      exactly when the receipt, the transition or the evidence is refused, never in the closing check; past
      events and the identity stay. */
  method AdvanceReceipt(rt: Runtime, r: Dict, toState: string, ev: Dict, observedAt: string)
    returns (result: Option<Dict>)
    ensures result == Advance(rt, r, toState, ev, observedAt)
    ensures result.Some? <==> CanAdvance(rt, r, toState, ev)
    ensures result.Some? ==>
              && Verified(rt, result.value)
              && EventsOf(r) <= EventsOf(result.value) && |EventsOf(result.value)| == |EventsOf(r)| + 1
              && ContextOf(result.value) == ContextOf(r).(pagesReceipt := ContextOf(result.value).pagesReceipt)
  {
    hide ValidEvidence, Verified, Event, ReceiptDigest, ContextOf;
    var ok := VerifyReceipt(rt, r);
    if !ok {
      return None;
    }
    CurrentState(rt, r);
    var index := IndexOfState(PyStr(Get(r, "state")));
    StatesDistinct(index, |EventsOf(r)| - 1);
    if index + 1 >= |STATES| || STATES[index + 1] != toState || !ValidEvidence(rt, toState, ev, ContextOf(r)) {
      return None;
    }
    AdvanceKeeps(rt, r, toState, ev, observedAt);
    var events := EventsOf(r);
    events := events + [Event(rt, toState, ev, observedAt, Get(events[index].members, "event_sha256"))];
    var advanced := r - {"receipt_sha256"};
    advanced := advanced["state" := Str(toState)];
    advanced := advanced["revision" := Int(PyInt(rt, Get(r, "revision")).value + 1)];
    advanced := advanced["previous_receipt_sha256" := Get(r, "receipt_sha256")];
    advanced := advanced["events" := Arr(events)];
    advanced := advanced["receipt_sha256" := Str(ReceiptDigest(rt, advanced))];
    assert advanced == Advanced(rt, r, toState, ev, observedAt);
    ok := VerifyReceipt(rt, advanced);
    result := if ok then Some(advanced) else None;
  }

  lemma AdvanceKeeps(rt: Runtime, r: Dict, toState: string, ev: Dict, observedAt: string)
    requires CanAdvance(rt, r, toState, ev)
    ensures var a := Advanced(rt, r, toState, ev, observedAt);
      && Verified(rt, a) && Advance(rt, r, toState, ev, observedAt) == Some(a)
      && EventsOf(r) <= EventsOf(a) && |EventsOf(a)| == |EventsOf(r)| + 1
      && ContextOf(a) == ContextOf(r).(pagesReceipt := ContextOf(a).pagesReceipt)
  {
    hide ValidEvidence, Verified, Event, ReceiptDigest, ContextOf, Advanced, EventsOf;
    AdvanceCloses(rt, r, toState, ev, observedAt);
    AdvancedFields(rt, r, toState, ev, observedAt);
    SameIdentity(rt, r, Advanced(rt, r, toState, ev, observedAt));
  }

  lemma CurrentState(rt: Runtime, r: Dict)
    requires Verified(rt, r)
    ensures var n := |EventsOf(r)|;
      && 1 <= n <= |STATES| && Get(r, "state") == Str(STATES[n - 1]) && EventsOf(r)[n - 1].Obj?
      && PyInt(rt, Get(r, "revision")) == Some(n - 1)
  {
    hide ValidIdentity, ValidEvidence, ReceiptDigest, EventDigest;
    assert ValidEvent(rt, ContextOf(r), EventsOf(r)[|EventsOf(r)| - 1], STATES[|EventsOf(r)| - 1],
        PreviousOf(EventsOf(r), |EventsOf(r)| - 1));
  }
}
