/** The receipt digest is no signature: which fields verify_receipt holds to anything else. */
module ResealedReceipts {
  import opened Json
  import opened PythonValues
  import opened Coordinator
  import opened CoordinatorClosure
  import opened TamperEvidence
  import opened ReleaseRuns

  /** Fields that evidence, identity and digests of events are checked against. */
  const BOUND: set<string> := {"repository", "release_tag", "source_digest", "envelope_sha256", "events"}

  /** The receipt with one field set and sealed again. */
  function Resealed(rt: Runtime, r: Dict, k: string, v: Json): Dict { Seal(rt, r[k := v]) }

  /** The Pages receipt that BROWSER_VERIFIED evidence names. */
  function PagesReceiptNamed(r: Dict): Json {
    var events := EventsOf(r);
    if |events| == 6 && events[5].Obj? && Get(events[5].members, "evidence").Obj?
    then Get(Get(events[5].members, "evidence").members, "pages_receipt_sha256") else Null
  }

  /** What verify_receipt lets stand in a field. */
  predicate Allows(rt: Runtime, r: Dict, k: string, v: Json) {
    && (k == "schema_version" ==> PyEq(rt, v, Int(1)))
    && (k == "kind" ==> v == Str("continuum.release-transaction"))
    && (k == "transaction_id" ==> v == Get(r, "transaction_id"))
    && (k == "state" ==> v == Get(r, "state"))
    && (k == "revision" ==> IntIs(rt, v, |EventsOf(r)| - 1))
    && (k == "previous_receipt_sha256" && |EventsOf(r)| == 6 ==> PyEq(rt, PagesReceiptNamed(r), v))
  }

  lemma ResealedReads(rt: Runtime, r: Dict, k: string, v: Json)
    requires k != "receipt_sha256"
    ensures var q := Resealed(rt, r, k, v);
      && q.Keys == r.Keys + {k, "receipt_sha256"} && q[k] == v
      && (forall f :: f != k && f != "receipt_sha256" ==> Get(q, f) == Get(r, f) && (f in q <==> f in r))
      && Get(q, "receipt_sha256") == Str(ReceiptDigest(rt, q))
  {
    hide ReceiptDigest;
    SealHolds(rt, r[k := v]);
  }

  predicate HeaderAllows(rt: Runtime, r: Dict, k: string, v: Json) {
    && (k == "schema_version" ==> PyEq(rt, v, Int(1)))
    && (k == "kind" ==> v == Str("continuum.release-transaction"))
    && (k == "transaction_id" ==> v == Get(r, "transaction_id"))
  }

  lemma IdentityAllows(rt: Runtime, r: Dict, k: string, v: Json)
    requires ValidIdentity(rt, r) && k !in BOUND && k != "receipt_sha256"
    ensures ValidIdentity(rt, Resealed(rt, r, k, v)) <==> HeaderAllows(rt, r, k, v)
  {
    hide Resealed, TransactionId, PyEq, IsHex, IsTag, IsRepository, PyStr;
    ResealedReads(rt, r, k, v);
  }

  lemma ContextAllows(rt: Runtime, r: Dict, k: string, v: Json)
    requires k !in BOUND && k != "receipt_sha256" && (k == "state" ==> v == Get(r, "state"))
    ensures var q := Resealed(rt, r, k, v);
      && EventsOf(q) == EventsOf(r) && ContextOf(q) == ContextOf(r).(pagesReceipt := ContextOf(q).pagesReceipt)
      && Get(q, "state") == Get(r, "state")
      && (Get(r, "state") == Str(STATES[5]) ==>
            ContextOf(q).pagesReceipt == if k == "previous_receipt_sha256" then v else ContextOf(r).pagesReceipt)
  {
    hide Resealed;
    ResealedReads(rt, r, k, v);
  }

  /** Of BROWSER_VERIFIED evidence only the Pages receipt it names depends on the receipt before. */
  lemma BrowserNames(rt: Runtime, ev: Dict, c: Context, d: Context)
    requires ValidEvidence(rt, STATES[5], ev, c) && c == d.(pagesReceipt := c.pagesReceipt)
    ensures ValidEvidence(rt, STATES[5], ev, d) <==> PyEq(rt, Get(ev, "pages_receipt_sha256"), d.pagesReceipt)
  {
    hide Safe, BrowserRunEvidence, BrowserScriptEvidence, BrowserResultEvidence, IsHex, PyEq;
    BrowserFrame(rt, ev, c, d);
  }

  lemma BrowserFrame(rt: Runtime, ev: Dict, c: Context, d: Context)
    requires c == d.(pagesReceipt := c.pagesReceipt)
    ensures BrowserRunEvidence(rt, ev, c) == BrowserRunEvidence(rt, ev, d)
    ensures BrowserResultEvidence(rt, ev, c) == BrowserResultEvidence(rt, ev, d)
  {
  }

  lemma EventAllows(rt: Runtime, r: Dict, k: string, v: Json, i: nat)
    requires Verified(rt, r) && i < |EventsOf(r)| && i < |STATES|
    requires k !in BOUND && k != "receipt_sha256" && (k == "state" ==> v == Get(r, "state"))
    ensures var q := Resealed(rt, r, k, v);
      ValidEvent(rt, ContextOf(q), EventsOf(r)[i], STATES[i], PreviousOf(EventsOf(r), i))
      <==> (i == 5 && k == "previous_receipt_sha256" ==> PyEq(rt, PagesReceiptNamed(r), v))
  {
    hide Verified, ValidEvidence, Resealed, EventDigest, EventsOf, ContextOf, PyEq;
    StateIndex(rt, r);
    ContextAllows(rt, r, k, v);
    EventHolds(rt, r, i);
    var c, d := ContextOf(r), ContextOf(Resealed(rt, r, k, v));
    var event := EventsOf(r)[i];
    if i < 5 {
      EventFrame(rt, c, d, event, i, PreviousOf(EventsOf(r), i));
    } else if k == "previous_receipt_sha256" {
      BrowserNames(rt, Get(event.members, "evidence").members, c, d);
    }
  }

  /** A verified receipt in which one field is changed and the digest computed again: it verifies exactly when
      the field is not looked at or may hold the new value. Of the fields other than identity and events only
      schema, kind, transaction id, state and revision are held; previous_receipt_sha256 not before
      BROWSER_VERIFIED, and there only to what the evidence names. */
  lemma ResealedVerifies(rt: Runtime, r: Dict, k: string, v: Json)
    requires Verified(rt, r) && k !in BOUND
    ensures Verified(rt, Resealed(rt, r, k, v)) <==> k == "receipt_sha256" || Allows(rt, r, k, v)
  {
    hide ValidEvent, ValidIdentity, Resealed, ReceiptDigest, ContextOf, PyInt, PyEq, EventsOf;
    if k == "receipt_sha256" {
      SealAgain(rt, r, v);
    } else {
      ResealedReads(rt, r, k, v);
      IdentityAllows(rt, r, k, v);
      StateIndex(rt, r);
      if k != "state" || v == Get(r, "state") {
        ContextAllows(rt, r, k, v);
        var context := ContextOf(Resealed(rt, r, k, v));
        forall i | 0 <= i < |EventsOf(r)|
          ensures ValidEvent(rt, context, EventsOf(r)[i], STATES[i], PreviousOf(EventsOf(r), i))
              <==> (i == 5 && k == "previous_receipt_sha256" ==> PyEq(rt, PagesReceiptNamed(r), v))
        {
          EventAllows(rt, r, k, v, i);
        }
      }
    }
  }

  lemma SealAgain(rt: Runtime, r: Dict, v: Json)
    requires Verified(rt, r)
    ensures Resealed(rt, r, "receipt_sha256", v) == r
  {
    hide ValidEvents, ValidIdentity;
    var q := Resealed(rt, r, "receipt_sha256", v);
    assert r["receipt_sha256" := v] - {"receipt_sha256"} == r - {"receipt_sha256"};
    assert q - {"receipt_sha256"} == r - {"receipt_sha256"};
    SameButOne(q, r, "receipt_sha256");
  }

  // ---- one event

  /** An event with one field set, and its digest computed again. */
  function ResealedEvent(rt: Runtime, event: Dict, k: string, v: Json): Dict {
    event[k := v]["event_sha256" := Str(EventDigest(rt, event[k := v]))]
  }

  /** Of a single event state, link and evidence digest are held; its time of observation is not. */
  lemma ResealedEventVerifies(rt: Runtime, c: Context, event: Json, state: string, previous: Json, k: string, v: Json)
    requires ValidEvent(rt, c, event, state, previous) && k != "evidence" && k != "event_sha256"
    ensures ValidEvent(rt, c, Obj(ResealedEvent(rt, event.members, k, v)), state, previous)
        <==> (k in {"state", "previous_event_sha256", "evidence_sha256"} ==> v == Get(event.members, k))
  {
    hide ValidEvidence;
    var e := event.members[k := v];
    assert ResealedEvent(rt, event.members, k, v) - {"event_sha256"} == e - {"event_sha256"};
  }
}
