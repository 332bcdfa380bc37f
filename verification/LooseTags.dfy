/** verify_receipt reads the tag through str() but compares it with ==. Which histories pin it? */
module LooseTags {
  import opened Json
  import opened PythonValues
  import opened Coordinator
  import opened CoordinatorClosure
  import opened TamperEvidence
  import opened IdentityPinning
  import opened Evidence
  import opened Completion

  /** No other verified receipt with the same events has another tag. */
  ghost predicate TagPinned(rt: Runtime, r: Dict) {
    forall q: Dict :: Verified(rt, q) && EventsOf(q) == EventsOf(r) && InPython(rt, Get(q, "release_tag")) ==>
      Get(q, "release_tag") == Get(r, "release_tag")
  }

  /** The same receipt about another tag: the transaction id is recomputed and the receipt sealed again. */
  function Retagged(rt: Runtime, r: Dict, tag: Json): Dict {
    var id := TransactionId(rt, PyStr(Get(r, "repository")), PyStr(tag), PyStr(Get(r, "source_digest")),
                            PyStr(Get(r, "envelope_sha256")));
    Seal(rt, r["release_tag" := tag]["transaction_id" := Str(id)])
  }

  /** Every other field is copied. */
  lemma FieldKept(rt: Runtime, r: Dict, tag: Json, k: string)
    requires k != "release_tag" && k != "transaction_id" && k != "receipt_sha256"
    ensures Get(Retagged(rt, r, tag), k) == Get(r, k)
    ensures forall d :: GetOr(Retagged(rt, r, tag), k, d) == GetOr(r, k, d)
  {
    hide TransactionId, PyStr, ReceiptDigest;
  }

  lemma RetaggedTag(rt: Runtime, r: Dict, tag: Json)
    ensures var q := Retagged(rt, r, tag);
      && Get(q, "release_tag") == GetOr(q, "release_tag", Str("")) == tag
      && Get(q, "transaction_id") == Str(TransactionId(rt, PyStr(Get(r, "repository")), PyStr(tag),
           PyStr(Get(r, "source_digest")), PyStr(Get(r, "envelope_sha256"))))
  {
    hide TransactionId, PyStr, ReceiptDigest;
  }

  lemma RetaggedSeal(rt: Runtime, r: Dict, tag: Json)
    ensures Get(Retagged(rt, r, tag), "receipt_sha256") == Str(ReceiptDigest(rt, Retagged(rt, r, tag)))
  {
    hide TransactionId, PyStr, ReceiptDigest;
    SealHolds(rt, r["release_tag" := tag]["transaction_id" := Get(Retagged(rt, r, tag), "transaction_id")]);
    RetaggedTag(rt, r, tag);
  }

  /** The fields a new tag leaves alone. */
  lemma RetaggedKeeps(rt: Runtime, r: Dict, tag: Json)
    ensures var q := Retagged(rt, r, tag);
      && EventsOf(q) == EventsOf(r)
      && ContextOf(q) == ContextOf(r).(tag := tag, pagesReceipt := ContextOf(q).pagesReceipt)
  {
    hide Retagged, Get, GetOr;
    RetaggedTag(rt, r, tag);
    FieldKept(rt, r, tag, "events");
    FieldKept(rt, r, tag, "repository");
    FieldKept(rt, r, tag, "source_digest");
    FieldKept(rt, r, tag, "envelope_sha256");
  }

  lemma RetaggedHeader(rt: Runtime, r: Dict, tag: Json)
    ensures var q := Retagged(rt, r, tag);
      && GetOr(q, "revision", Int(-1)) == GetOr(r, "revision", Int(-1)) && Get(q, "state") == Get(r, "state")
      && Get(q, "schema_version") == Get(r, "schema_version") && Get(q, "kind") == Get(r, "kind")
      && GetOr(q, "repository", Str("")) == GetOr(r, "repository", Str(""))
      && GetOr(q, "source_digest", Str("")) == GetOr(r, "source_digest", Str(""))
      && GetOr(q, "envelope_sha256", Str("")) == GetOr(r, "envelope_sha256", Str(""))
  {
    hide Retagged, Get, GetOr;
    FieldKept(rt, r, tag, "revision");
    FieldKept(rt, r, tag, "state");
    FieldKept(rt, r, tag, "schema_version");
    FieldKept(rt, r, tag, "kind");
    FieldKept(rt, r, tag, "repository");
    FieldKept(rt, r, tag, "source_digest");
    FieldKept(rt, r, tag, "envelope_sha256");
  }

  /** Whatever evidence compares equal to a also compares equal to b. */
  ghost predicate Follows(rt: Runtime, a: Json, b: Json) { forall e :: PyEq(rt, e, a) ==> PyEq(rt, e, b) }

  /** Up to ASSETS_UPLOADED no evidence looks at the tag, and IMMUTABLE evidence only compares it. */
  lemma EvidenceRetagged(rt: Runtime, i: nat, ev: Dict, c: Context, d: Context)
    requires i < 4 && c == d.(tag := c.tag, pagesReceipt := c.pagesReceipt) && (i == 3 ==> Follows(rt, c.tag, d.tag))
    requires ValidEvidence(rt, STATES[i], ev, c)
    ensures ValidEvidence(rt, STATES[i], ev, d)
  {
    hide Safe, IsHex, DigestMap, IntAtLeast, PyEq, PyStr;
  }

  lemma EventRetagged(rt: Runtime, c: Context, d: Context, event: Json, i: nat, previous: Json)
    requires i < 4 && c == d.(tag := c.tag, pagesReceipt := c.pagesReceipt) && (i == 3 ==> Follows(rt, c.tag, d.tag))
    requires ValidEvent(rt, c, event, STATES[i], previous)
    ensures ValidEvent(rt, d, event, STATES[i], previous)
  {
    hide ValidEvidence, EventDigest;
    EvidenceRetagged(rt, i, Get(event.members, "evidence").members, c, d);
  }

  lemma IdentityRetagged(rt: Runtime, r: Dict, tag: Json)
    requires Verified(rt, r) && IsTag(PyStr(tag))
    ensures ValidIdentity(rt, Retagged(rt, r, tag))
  {
    hide Retagged, TransactionId, IsTag, IsRepository, IsHex, PyEq, ReceiptDigest, PyStr, Verified, ContextOf, EventsOf;
    RetaggedTag(rt, r, tag);
    RetaggedHeader(rt, r, tag);
    IdentityHolds(rt, r);
    NamesPresent(rt, r);
    hide GetOr, Get;
  }

  lemma IdentityHolds(rt: Runtime, r: Dict)
    requires Verified(rt, r)
    ensures ValidIdentity(rt, r)
  {
    hide ValidEvents, ValidIdentity, ReceiptDigest;
  }

  /** Identity fields are read with a default only where they are present. */
  lemma NamesPresent(rt: Runtime, r: Dict)
    requires ValidIdentity(rt, r)
    ensures GetOr(r, "repository", Str("")) == Get(r, "repository")
    ensures GetOr(r, "source_digest", Str("")) == Get(r, "source_digest")
    ensures GetOr(r, "envelope_sha256", Str("")) == Get(r, "envelope_sha256")
  {
    hide TransactionId, PyEq;
  }

  /** A verified receipt may change its tag as long as no recorded evidence notices. */
  lemma RetaggedVerifies(rt: Runtime, r: Dict, tag: Json)
    requires Verified(rt, r) && |EventsOf(r)| <= 4 && IsTag(PyStr(tag))
    requires |EventsOf(r)| == 4 ==> Follows(rt, Get(r, "release_tag"), tag)
    ensures Verified(rt, Retagged(rt, r, tag)) && EventsOf(Retagged(rt, r, tag)) == EventsOf(r)
    ensures Get(Retagged(rt, r, tag), "release_tag") == tag
    ensures Get(Retagged(rt, r, tag), "state") == Get(r, "state")
  {
    hide Retagged, ValidEvent, ValidIdentity, ReceiptDigest, Follows, PyStr, Get, GetOr, EventsOf;
    var q := Retagged(rt, r, tag);
    RetaggedTag(rt, r, tag);
    RetaggedSeal(rt, r, tag);
    RetaggedKeeps(rt, r, tag);
    RetaggedHeader(rt, r, tag);
    IdentityRetagged(rt, r, tag);
    var events := EventsOf(r);
    forall i | 0 <= i < |events| ensures ValidEvent(rt, ContextOf(q), events[i], STATES[i], PreviousOf(events, i)) {
      EventRetagged(rt, ContextOf(r), ContextOf(q), events[i], i, PreviousOf(events, i));
    }
  }

  lemma TwinsFollow(rt: Runtime, a: Json, b: Json)
    requires IsTwin(rt, a, b)
    ensures Follows(rt, a, b)
  {
  }

  /** Exactly which verified receipts have a tag their events pin: from PAGES_MATERIALIZED on all of them;
      at IMMUTABLE those whose tag is not a number that another tag-shaped number equals; before that none. */
  lemma TagPinnedExactly(rt: Runtime, r: Dict)
    requires Verified(rt, r)
    ensures TagPinned(rt, r)
        <==> |EventsOf(r)| >= 5 || (|EventsOf(r)| == 4 && !HasTwin(rt, Get(r, "release_tag")))
  {
    hide Verified, Retagged, EventsOf, PyStr;
    var tag, n := Get(r, "release_tag"), |EventsOf(r)|;
    if n >= 4 && (n >= 5 || !HasTwin(rt, tag)) {
      forall q: Dict | Verified(rt, q) && EventsOf(q) == EventsOf(r) && InPython(rt, Get(q, "release_tag"))
        ensures Get(q, "release_tag") == tag
      {
        TagPinnedByTwins(rt, r, q);
      }
    } else if n == 4 {
      var b :| IsTwin(rt, tag, b);
      TwinsFollow(rt, tag, b);
      RetaggedVerifies(rt, r, b);
      assert Get(Retagged(rt, r, b), "release_tag") != tag;
    } else {
      var other := if tag == Str("a") then Str("b") else Str("a");
      LettersAreTags();
      RetaggedVerifies(rt, r, other);
      assert Get(Retagged(rt, r, other), "release_tag") != tag;
    }
  }

  lemma LettersAreTags()
    ensures IsTag(PyStr(Str("a"))) && IsTag(PyStr(Str("b")))
  {
  }

  lemma AdvancedWithTag(rt: Runtime, r: Dict) returns (next: Dict)
    requires Verified(rt, r) && |EventsOf(r)| < 6 && FieldsSafe(rt)
    ensures Verified(rt, next) && |EventsOf(next)| == |EventsOf(r)| + 1
    ensures Get(next, "release_tag") == Get(r, "release_tag")
  {
    hide Verified, Advanced, PyStr, ValidEvidence, Event;
    var ev := CanAlwaysAdvance(rt, r);
    var state := STATES[|EventsOf(r)|];
    next := Advance(rt, r, state, ev, "").value;
    AdvancedFields(rt, r, state, ev, "");
    assert "release_tag" !in CHANGED;
  }

  /** The tag that is the number 1, carried to IMMUTABLE. */
  lemma NumberedRelease(rt: Runtime) returns (r: Dict)
    requires FieldsSafe(rt) && !rt.sensitive(ENVELOPE)
    ensures Verified(rt, r) && |EventsOf(r)| == 4 && Get(r, "release_tag") == Int(1)
  {
    hide Verified, Retagged, EventsOf, PyStr, ValidIntent, FieldsSafe;
    var x := Intent("o/r", "1", Zeros(40), Zeros(64));
    SampleTexts();
    var steps, first := RunOfLength(rt, x, 1);
    OneEvent(rt, first);
    RetaggedVerifies(rt, first, Int(1));
    RetaggedKeeps(rt, first, Int(1));
    r := AdvancedWithTag(rt, Retagged(rt, first, Int(1)));
    r := AdvancedWithTag(rt, r);
    r := AdvancedWithTag(rt, r);
  }

  lemma SampleTexts()
    ensures ValidIntent(Intent("o/r", "1", Zeros(40), Zeros(64)))
    ensures PyStr(Int(1)) == "1" && IsTag(PyStr(Int(1))) && IsTag(PyStr(Bool(true)))
  {
    assert "o/r"[..1] == "o" && "o/r"[2..] == "r" && "o/r"[1] == '/';
  }

  lemma OneEvent(rt: Runtime, r: Dict)
    requires Verified(rt, r) && Get(r, "state") == Str(STATES[0])
    ensures |EventsOf(r)| == 1
  {
    hide ValidIdentity, ValidEvent, ReceiptDigest;
    StatesDistinct(|EventsOf(r)| - 1, 0);
  }

  /** Two verified IMMUTABLE receipts with the same events, one for the tag 1 and one for the tag true. */
  lemma TagNotPinnedAtImmutable(rt: Runtime) returns (r1: Dict, r2: Dict)
    requires FieldsSafe(rt) && !rt.sensitive(ENVELOPE)
    ensures Verified(rt, r1) && Verified(rt, r2) && EventsOf(r1) == EventsOf(r2) && |EventsOf(r1)| == 4
    ensures LastDigest(r1) == LastDigest(r2)
    ensures Get(r1, "release_tag") == Int(1) && Get(r2, "release_tag") == Bool(true)
    ensures !TagPinned(rt, r1)
  {
    hide Verified, Retagged, EventsOf, PyStr, Follows;
    r1 := NumberedRelease(rt);
    SampleTexts();
    TwinsFollow(rt, Int(1), Bool(true));
    RetaggedVerifies(rt, r1, Bool(true));
    r2 := Retagged(rt, r1, Bool(true));
  }
}
