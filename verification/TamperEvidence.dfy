/** What an event digest pins down, and what it does not. */
module TamperEvidence {
  import opened Json
  import opened CanonicalJson
  import opened PythonValues
  import opened Coordinator
  import opened Decimal

  /** The value each event digest is taken over. */
  function Body(event: Json): Json {
    if event.Obj? then Obj(event.members - {"event_sha256"}) else event
  }

  /** Two different event bodies of these receipts share a digest. */
  ghost predicate Collision(rt: Runtime, a: seq<Json>, b: seq<Json>) {
    exists i, j :: 0 <= i < |a| && 0 <= j < |b| && Body(a[i]) != Body(b[j])
      && rt.digest(Body(a[i])) == rt.digest(Body(b[j]))
  }

  lemma SameBodySameEvent(rt: Runtime, c: Context, d: Context, a: Json, b: Json, s: string, p: Json, q: Json)
    requires ValidEvent(rt, c, a, s, p) && ValidEvent(rt, d, b, s, q)
    requires Body(a) == Body(b)
    ensures a == b && p == q
  {
    hide ValidEvidence;
    var m, n := a.members, b.members;
    assert "event_sha256" in m && "event_sha256" in n && m["event_sha256"] == n["event_sha256"];
    forall k ensures k in m <==> k in n {
      assert k in m - {"event_sha256"} <==> k in n - {"event_sha256"};
    }
    forall k | k in m ensures m[k] == n[k] {
      if k != "event_sha256" {
        assert (m - {"event_sha256"})[k] == (n - {"event_sha256"})[k];
      }
    }
    assert m == n;
  }

  /** Without a collision, equal event digests mean equal events, at the same position. */
  lemma SameLinkSameEvent(rt: Runtime, c: Context, d: Context, a: seq<Json>, b: seq<Json>, i: nat, j: nat)
    requires i < |a| && j < |b| && i < |STATES| && j < |STATES|
    requires ValidEvent(rt, c, a[i], STATES[i], PreviousOf(a, i))
    requires ValidEvent(rt, d, b[j], STATES[j], PreviousOf(b, j))
    requires PreviousOf(a, i + 1) == PreviousOf(b, j + 1)
    requires !Collision(rt, a, b)
    ensures i == j && a[i] == b[j] && PreviousOf(a, i) == PreviousOf(b, j)
  {
    hide ValidEvidence;
    assert rt.digest(Body(a[i])) == rt.digest(Body(b[j]));
    assert Body(a[i]) == Body(b[j]);
    assert Body(a[i]).members["state"] == a[i].members["state"];
    assert Body(b[j]).members["state"] == b[j].members["state"];
    StatesDistinct(i, j);
    SameBodySameEvent(rt, c, d, a[i], b[j], STATES[i], PreviousOf(a, i), PreviousOf(b, j));
  }

  function LastDigest(r: Dict): Json {
    var events := EventsOf(r);
    PreviousOf(events, |events|)
  }

  lemma {:induction false} SamePrefix(rt: Runtime, r1: Dict, r2: Dict, n: nat)
    requires Verified(rt, r1) && Verified(rt, r2) && n <= |EventsOf(r1)| && n <= |EventsOf(r2)|
    requires PreviousOf(EventsOf(r1), n) == PreviousOf(EventsOf(r2), n)
    requires !Collision(rt, EventsOf(r1), EventsOf(r2))
    ensures EventsOf(r1)[..n] == EventsOf(r2)[..n]
  {
    hide Verified, ValidEvent, Collision, EventsOf, ContextOf, PreviousOf;
    var a, b := EventsOf(r1), EventsOf(r2);
    if n > 0 {
      var i := n - 1;
      EventHolds(rt, r1, i);
      EventHolds(rt, r2, i);
      SameLinkSameEvent(rt, ContextOf(r1), ContextOf(r2), a, b, i, i);
      SamePrefix(rt, r1, r2, i);
      assert a[..n] == a[..i] + [a[i]] && b[..n] == b[..i] + [b[i]];
    }
  }

  lemma EventHolds(rt: Runtime, r: Dict, i: nat)
    requires Verified(rt, r) && i < |EventsOf(r)|
    ensures i < |STATES| && ValidEvent(rt, ContextOf(r), EventsOf(r)[i], STATES[i], PreviousOf(EventsOf(r), i))
  {
    hide ValidEvent, ValidIdentity, ReceiptDigest;
  }

  lemma StatesDistinct(i: nat, j: nat)
    requires i < |STATES| && j < |STATES| && STATES[i] == STATES[j]
    ensures i == j
  {
  }

  /** The last event digest pins the whole history, or two of the event bodies in play collide. */
  lemma LastDigestPinsEvents(rt: Runtime, r1: Dict, r2: Dict)
    requires Verified(rt, r1) && Verified(rt, r2) && LastDigest(r1) == LastDigest(r2)
    ensures EventsOf(r1) == EventsOf(r2) || Collision(rt, EventsOf(r1), EventsOf(r2))
  {
    hide ValidEvidence, ValidIdentity, ValidEvent, ReceiptDigest, Collision;
    var a, b := EventsOf(r1), EventsOf(r2);
    var i, j := |a| - 1, |b| - 1;
    if !Collision(rt, a, b) {
      SameLinkSameEvent(rt, ContextOf(r1), ContextOf(r2), a, b, i, j);
      SamePrefix(rt, r1, r2, |a|);
      assert a[..|a|] == a && b[..|b|] == b;
    }
  }

  /** The runtime hashes the canonical bytes of a value. */
  ghost predicate HashesCanonicalBytes(rt: Runtime) {
    forall j :: rt.digest(j) == rt.sha(Print(j))
  }

  /** Two different byte strings with one SHA-256, both canonical texts of events in play. */
  ghost predicate ByteCollision(rt: Runtime, a: seq<Json>, b: seq<Json>) {
    exists i, j :: 0 <= i < |a| && 0 <= j < |b| && Print(Body(a[i])) != Print(Body(b[j]))
      && rt.sha(Print(Body(a[i]))) == rt.sha(Print(Body(b[j])))
  }

  /** Tamper evidence down to bytes: because the printer is injective, a different history under the
      same last digest exhibits two different byte strings with the same SHA-256. */
  lemma TamperEvident(rt: Runtime, r1: Dict, r2: Dict)
    requires HashesCanonicalBytes(rt)
    requires Verified(rt, r1) && Verified(rt, r2) && LastDigest(r1) == LastDigest(r2)
    ensures EventsOf(r1) == EventsOf(r2) || ByteCollision(rt, EventsOf(r1), EventsOf(r2))
  {
    hide Verified, Print, LastDigest;
    LastDigestPinsEvents(rt, r1, r2);
    var a, b := EventsOf(r1), EventsOf(r2);
    if Collision(rt, a, b) {
      var i, j :| 0 <= i < |a| && 0 <= j < |b| && Body(a[i]) != Body(b[j])
        && rt.digest(Body(a[i])) == rt.digest(Body(b[j]));
      if Print(Body(a[i])) == Print(Body(b[j])) {
        PrintInjective(Body(a[i]), Body(b[j]));
      }
    }
  }

  // ---- whole receipts

  /** Everything in a receipt except its own digest. */
  function Sealed(r: Dict): Json { Obj(r - {"receipt_sha256"}) }

  ghost predicate SealsCollide(rt: Runtime, r1: Dict, r2: Dict) {
    Sealed(r1) != Sealed(r2) && rt.digest(Sealed(r1)) == rt.digest(Sealed(r2))
  }

  /** Two different byte strings with one SHA-256. */
  ghost predicate SealBytesCollide(rt: Runtime, r1: Dict, r2: Dict) {
    Print(Sealed(r1)) != Print(Sealed(r2)) && rt.sha(Print(Sealed(r1))) == rt.sha(Print(Sealed(r2)))
  }

  /** The receipt digest pins the whole receipt: every field of it, known or not, previous_receipt_sha256
      included. */
  lemma DigestPinsReceipt(rt: Runtime, r1: Dict, r2: Dict)
    requires Verified(rt, r1) && Verified(rt, r2) && Get(r1, "receipt_sha256") == Get(r2, "receipt_sha256")
    ensures r1 == r2 || SealsCollide(rt, r1, r2)
  {
    hide ValidIdentity, ValidEvents;
    if Sealed(r1) == Sealed(r2) { SameButOne(r1, r2, "receipt_sha256"); }
  }

  lemma SameButOne(a: Dict, b: Dict, k: string)
    requires a - {k} == b - {k} && k in a && k in b && a[k] == b[k]
    ensures a == b
  {
    forall f ensures f in a <==> f in b { assert f in a - {k} <==> f in b - {k}; }
    forall f | f in a ensures a[f] == b[f] {
      if f != k { assert (a - {k})[f] == (b - {k})[f]; }
    }
  }

  /** The same down to bytes. */
  lemma ReceiptTamperEvident(rt: Runtime, r1: Dict, r2: Dict)
    requires HashesCanonicalBytes(rt)
    requires Verified(rt, r1) && Verified(rt, r2) && Get(r1, "receipt_sha256") == Get(r2, "receipt_sha256")
    ensures r1 == r2 || SealBytesCollide(rt, r1, r2)
  {
    hide Verified, Print, Sealed;
    DigestPinsReceipt(rt, r1, r2);
    if r1 != r2 && Print(Sealed(r1)) == Print(Sealed(r2)) { PrintInjective(Sealed(r1), Sealed(r2)); }
  }

  /** The receipt with one field set, or removed. */
  function Altered(r: Dict, k: string, v: Option<Json>): Dict {
    if v.Some? then r[k := v.value] else r - {k}
  }

  /** Altering any one field of a verified receipt makes it fail, or exhibits a collision; altering the
      digest itself always makes it fail. */
  lemma AlterationShows(rt: Runtime, r: Dict, k: string, v: Option<Json>)
    requires Verified(rt, r) && Altered(r, k, v) != r
    ensures Verified(rt, Altered(r, k, v)) ==> k != "receipt_sha256" && SealsCollide(rt, r, Altered(r, k, v))
  {
    hide ValidIdentity, ValidEvents;
    var q := Altered(r, k, v);
    if k == "receipt_sha256" {
      assert q - {k} == r - {k};
    } else if Verified(rt, q) {
      assert Get(q, "receipt_sha256") == Get(r, "receipt_sha256");
      DigestPinsReceipt(rt, r, q);
    }
  }

  // ---- identity

  /** Evidence a verified receipt holds for one of its states. */
  lemma EvidenceAt(rt: Runtime, r: Dict, i: nat) returns (ev: Dict)
    requires Verified(rt, r) && i < |EventsOf(r)|
    ensures EventsOf(r)[i].Obj? && Get(EventsOf(r)[i].members, "evidence") == Obj(ev)
    ensures ValidEvidence(rt, STATES[i], ev, ContextOf(r))
  {
    hide ValidEvidence, ValidIdentity, EventDigest;
    assert ValidEvent(rt, ContextOf(r), EventsOf(r)[i], STATES[i], PreviousOf(EventsOf(r), i));
    ev := Get(EventsOf(r)[i].members, "evidence").members;
  }

  /** The identity texts verify_receipt checked are the texts of the fields evidence is compared with. */
  lemma IdentityTexts(rt: Runtime, r: Dict)
    requires Verified(rt, r)
    ensures 1 <= |EventsOf(r)| <= |STATES|
    ensures var c := ContextOf(r);
      && IsRepository(PyStr(c.repository)) && IsTag(PyStr(c.tag))
      && IsSha1(PyStr(c.source)) && IsSha256(PyStr(c.envelope))
      && Get(r, "transaction_id") == Str(TransactionId(
           rt, PyStr(c.repository), PyStr(c.tag), PyStr(c.source), PyStr(c.envelope)))
  {
    hide TransactionId, ValidEvent, ReceiptDigest;
  }

  /** A digest field is pinned by anything both readings compare equal to. */
  lemma DigestFieldPinned(rt: Runtime, e: Json, a: Json, b: Json, n: nat)
    requires PyEq(rt, e, a) && PyEq(rt, e, b)
    requires IsHex(PyStr(a), n) && IsHex(PyStr(b), n) && n >= 6
    ensures a == b
  {
    HexTextSource(a, n);
    HexTextSource(b, n);
  }

  lemma IntTextHasNoSlash(i: int)
    ensures '/' !in IntText(i)
  {
    if i < 0 {
      assert IntText(i) == "-" + Digits(-i) && '/' !in Digits(-i);
    }
  }

  /** Only text has a slash, so a repository is always text. */
  lemma RepositoryIsText(j: Json)
    requires IsRepository(PyStr(j))
    ensures j.Str?
  {
    assert '/' in PyStr(j);
    if j.Int? { IntTextHasNoSlash(j.i); }
  }

  lemma NumberTextInjective(a: Json, b: Json)
    requires IsNumber(a) && IsNumber(b) && PyStr(a) == PyStr(b)
    ensures a == b
  {
    assert "True"[0] == 'T' && "False"[0] == 'F';
    if a.Int? && b.Int? {
      IntValueOfText(a.i);
      IntValueOfText(b.i);
    } else if a.Int? && b.Float? {
      FloatIsNotInt(b.lexeme);
    } else if a.Float? && b.Int? {
      FloatIsNotInt(a.lexeme);
    }
  }

  /** Two fields equal to one evidence value are the same field, or two numbers of one value; they are the
      same exactly when they have the same text. */
  lemma TagFieldPinned(rt: Runtime, e: Json, a: Json, b: Json)
    requires PyEq(rt, e, a) && PyEq(rt, e, b)
    requires IsTag(PyStr(a)) && IsTag(PyStr(b))
    ensures a == b <==> PyStr(a) == PyStr(b)
    ensures a == b || (IsNumber(a) && IsNumber(b) && NumberOf(rt, a) == NumberOf(rt, b))
  {
    if IsNumber(a) && IsNumber(b) && PyStr(a) == PyStr(b) { NumberTextInjective(a, b); }
    assert !IsTagChar("["[0]) && !IsTagChar("{"[0]);
  }
}
