/** Which identity fields of a receipt its events pin down, state by state. */
module IdentityPinning {
  import opened Json
  import opened PythonValues
  import opened Coordinator
  import opened TamperEvidence

  /** What the evidence of one state says about the identity it was checked against. */
  ghost predicate Binds(rt: Runtime, state: string, ev: Dict, c: Context) {
    && (state == STATES[0] ==>
         PyEq(rt, Get(ev, "release_target"), c.source) && PyEq(rt, Get(ev, "envelope_sha256"), c.envelope))
    && (state == STATES[1] ==>
         Get(ev, "signer_workflow") == Str(PyStr(c.repository) + "/.github/workflows/release-envelope.yml"))
    && (state in {STATES[3], STATES[4], STATES[5]} ==>
         PyEq(rt, Get(ev, "release_target"), c.source) && PyEq(rt, Get(ev, "release_tag"), c.tag))
    && (state == STATES[4] ==>
         Get(ev, "coordinator_artifact_name") == Str("release-transaction-" + PyStr(c.tag) + "-"
           + PyStr(GetOr(ev, "coordinator_source_digest", Str("")))))
    && (state == STATES[5] ==> PyEq(rt, Get(ev, "browser_source_digest"), c.source))
  }

  lemma ValidEvidenceBinds(rt: Runtime, i: nat, ev: Dict, c: Context)
    requires i < |STATES| && ValidEvidence(rt, STATES[i], ev, c)
    ensures Binds(rt, STATES[i], ev, c)
  {
    hide Safe, IsHex, DigestMap, IntAtLeast, PyEq, BrowserDigestEvidence, BrowserScriptEvidence;
  }

  lemma SharedEvidence(rt: Runtime, r1: Dict, r2: Dict, i: nat) returns (ev: Dict)
    requires Verified(rt, r1) && Verified(rt, r2) && EventsOf(r1) == EventsOf(r2) && i < |EventsOf(r1)|
    ensures i < |STATES| && Binds(rt, STATES[i], ev, ContextOf(r1)) && Binds(rt, STATES[i], ev, ContextOf(r2))
  {
    hide ValidEvidence, ValidIdentity, Binds;
    ev := EvidenceAt(rt, r1, i);
    var ev' := EvidenceAt(rt, r2, i);
    ValidEvidenceBinds(rt, i, ev, ContextOf(r1));
    ValidEvidenceBinds(rt, i, ev, ContextOf(r2));
  }

  lemma SourceAndEnvelopePinned(rt: Runtime, r1: Dict, r2: Dict)
    requires Verified(rt, r1) && Verified(rt, r2) && EventsOf(r1) == EventsOf(r2)
    ensures ContextOf(r1).source == ContextOf(r2).source && ContextOf(r1).envelope == ContextOf(r2).envelope
  {
    hide ValidEvidence, Verified, TransactionId, PyEq, IsHex, IsTag, IsRepository;
    var c, d := ContextOf(r1), ContextOf(r2);
    IdentityTexts(rt, r1);
    IdentityTexts(rt, r2);
    var ev := SharedEvidence(rt, r1, r2, 0);
    DigestFieldPinned(rt, Get(ev, "release_target"), c.source, d.source, 40);
    DigestFieldPinned(rt, Get(ev, "envelope_sha256"), c.envelope, d.envelope, 64);
  }

  lemma SuffixCancels(a: string, b: string, s: string)
    requires a + s == b + s
    ensures a == b
  {
    assert (a + s)[..|a|] == a && (b + s)[..|b|] == b;
  }

  lemma PrefixCancels(p: string, a: string, b: string)
    requires p + a == p + b
    ensures a == b
  {
    assert (p + a)[|p|..] == a && (p + b)[|p|..] == b;
  }

  lemma RepositoryPinned(rt: Runtime, r1: Dict, r2: Dict)
    requires Verified(rt, r1) && Verified(rt, r2) && EventsOf(r1) == EventsOf(r2) && |EventsOf(r1)| >= 2
    ensures ContextOf(r1).repository == ContextOf(r2).repository
  {
    hide ValidEvidence, Verified, TransactionId, IsRepository;
    var c, d := ContextOf(r1), ContextOf(r2);
    var ev := SharedEvidence(rt, r1, r2, 1);
    IdentityTexts(rt, r1);
    IdentityTexts(rt, r2);
    SuffixCancels(PyStr(c.repository), PyStr(d.repository), "/.github/workflows/release-envelope.yml");
    RepositoryIsText(c.repository);
    RepositoryIsText(d.repository);
  }

  /** Another tag-shaped number of the same value. */
  predicate IsTwin(rt: Runtime, a: Json, b: Json) {
    && a != b && IsNumber(a) && IsNumber(b) && NumberOf(rt, a) == NumberOf(rt, b)
    && IsTag(PyStr(b)) && InPython(rt, b)
  }

  ghost predicate HasTwin(rt: Runtime, a: Json) { exists b :: IsTwin(rt, a, b) }

  /** Two IMMUTABLE receipts with the same events have the same tag, or two different numbers of one value. */
  lemma TagPinnedByValue(rt: Runtime, r1: Dict, r2: Dict)
    requires Verified(rt, r1) && Verified(rt, r2) && EventsOf(r1) == EventsOf(r2) && |EventsOf(r1)| >= 4
    ensures InPython(rt, ContextOf(r2).tag) ==>
              ContextOf(r1).tag == ContextOf(r2).tag || IsTwin(rt, ContextOf(r1).tag, ContextOf(r2).tag)
    ensures PyStr(ContextOf(r1).tag) == PyStr(ContextOf(r2).tag) ==> ContextOf(r1).tag == ContextOf(r2).tag
  {
    hide ValidEvidence, Verified, TransactionId, IsTag, PyEq, PyStr, NumberOf, IsNumber, IsRepository, IsHex, ContextOf,
      EventsOf;
    var ev := SharedEvidence(rt, r1, r2, 3);
    IdentityTexts(rt, r1);
    IdentityTexts(rt, r2);
    TagFieldPinned(rt, Get(ev, "release_tag"), ContextOf(r1).tag, ContextOf(r2).tag);
  }

  /** From PAGES_MATERIALIZED on, the artifact name spells the tag, so its text is pinned too. */
  lemma TagTextPinned(rt: Runtime, r1: Dict, r2: Dict)
    requires Verified(rt, r1) && Verified(rt, r2) && EventsOf(r1) == EventsOf(r2) && |EventsOf(r1)| >= 5
    ensures PyStr(ContextOf(r1).tag) == PyStr(ContextOf(r2).tag)
  {
    hide ValidEvidence, Verified, TransactionId, ValidIdentity;
    var ev := SharedEvidence(rt, r1, r2, 4);
    var a, b := PyStr(ContextOf(r1).tag), PyStr(ContextOf(r2).tag);
    var p, s := "release-transaction-", PyStr(GetOr(ev, "coordinator_source_digest", Str("")));
    assert p + a + "-" + s == p + b + "-" + s;
    SuffixCancels(p + a + "-", p + b + "-", s);
    SuffixCancels(p + a, p + b, "-");
    PrefixCancels(p, a, b);
  }

  /** The tag is pinned from IMMUTABLE on unless it has a twin, and from PAGES_MATERIALIZED on always. */
  lemma TagPinnedByTwins(rt: Runtime, r1: Dict, r2: Dict)
    requires Verified(rt, r1) && Verified(rt, r2) && EventsOf(r1) == EventsOf(r2) && |EventsOf(r1)| >= 4
    requires |EventsOf(r1)| >= 5 || (InPython(rt, Get(r2, "release_tag")) && !HasTwin(rt, Get(r1, "release_tag")))
    ensures Get(r1, "release_tag") == Get(r2, "release_tag")
  {
    hide Verified, EventsOf, PyStr, IsTwin;
    TagPinnedByValue(rt, r1, r2);
    if |EventsOf(r1)| >= 5 { TagTextPinned(rt, r1, r2); }
  }

  /** The identities behind the two transaction ids differ and share a digest. */
  ghost predicate IdentityCollision(rt: Runtime, r1: Dict, r2: Dict) {
    var a, b := IdentityOf(r1), IdentityOf(r2);
    a != b && rt.digest(a) == rt.digest(b)
  }

  function IdentityOf(r: Dict): Json {
    var c := ContextOf(r);
    IdentityBody(PyStr(c.repository), PyStr(c.tag), PyStr(c.source), PyStr(c.envelope))
  }

  /** From IMMUTABLE on two receipts with the same events have the same transaction id exactly when they
      have the same tag, or their identities collide. */
  lemma TransactionIdFollowsTag(rt: Runtime, r1: Dict, r2: Dict)
    requires Verified(rt, r1) && Verified(rt, r2) && EventsOf(r1) == EventsOf(r2) && |EventsOf(r1)| >= 4
    requires !IdentityCollision(rt, r1, r2)
    ensures Get(r1, "transaction_id") == Get(r2, "transaction_id")
        <==> Get(r1, "release_tag") == Get(r2, "release_tag")
  {
    hide Verified, EventsOf, PyStr, IsTwin, IsRepository, IsTag, IsHex;
    IdentityTexts(rt, r1);
    IdentityTexts(rt, r2);
    SourceAndEnvelopePinned(rt, r1, r2);
    RepositoryPinned(rt, r1, r2);
    TagPinnedByValue(rt, r1, r2);
    if IdentityOf(r1) == IdentityOf(r2) {
      assert IdentityOf(r1).members["release_tag"] == IdentityOf(r2).members["release_tag"];
    }
  }

  predicate SameTexts(c: Context, d: Context) {
    && PyStr(c.repository) == PyStr(d.repository) && PyStr(c.tag) == PyStr(d.tag)
    && PyStr(c.source) == PyStr(d.source) && PyStr(c.envelope) == PyStr(d.envelope)
  }

  /** From the first state on, one transaction id means one repository, tag, source and envelope, as text, or two
      identities collide. */
  lemma TransactionIdPinsIdentity(rt: Runtime, r1: Dict, r2: Dict)
    requires Verified(rt, r1) && Verified(rt, r2) && Get(r1, "transaction_id") == Get(r2, "transaction_id")
    ensures SameTexts(ContextOf(r1), ContextOf(r2)) || IdentityCollision(rt, r1, r2)
  {
    hide Verified, EventsOf, PyStr, IsRepository, IsTag, IsHex, IdentityBody;
    IdentityTexts(rt, r1);
    IdentityTexts(rt, r2);
    if !IdentityCollision(rt, r1, r2) {
      var c, d := ContextOf(r1), ContextOf(r2);
      BodyInjective(PyStr(c.repository), PyStr(c.tag), PyStr(c.source), PyStr(c.envelope),
        PyStr(d.repository), PyStr(d.tag), PyStr(d.source), PyStr(d.envelope));
    }
  }

  lemma BodyInjective(a: string, b: string, c: string, d: string, e: string, f: string, g: string, h: string)
    requires IdentityBody(a, b, c, d) == IdentityBody(e, f, g, h)
    ensures a == e && b == f && c == g && d == h
  {
    var m, n := IdentityBody(a, b, c, d).members, IdentityBody(e, f, g, h).members;
    assert m["repository"] == Str(a) && n["repository"] == Str(e);
    assert m["release_tag"] == Str(b) && n["release_tag"] == Str(f);
    assert m["source_digest"] == Str(c) && n["source_digest"] == Str(g);
    assert m["envelope_sha256"] == Str(d) && n["envelope_sha256"] == Str(h);
  }

  /** Receipts with the same last event digest, from IMMUTABLE on, are about the same release:
      repository, source and envelope always; the tag unless it is a number with a twin; and the transaction
      id exactly when the tag. */
  lemma LastDigestPinsIdentity(rt: Runtime, r1: Dict, r2: Dict)
    requires Verified(rt, r1) && Verified(rt, r2) && LastDigest(r1) == LastDigest(r2)
    requires !Collision(rt, EventsOf(r1), EventsOf(r2))
    requires |EventsOf(r1)| >= 4
    ensures Get(r1, "repository") == Get(r2, "repository")
    ensures Get(r1, "source_digest") == Get(r2, "source_digest")
    ensures Get(r1, "envelope_sha256") == Get(r2, "envelope_sha256")
    ensures |EventsOf(r1)| >= 5 || (InPython(rt, Get(r2, "release_tag")) && !HasTwin(rt, Get(r1, "release_tag"))) ==>
              Get(r1, "release_tag") == Get(r2, "release_tag")
    ensures !IdentityCollision(rt, r1, r2) ==>
              (Get(r1, "transaction_id") == Get(r2, "transaction_id")
               <==> Get(r1, "release_tag") == Get(r2, "release_tag"))
  {
    hide ValidEvidence, Verified, Collision, IdentityCollision, HasTwin, EventsOf;
    LastDigestPinsEvents(rt, r1, r2);
    SourceAndEnvelopePinned(rt, r1, r2);
    RepositoryPinned(rt, r1, r2);
    if |EventsOf(r1)| >= 5 || (InPython(rt, Get(r2, "release_tag")) && !HasTwin(rt, Get(r1, "release_tag"))) {
      TagPinnedByTwins(rt, r1, r2);
    }
    if !IdentityCollision(rt, r1, r2) { TransactionIdFollowsTag(rt, r1, r2); }
  }
}
