/** What verify_capsule certifies, read off the capsule itself. */
module VerifiedCapsules {
  import opened Json
  import opened PythonValues
  import opened Capsule

  /** The checks a capsule froze. */
  function ChecksOf(c: Dict): Dict {
    var online := Section(c, "online_verification");
    if online.Obj? && Section(online.members, "checks").Obj? then Section(online.members, "checks").members else map[]
  }

  /** The rows it shows a judge, and the checks it lists for each. */
  function RowsOf(c: Dict): Dict { if Get(c, "ui_checks").Obj? then Get(c, "ui_checks").members else map[] }

  function SourcesOf(c: Dict): Dict {
    if Get(c, "ui_check_sources").Obj? then Get(c, "ui_check_sources").members else map[]
  }

  lemma CountHolds(rt: Runtime, c: Dict)
    requires ValidCapsule(rt, c)
    ensures Section(c, "online_verification").Obj?
    ensures PyEq(rt, Get(Section(c, "online_verification").members, "check_count"), Int(|ChecksOf(c)|))
  {
    hide ValidPredecessor, ValidUi, ValidGate, ValidCompiler, CapsuleDigest, RequestPolicy;
  }

  /** A row that is shown green, and stands on checks that are listed for it, were run, and passed. */
  predicate StandsOnChecks(rt: Runtime, c: Dict, n: string) {
    && n in RowsOf(c) && PyEq(rt, RowsOf(c)[n], Bool(true)) && n in SourcesOf(c) && SourcesOf(c)[n].Arr?
    && forall i :: 0 <= i < |SourcesOf(c)[n].items| ==>
         var source := SourcesOf(c)[n].items[i];
         source.Str? && source.s in ChecksOf(c) && ChecksOf(c)[source.s] == Bool(true)
  }

  lemma SourcesAreTexts(rt: Runtime, sources: Json, rows: map<string, seq<string>>)
    requires PyEq(rt, sources, UiSourcesJson(rows))
    ensures sources == UiSourcesJson(rows)
  {
    var m := UiSourcesJson(rows).members;
    forall n | n in m ensures n in sources.members && sources.members[n] == m[n] {
      assert PyEq(rt, sources.members[n], m[n]);
      TextsEqual(rt, sources.members[n], rows[n]);
    }
    assert sources.members.Keys == m.Keys;
  }

  lemma TextsEqual(rt: Runtime, a: Json, texts: seq<string>)
    requires PyEq(rt, a, Strings(texts))
    ensures a == Strings(texts)
  {
    var b := Strings(texts);
    forall i | 0 <= i < |b.items| ensures a.items[i] == b.items[i] {
      assert PyEq(rt, a.items[i], b.items[i]);
    }
    assert a.items == b.items;
  }

  lemma UiHolds(rt: Runtime, c: Dict)
    requires ValidCapsule(rt, c)
    ensures Section(c, "online_verification").Obj? && AllTrue(Obj(ChecksOf(c)))
    ensures PyEq(rt, Get(c, "ui_check_sources"), UiSourcesJson(UiSources(KIND)))
    ensures var expected := UiProjection(ChecksOf(c));
      expected.Some? && PyEq(rt, Get(c, "ui_checks"), Obj(expected.value)) && RowsPassed(expected.value)
  {
    hide ValidPredecessor, ValidGate, ValidCompiler, CapsuleDigest, RequestPolicy, UiSources, UiProjection,
      UiSourcesJson, PyEq;
  }

  predicate RowsPassed(rows: Dict) { forall n :: n in rows ==> rows[n] == Bool(true) }

  /** No row of a verified capsule is shown green but on checks it lists itself, all of which were run and
      passed; the rows are those it lists checks for; and no other check failed either. */
  lemma RowsStandOnChecks(rt: Runtime, c: Dict)
    requires ValidCapsule(rt, c)
    ensures RowsOf(c).Keys == SourcesOf(c).Keys
    ensures forall n :: n in RowsOf(c) ==> StandsOnChecks(rt, c, n)
    ensures ChecksOf(c) != map[] && forall k :: k in ChecksOf(c) ==> ChecksOf(c)[k] == Bool(true)
  {
    hide ValidCapsule, UiSources, PyEq, UiSourcesJson, UiProjection, ChecksOf, StandsOnChecks;
    UiHolds(rt, c);
    SourcesAreTexts(rt, Get(c, "ui_check_sources"), UiSources(KIND));
    RowsShown(rt, Get(c, "ui_checks"), UiProjection(ChecksOf(c)).value);
    SourcesListed(UiSources(KIND));
    ProjectionKeys(ChecksOf(c));
    forall n | n in RowsOf(c) ensures StandsOnChecks(rt, c, n) { RowStands(rt, c, n); }
  }

  lemma RowsShown(rt: Runtime, shown: Json, rows: Dict)
    requires PyEq(rt, shown, Obj(rows))
    ensures shown.Obj? && shown.members.Keys == rows.Keys
    ensures forall n :: n in rows ==> PyEq(rt, shown.members[n], rows[n])
  {
  }

  lemma SourcesListed(rows: map<string, seq<string>>)
    ensures UiSourcesJson(rows).Obj? && UiSourcesJson(rows).members.Keys == rows.Keys
    ensures forall n :: n in rows ==> UiSourcesJson(rows).members[n] == Strings(rows[n])
  {
  }

  /** Every check a row is computed from was run and passed, when the row passed. */
  lemma RowPassed(checks: Dict, n: string, i: nat)
    requires UiProjection(checks).Some? && RowsPassed(UiProjection(checks).value)
    requires n in UiSources(KIND) && i < |UiSources(KIND)[n]|
    ensures UiSources(KIND)[n][i] in checks && checks[UiSources(KIND)[n][i]] == Bool(true)
  {
    hide UiSources;
    assert UiProjection(checks).value[n] == Bool(true);
    assert Get(checks, UiSources(KIND)[n][i]) == Bool(true);
  }

  lemma ProjectionKeys(checks: Dict)
    requires UiProjection(checks).Some?
    ensures UiProjection(checks).value.Keys == UiSources(KIND).Keys
  {
    hide UiSources;
  }

  lemma RowStands(rt: Runtime, c: Dict, n: string)
    requires ValidCapsule(rt, c) && n in RowsOf(c) && n in UiSources(KIND)
    requires PyEq(rt, RowsOf(c)[n], Bool(true)) && Get(c, "ui_check_sources") == UiSourcesJson(UiSources(KIND))
    ensures StandsOnChecks(rt, c, n)
  {
    hide ValidCapsule, UiSources, PyEq, UiSourcesJson, UiProjection, ChecksOf;
    UiHolds(rt, c);
    SourcesListed(UiSources(KIND));
    var row := UiSources(KIND)[n];
    forall i | 0 <= i < |row| ensures row[i] in ChecksOf(c) && ChecksOf(c)[row[i]] == Bool(true) {
      RowPassed(ChecksOf(c), n, i);
    }
  }

  // ---- the digest is no signature: which edits pass once the capsule is sealed again

  /** One field of one section set, and the capsule sealed again. */
  function Resealed(rt: Runtime, c: Dict, section: string, k: string, v: Json): Dict {
    var members := if Section(c, section).Obj? then Section(c, section).members else map[];
    Seal(rt, c[section := Obj(members[k := v])])
  }

  const DIGESTS: set<string> := {
    "evidence_sha256", "release_envelope_sha256", "transaction_receipt_sha256", "transaction_file_sha256",
    "author_bundle_sha256", "network_bundle_sha256"}

  const SECTIONS: set<string> := {"predecessor", "online_verification", "gate", "compiler"}

  /** What verify_capsule lets stand in a field of a section. */
  predicate MayStand(rt: Runtime, c: Dict, section: string, k: string, v: Json) {
    && (section == "predecessor" && k in DIGESTS ==> IsSha256(PyStr(v)))
    && (section == "predecessor" && k == "release_target" ==> IsSha1(PyStr(v)))
    && (section == "compiler" && k == "source_head" ==> IsSha1(PyStr(v)))
    && (section == "gate" && k == "status" ==> v == Str("PASS"))
    && (section == "online_verification" && k == "ok" ==> v == Bool(true))
    && (section == "online_verification" && k == "mode" ==> v == Str("read-only-http-get"))
    && (section == "online_verification" && k == "check_count" ==> PyEq(rt, v, Int(|ChecksOf(c)|)))
  }

  lemma ResealedReads(rt: Runtime, c: Dict, section: string, k: string, v: Json)
    requires section in SECTIONS && Section(c, section).Obj?
    ensures var d := Resealed(rt, c, section, k, v);
      && Section(d, section) == Obj(Section(c, section).members[k := v])
      && (forall f :: f != section && f != "receipt_sha256" ==>
            Section(d, f) == Section(c, f) && Get(d, f) == Get(c, f))
      && Get(d, "receipt_sha256") == Str(CapsuleDigest(rt, d))
  {
    var e := c[section := Obj(Section(c, section).members[k := v])];
    assert section != "receipt_sha256" && |"receipt_sha256"| == 14;
    assert Seal(rt, e) - {"receipt_sha256"} == e - {"receipt_sha256"};
  }

  lemma PredecessorEdited(p: Dict, k: string, v: Json)
    requires ValidPredecessor(Obj(p))
    ensures ValidPredecessor(Obj(p[k := v]))
        <==> (k in DIGESTS ==> IsSha256(PyStr(v))) && (k == "release_target" ==> IsSha1(PyStr(v)))
  {
    hide IsHex, PyStr;
  }

  predicate OnlineAllows(rt: Runtime, checks: Dict, k: string, v: Json) {
    && (k == "ok" ==> v == Bool(true))
    && (k == "mode" ==> v == Str("read-only-http-get"))
    && (k == "check_count" ==> PyEq(rt, v, Int(|checks|)))
  }

  lemma OnlineEdited(rt: Runtime, o: Dict, k: string, v: Json)
    requires ValidOnline(rt, Obj(o)) && k != "checks"
    ensures Section(o[k := v], "checks") == Section(o, "checks") && Section(o, "checks").Obj?
    ensures ValidOnline(rt, Obj(o[k := v])) <==> OnlineAllows(rt, Section(o, "checks").members, k, v)
  {
    hide PyEq;
  }

  lemma UiDependsOnChecks(rt: Runtime, o: Json, p: Json, sources: Json, rows: Json)
    requires ValidOnline(rt, o) && ValidOnline(rt, p)
    requires Section(o.members, "checks") == Section(p.members, "checks")
    ensures ValidUi(rt, o, sources, rows) == ValidUi(rt, p, sources, rows)
  {
    hide PyEq, UiSources, UiProjection, UiSourcesJson, AllTrue;
  }

  /** Sealed, and the same as c outside this section. */
  ghost predicate DiffersIn(rt: Runtime, c: Dict, d: Dict, section: string) {
    && (forall f :: f != section && f != "receipt_sha256" ==> Section(d, f) == Section(c, f) && Get(d, f) == Get(c, f))
    && Get(d, "receipt_sha256") == Str(CapsuleDigest(rt, d))
  }

  lemma PredecessorMatters(rt: Runtime, c: Dict, d: Dict)
    requires ValidCapsule(rt, c) && DiffersIn(rt, c, d, "predecessor")
    ensures ValidCapsule(rt, d) <==> ValidPredecessor(Section(d, "predecessor"))
  {
    hide ValidPredecessor, ValidOnline, ValidUi, ValidGate, ValidCompiler, CapsuleDigest, PyEq, RequestPolicy, Section;
  }

  predicate OnlineFits(rt: Runtime, online: Json, c: Dict) {
    ValidOnline(rt, online) && ValidUi(rt, online, Get(c, "ui_check_sources"), Get(c, "ui_checks"))
  }

  lemma OnlineMatters(rt: Runtime, c: Dict, d: Dict)
    requires ValidCapsule(rt, c) && DiffersIn(rt, c, d, "online_verification")
    ensures ValidCapsule(rt, d) <==> OnlineFits(rt, Section(d, "online_verification"), c)
  {
    hide ValidPredecessor, ValidOnline, ValidUi, ValidGate, ValidCompiler, CapsuleDigest, PyEq, RequestPolicy, Section;
  }

  lemma GateMatters(rt: Runtime, c: Dict, d: Dict)
    requires ValidCapsule(rt, c) && DiffersIn(rt, c, d, "gate")
    ensures ValidCapsule(rt, d) <==> ValidGate(Section(d, "gate"))
  {
    hide ValidPredecessor, ValidOnline, ValidUi, ValidGate, ValidCompiler, CapsuleDigest, PyEq, RequestPolicy, Section;
  }

  lemma CompilerMatters(rt: Runtime, c: Dict, d: Dict)
    requires ValidCapsule(rt, c) && DiffersIn(rt, c, d, "compiler")
    ensures ValidCapsule(rt, d) <==> ValidCompiler(Section(d, "compiler"))
  {
    hide ValidPredecessor, ValidOnline, ValidUi, ValidGate, ValidCompiler, CapsuleDigest, PyEq, RequestPolicy, Section;
  }

  /** A verified capsule in which one field of a section, other than the checks, is changed and the digest
      computed again verifies exactly when the field is not looked at or may hold the new value. */
  lemma ResealedVerifies(rt: Runtime, c: Dict, section: string, k: string, v: Json)
    requires ValidCapsule(rt, c) && section in SECTIONS && k != "checks"
    ensures ValidCapsule(rt, Resealed(rt, c, section, k, v)) <==> MayStand(rt, c, section, k, v)
  {
    hide ValidCapsule, ValidPredecessor, ValidOnline, ValidUi, ValidGate, ValidCompiler, Resealed, CapsuleDigest, PyEq,
      IsHex, PyStr, Section;
    SectionsAreObjects(rt, c);
    ResealedReads(rt, c, section, k, v);
    SectionHolds(rt, c, section);
    var m, d := Section(c, section).members, Resealed(rt, c, section, k, v);
    if section == "predecessor" {
      PredecessorMatters(rt, c, d);
      PredecessorEdited(m, k, v);
    } else if section == "online_verification" {
      OnlineMatters(rt, c, d);
      OnlineResealed(rt, c, k, v);
    } else if section == "gate" {
      GateMatters(rt, c, d);
      GateEdited(m, k, v);
    } else {
      CompilerMatters(rt, c, d);
      CompilerEdited(m, k, v);
    }
  }

  lemma SectionHolds(rt: Runtime, c: Dict, section: string)
    requires ValidCapsule(rt, c)
    ensures section == "predecessor" ==> ValidPredecessor(Section(c, section))
    ensures section == "gate" ==> ValidGate(Section(c, section))
    ensures section == "compiler" ==> ValidCompiler(Section(c, section))
  {
    hide ValidPredecessor, ValidOnline, ValidUi, ValidGate, ValidCompiler, CapsuleDigest, PyEq, RequestPolicy, Section;
  }

  lemma OnlineResealed(rt: Runtime, c: Dict, k: string, v: Json)
    requires ValidCapsule(rt, c) && k != "checks" && Section(c, "online_verification").Obj?
    ensures var o := Section(c, "online_verification").members; var p := Obj(o[k := v]);
      && (ValidOnline(rt, p) <==> OnlineAllows(rt, ChecksOf(c), k, v))
      && (ValidOnline(rt, p) ==> ValidUi(rt, p, Get(c, "ui_check_sources"), Get(c, "ui_checks")))
  {
    hide ValidPredecessor, ValidOnline, ValidUi, ValidGate, ValidCompiler, CapsuleDigest, PyEq, RequestPolicy, Section;
    var o := Section(c, "online_verification").members;
    OnlineEdited(rt, o, k, v);
    ChecksAre(c);
    if ValidOnline(rt, Obj(o[k := v])) {
      UiDependsOnChecks(rt, Obj(o), Obj(o[k := v]), Get(c, "ui_check_sources"), Get(c, "ui_checks"));
    }
  }

  lemma ChecksAre(c: Dict)
    requires Section(c, "online_verification").Obj?
    requires Section(Section(c, "online_verification").members, "checks").Obj?
    ensures ChecksOf(c) == Section(Section(c, "online_verification").members, "checks").members
  {
  }

  lemma SectionsAreObjects(rt: Runtime, c: Dict)
    requires ValidCapsule(rt, c)
    ensures forall section :: section in SECTIONS ==> Section(c, section).Obj?
  {
    hide ValidUi, CapsuleDigest, PyEq, RequestPolicy, IsHex, PyStr, Section, AllTrue;
  }

  lemma GateEdited(g: Dict, k: string, v: Json)
    requires ValidGate(Obj(g)) && k != "checks"
    ensures ValidGate(Obj(g[k := v])) <==> (k == "status" ==> v == Str("PASS"))
  {
    hide AllTrue;
  }

  lemma CompilerEdited(k: Dict, f: string, v: Json)
    requires ValidCompiler(Obj(k))
    ensures ValidCompiler(Obj(k[f := v])) <==> (f == "source_head" ==> IsSha1(PyStr(v)))
  {
    hide IsHex, PyStr;
  }

  // ---- fields outside the sections

  predicate HeaderAllows(rt: Runtime, k: string, v: Json) {
    && (k == "schema_version" ==> PyEq(rt, v, Int(1)))
    && (k == "kind" ==> v == Str("continuum.offline-judge-capsule.v1"))
    && (k == "request_policy" ==> PyEq(rt, v, RequestPolicy(KIND)))
  }

  /** The same for a field outside the sections and the rows: only schema, kind and request policy matter. */
  lemma ResealedHeader(rt: Runtime, c: Dict, k: string, v: Json)
    requires ValidCapsule(rt, c) && k !in SECTIONS && k !in {"ui_check_sources", "ui_checks"}
    ensures ValidCapsule(rt, Seal(rt, c[k := v])) <==> HeaderAllows(rt, k, v)
  {
    hide ValidPredecessor, ValidOnline, ValidUi, ValidGate, ValidCompiler, CapsuleDigest, PyEq, RequestPolicy, Seal;
    var d := Seal(rt, c[k := v]);
    SealedReads(rt, c[k := v]);
    SealedReads(rt, c);
    assert forall f :: f in SECTIONS || f in {"ui_check_sources", "ui_checks"} ==> f != k && f != "receipt_sha256";
    assert PolicySet(d, k, v);
  }

  predicate PolicySet(d: Dict, k: string, v: Json) {
    k == "request_policy" ==> Section(d, "request_policy") == v
  }

  lemma SealedReads(rt: Runtime, e: Dict)
    ensures forall f :: f != "receipt_sha256" ==>
              Section(Seal(rt, e), f) == Section(e, f) && Get(Seal(rt, e), f) == Get(e, f)
    ensures Get(Seal(rt, e), "receipt_sha256") == Str(CapsuleDigest(rt, Seal(rt, e)))
  {
    assert Seal(rt, e) - {"receipt_sha256"} == e - {"receipt_sha256"};
  }
}
