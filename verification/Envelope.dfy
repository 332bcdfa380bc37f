/** The capsule slice of build_envelope, and verify_envelope_binding which reads it back. */
module Envelope {
  import opened Json
  import opened PythonValues
  import opened Capsule

  datatype Inputs = Inputs(
    judgeSchema: int, reference: Json, demoUrl: string, assetUrl: Json,
    capsule: Option<Dict>, bytes: string, repository: string, commit: string, tag: string)

  /** str.rstrip("/"). */
  function RStrip(s: string): string {
    if s != "" && s[|s| - 1] == '/' then RStrip(s[..|s| - 1]) else s
  }

  /** Slashes at the end go, all of them, and nothing else. */
  lemma {:induction false} RStripSlashes(s: string)
    ensures RStrip(s) <= s && (RStrip(s) == "" || RStrip(s)[|RStrip(s)| - 1] != '/')
    ensures forall i :: |RStrip(s)| <= i < |s| ==> s[i] == '/'
  {
    if s != "" && s[|s| - 1] == '/' { RStripSlashes(s[..|s| - 1]); }
  }

  /** judge["offline_judge_capsule"].get("relay") when that is a dict. */
  function RelayReference(x: Inputs): Json {
    if x.reference.Obj? then Get(x.reference.members, "relay") else Null
  }

  predicate SameField(rt: Runtime, a: Dict, b: Dict, k: string) { PyEq(rt, Get(a, k), Get(b, k)) }

  /** The relay half of the gate. */
  predicate RelayBound(rt: Runtime, reference: Json, c: Dict) {
    reference == Null ||
    (&& reference.Obj?
     && var ref := reference.members;
        var relay := Section(c, "relay");
        && Get(ref, "enabled") == Bool(true) && PyEq(rt, Get(ref, "schema_version"), Int(1))
        && Get(ref, "reason") == Str("preserved_candidate_browser_failure")
        && Get(ref, "source_release_immutable") == Bool(true)
        && Get(ref, "failed_pages_conclusion") == Str("failure")
        && relay.Obj?
        && PyEq(rt, Get(relay.members, "schema_version"), Int(1))
        && SameField(rt, relay.members, ref, "reason")
        && SameField(rt, relay.members, ref, "source_release_tag")
        && SameField(rt, relay.members, ref, "source_release_target")
        && SameField(rt, relay.members, ref, "source_asset_sha256")
        && SameField(rt, relay.members, ref, "source_receipt_sha256")
        && SameField(rt, relay.members, ref, "source_compiler_workflow_run_id")
        && SameField(rt, relay.members, ref, "failed_pages_workflow_run_id")
        && Get(relay.members, "failed_epoch_promoted_to_pass") == Bool(false)
        && Section(c, "predecessor").Obj?
        && PyEq(rt, Get(Section(c, "predecessor").members, "release_tag"), Get(ref, "source_predecessor_release_tag")))
  }

  predicate NamesRelease(c: Dict, commit: string, tag: string) {
    && Section(c, "compiler").Obj?
    && Get(Section(c, "compiler").members, "source_head") == Str(commit)
    && Get(Section(c, "compiler").members, "successor_release_tag") == Str(tag)
  }

  /** offline_judge_capsule_bound. */
  predicate CapsuleBound(rt: Runtime, x: Inputs) {
    x.judgeSchema < 16 ||
    (&& x.reference.Obj? && x.capsule.Some?
     && PyEq(rt, Get(x.reference.members, "schema_version"), Int(1))
     && Get(x.reference.members, "asset_name") == Str(ASSET_NAME)
     && Get(x.reference.members, "public_url") == Str(RStrip(x.demoUrl) + "/evidence/" + ASSET_NAME)
     && NamesRelease(x.capsule.value, x.commit, x.tag)
     && Get(Section(x.capsule.value, "compiler").members, "repository") == Str(x.repository)
     && Section(x.capsule.value, "predecessor").Obj?
     && Get(Section(x.capsule.value, "predecessor").members, "release_tag") != Str(x.tag)
     && RelayBound(rt, RelayReference(x), x.capsule.value))
  }

  /** The subscripts taken when the capsule entry is emitted all succeed. */
  predicate CanEmitEntry(x: Inputs, c: Dict) {
    && x.reference.Obj? && "public_url" in x.reference.members
    && Section(c, "predecessor").Obj?
    && "release_tag" in Section(c, "predecessor").members && "release_target" in Section(c, "predecessor").members
    && Section(c, "online_verification").Obj? && "check_count" in Section(c, "online_verification").members
    && Get(c, "ui_checks").Obj?
    && (RelayReference(x) != Null ==> "relay" in c)
  }

  function Entry(rt: Runtime, x: Inputs, c: Dict): Dict
    requires CanEmitEntry(x, c)
  {
    var predecessor := Section(c, "predecessor").members;
    var entry: Dict := map[
      "schema_version" := Int(1),
      "asset_name" := Str(ASSET_NAME),
      "asset_url" := x.assetUrl,
      "public_url" := x.reference.members["public_url"],
      "asset_sha256" := Str(rt.sha(x.bytes)),
      "receipt_sha256" := Get(c, "receipt_sha256"),
      "predecessor_release_tag" := predecessor["release_tag"],
      "predecessor_release_target" := predecessor["release_target"],
      "online_check_count" := Section(c, "online_verification").members["check_count"],
      "ui_check_count" := Int(|Get(c, "ui_checks").members|),
      "github_api_requests_per_judge_click" := Int(0)];
    if RelayReference(x) != Null then entry["relay" := c["relay"]] else entry
  }

  function ReleaseEntry(x: Inputs): Json {
    Obj(map["repository" := Str(x.repository), "commit_sha" := Str(x.commit), "tag" := Str(x.tag)])
  }

  /** The envelope build_envelope returns, as far as the capsule is concerned; None when it raises. */
  function Emit(rt: Runtime, x: Inputs): Option<Dict> {
    if x.capsule.Some? && !ValidCapsule(rt, x.capsule.value) then None
    else if !CapsuleBound(rt, x) then None
    else if x.capsule.None? then Some(map["release" := ReleaseEntry(x)])
    else if !CanEmitEntry(x, x.capsule.value) then None
    else Some(map["release" := ReleaseEntry(x), "offline_judge_capsule" := Obj(Entry(rt, x, x.capsule.value))])
  }

  // ---- the consumer

  predicate RelayAccepted(rt: Runtime, reference: Json, c: Dict) {
    reference == Null ||
    (&& Get(c, "relay").Obj?
     && PyEq(rt, reference, Get(c, "relay"))
     && Get(Get(c, "relay").members, "failed_epoch_promoted_to_pass") == Bool(false))
  }

  predicate ReferenceAccepted(rt: Runtime, reference: Json, c: Dict, bytes: string) {
    && reference.Obj?
    && PyEq(rt, Get(reference.members, "schema_version"), Int(1))
    && Get(reference.members, "asset_name") == Str(ASSET_NAME)
    && Get(reference.members, "asset_sha256") == Str(rt.sha(bytes))
    && PyEq(rt, Get(reference.members, "receipt_sha256"), Get(c, "receipt_sha256"))
    && RelayAccepted(rt, Get(reference.members, "relay"), c)
  }

  predicate ReleaseAccepted(rt: Runtime, release: Json, compiler: Json) {
    && release.Obj? && compiler.Obj?
    && PyEq(rt, Get(release.members, "commit_sha"), Get(compiler.members, "source_head"))
    && PyEq(rt, Get(release.members, "tag"), Get(compiler.members, "successor_release_tag"))
  }

  /** verify_envelope_binding. */
  predicate BindingAccepted(rt: Runtime, c: Dict, bytes: string, envelope: Dict) {
    && ValidCapsule(rt, c)
    && "compiler" in c
    && ReferenceAccepted(rt, Section(envelope, "offline_judge_capsule"), c, bytes)
    && ReleaseAccepted(rt, Section(envelope, "release"), Section(c, "compiler"))
  }

  // ---- agreement

  lemma EntryReads(rt: Runtime, x: Inputs, c: Dict)
    requires CanEmitEntry(x, c)
    ensures var e := Entry(rt, x, c);
      && Get(e, "schema_version") == Int(1) && Get(e, "asset_name") == Str(ASSET_NAME)
      && Get(e, "asset_sha256") == Str(rt.sha(x.bytes))
  {
  }

  lemma EntryLinksRead(rt: Runtime, x: Inputs, c: Dict)
    requires CanEmitEntry(x, c)
    ensures var e := Entry(rt, x, c);
      && Get(e, "receipt_sha256") == Get(c, "receipt_sha256")
      && Get(e, "relay") == (if RelayReference(x) != Null then Get(c, "relay") else Null)
  {
  }

  lemma CompilerPresent(rt: Runtime, c: Dict)
    requires ValidCapsule(rt, c)
    ensures "compiler" in c && Section(c, "compiler").Obj?
  {
    hide ValidProof, CapsuleDigest;
  }

  lemma EnvelopeReads(a: Json, b: Json)
    ensures var e: Dict := map["release" := a, "offline_judge_capsule" := b];
      Section(e, "release") == a && Section(e, "offline_judge_capsule") == b
  {
  }

  /** What the relay entry needs to be read back. */
  predicate RelayReadable(x: Inputs, c: Dict) {
    RelayReference(x) == Null || Get(c, "relay") == Null ||
    (Get(c, "relay").Obj? && Get(Get(c, "relay").members, "failed_epoch_promoted_to_pass") == Bool(false))
  }

  lemma BoundIsReadable(rt: Runtime, x: Inputs)
    requires x.judgeSchema >= 16 && CapsuleBound(rt, x)
    ensures x.capsule.Some? && NamesRelease(x.capsule.value, x.commit, x.tag) && RelayReadable(x, x.capsule.value)
  {
    hide PyEq, RStrip;
  }

  lemma EntryAccepted(rt: Runtime, x: Inputs, c: Dict)
    requires CanEmitEntry(x, c)
    ensures ReferenceAccepted(rt, Obj(Entry(rt, x, c)), c, x.bytes) <==> RelayReadable(x, c)
  {
    hide Entry, CanEmitEntry, RelayReference;
    EntryReads(rt, x, c);
    EntryLinksRead(rt, x, c);
    PyEqReflexive(rt, Get(c, "relay"));
    PyEqReflexive(rt, Get(c, "receipt_sha256"));
  }

  lemma ReleaseEntryAccepted(rt: Runtime, x: Inputs, c: Dict)
    requires Section(c, "compiler").Obj?
    ensures ReleaseAccepted(rt, ReleaseEntry(x), Section(c, "compiler")) <==> NamesRelease(c, x.commit, x.tag)
  {
    hide Section;
  }

  /** Producer and consumer: an emitted envelope is accepted with the same capsule and bytes exactly when
      the capsule names this release and its relay is readable. From judge schema 16 on the producer's
      gate has checked both, so every emitted envelope is accepted, with or without a relay. */
  lemma EmittedIsAccepted(rt: Runtime, x: Inputs, envelope: Dict)
    requires Emit(rt, x) == Some(envelope) && x.capsule.Some?
    ensures BindingAccepted(rt, x.capsule.value, x.bytes, envelope)
        <==> NamesRelease(x.capsule.value, x.commit, x.tag) && RelayReadable(x, x.capsule.value)
    ensures x.judgeSchema >= 16 ==> BindingAccepted(rt, x.capsule.value, x.bytes, envelope)
  {
    hide ValidCapsule, Entry, CanEmitEntry, CapsuleBound, ReferenceAccepted, ReleaseAccepted, NamesRelease,
      RelayReadable, ReleaseEntry;
    var c := x.capsule.value;
    CompilerPresent(rt, c);
    EnvelopeReads(ReleaseEntry(x), Obj(Entry(rt, x, c)));
    EntryAccepted(rt, x, c);
    ReleaseEntryAccepted(rt, x, c);
    if x.judgeSchema >= 16 { BoundIsReadable(rt, x); }
  }

  /** Below schema 16 the gate is off: a capsule of another release is still emitted, and refused. */
  lemma OldSchemaMayDisagree(rt: Runtime, x: Inputs, c: Dict)
    requires x.judgeSchema < 16 && x.capsule == Some(c) && ValidCapsule(rt, c) && CanEmitEntry(x, c)
    requires !NamesRelease(c, x.commit, x.tag)
    ensures Emit(rt, x).Some? && !BindingAccepted(rt, c, x.bytes, Emit(rt, x).value)
  {
    hide ValidCapsule, Entry, CanEmitEntry, BindingAccepted;
    EmittedIsAccepted(rt, x, Emit(rt, x).value);
  }
}
