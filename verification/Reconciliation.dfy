/** reconcile_receipt: the one next action after a possible crash, or AMBIGUOUS. */
module Reconciliation {
  import opened Json
  import opened PythonValues
  import opened Coordinator

  datatype Effect = SignAuthor | UploadMissingAssets | PublishImmutable | DispatchPages | RunBrowserVerification

  datatype Action = Act(effect: Effect) | Record(state: string) | Complete

  datatype Conflict =
    | ReleaseDisappeared
    | TargetConflict
    | EnvelopeConflict
    | AttestationCardinality
    | AuthorDisappeared
    | ImmutableWithoutAttestations

  /** Refused stands for any error raised before a plan is made. */
  datatype Plan = Refused | Ambiguous(reason: Conflict) | Next(action: Action)

  predicate Delivered(rt: Runtime, report: Json, r: Dict) {
    && report.Obj?
    && Get(report.members, "status") == Str("success")
    && PyEq(rt, Get(report.members, "release_tag"), Get(r, "release_tag"))
    && PyEq(rt, Get(report.members, "release_target"), Get(r, "source_digest"))
  }

  function NextAction(rt: Runtime, r: Dict, snapshot: Dict, author: int, platform: int): Plan {
    var state := Get(r, "state");
    if state == Str(STATES[0]) then
      Next(if author == 0 then Act(SignAuthor) else Record(STATES[1]))
    else if state == Str(STATES[1]) then
      if author != 1 then Ambiguous(AuthorDisappeared)
      else
        var expected := GetOr(snapshot, "expected_asset_digests", Obj(map[]));
        var observed := GetOr(snapshot, "observed_asset_digests", Obj(map[]));
        Next(if expected.Obj? && expected.members != map[] && PyEq(rt, expected, observed)
             then Record(STATES[2]) else Act(UploadMissingAssets))
    else if state == Str(STATES[2]) then
      if Get(snapshot, "immutable") == Bool(true) then
        if author == 1 && platform == 1 then Next(Record(STATES[3])) else Ambiguous(ImmutableWithoutAttestations)
      else Next(Act(PublishImmutable))
    else if state == Str(STATES[3]) then
      Next(if Delivered(rt, GetOr(snapshot, "pages", Obj(map[])), r)
           then Record(STATES[4]) else Act(DispatchPages))
    else if state == Str(STATES[4]) then
      Next(if Delivered(rt, GetOr(snapshot, "browser", Obj(map[])), r)
           then Record(STATES[5]) else Act(RunBrowserVerification))
    else Next(Complete)
  }

  function Reconcile(rt: Runtime, r: Dict, snapshot: Dict): Plan {
    var author := PyInt(rt, GetOr(snapshot, "author_attestation_count", Int(0)));
    var platform := PyInt(rt, GetOr(snapshot, "platform_attestation_count", Int(0)));
    if !Verified(rt, r) || !Safe(rt, Obj(snapshot)) then Refused
    else if Get(snapshot, "release_exists") != Bool(true) then Ambiguous(ReleaseDisappeared)
    else if !PyEq(rt, Get(snapshot, "release_target"), Get(r, "source_digest")) then Ambiguous(TargetConflict)
    else if !PyEq(rt, Get(snapshot, "envelope_sha256"), Get(r, "envelope_sha256")) then Ambiguous(EnvelopeConflict)
    else if author.None? || platform.None? then Refused
    else if author.value > 1 || platform.value > 1 then Ambiguous(AttestationCardinality)
    else NextAction(rt, r, snapshot, author.value, platform.value)
  }

  /** Whatever the snapshot says: something is advised only for the release the receipt is about, recording only
      for the immediate successor state, and nothing when an attestation count exceeds one. */
  lemma RecordsSuccessorOnly(rt: Runtime, r: Dict, snapshot: Dict)
    requires Reconcile(rt, r, snapshot).Next?
    ensures var n := |EventsOf(r)|; var action := Reconcile(rt, r, snapshot).action;
      && (action.Record? ==> n < |STATES| && action.state == STATES[n])
      && (action == Complete <==> n == |STATES|)
    ensures Get(snapshot, "release_exists") == Bool(true)
    ensures PyEq(rt, Get(snapshot, "release_target"), Get(r, "source_digest"))
    ensures PyEq(rt, Get(snapshot, "envelope_sha256"), Get(r, "envelope_sha256"))
    ensures !IntAtLeast(rt, GetOr(snapshot, "author_attestation_count", Int(0)), 2)
    ensures !IntAtLeast(rt, GetOr(snapshot, "platform_attestation_count", Int(0)), 2)
  {
    hide ValidIdentity, ValidEvent, ReceiptDigest, Safe, PyEq, Delivered;
  }

  // ---- any snapshot at all

  /** The order in which conflicts are looked for. */
  const CONFLICTS: seq<Conflict> := [ReleaseDisappeared, TargetConflict, EnvelopeConflict, AttestationCardinality,
    AuthorDisappeared, ImmutableWithoutAttestations]

  function AuthorCount(snapshot: Dict): Json { GetOr(snapshot, "author_attestation_count", Int(0)) }

  function PlatformCount(snapshot: Dict): Json { GetOr(snapshot, "platform_attestation_count", Int(0)) }

  predicate CountsReadable(rt: Runtime, snapshot: Dict) {
    PyInt(rt, AuthorCount(snapshot)).Some? && PyInt(rt, PlatformCount(snapshot)).Some?
  }

  /** Each conflict on its own. */
  predicate Conflicts(rt: Runtime, r: Dict, snapshot: Dict, c: Conflict) {
    match c
    case ReleaseDisappeared => !("release_exists" in snapshot && snapshot["release_exists"] == Bool(true))
    case TargetConflict => !PyEq(rt, Get(snapshot, "release_target"), Get(r, "source_digest"))
    case EnvelopeConflict => !PyEq(rt, Get(snapshot, "envelope_sha256"), Get(r, "envelope_sha256"))
    case AttestationCardinality =>
      IntAtLeast(rt, AuthorCount(snapshot), 2) || IntAtLeast(rt, PlatformCount(snapshot), 2)
    case AuthorDisappeared => |EventsOf(r)| == 2 && !IntIs(rt, AuthorCount(snapshot), 1)
    case ImmutableWithoutAttestations =>
      && |EventsOf(r)| == 3 && Get(snapshot, "immutable") == Bool(true)
      && !(IntIs(rt, AuthorCount(snapshot), 1) && IntIs(rt, PlatformCount(snapshot), 1))
  }

  /** No conflict before the one at i. */
  predicate ClearBefore(rt: Runtime, r: Dict, snapshot: Dict, i: nat)
    requires i <= |CONFLICTS|
  {
    && (forall j :: 0 <= j < i ==> !Conflicts(rt, r, snapshot, CONFLICTS[j]))
    && (i >= 3 ==> CountsReadable(rt, snapshot))
  }

  /** What the release has for the next state to be recorded. */
  predicate Shown(rt: Runtime, r: Dict, snapshot: Dict) {
    match |EventsOf(r)|
    case 1 => !IntIs(rt, AuthorCount(snapshot), 0)
    case 2 =>
      var expected := Get(snapshot, "expected_asset_digests");
      && expected.Obj? && expected.members != map[]
      && "observed_asset_digests" in snapshot && PyEq(rt, expected, snapshot["observed_asset_digests"])
    case 3 => Get(snapshot, "immutable") == Bool(true)
    case 4 => Delivered(rt, Get(snapshot, "pages"), r)
    case 5 => Delivered(rt, Get(snapshot, "browser"), r)
    case _ => false
  }

  const EFFECTS: seq<Effect> :=
    [SignAuthor, UploadMissingAssets, PublishImmutable, DispatchPages, RunBrowserVerification]

  lemma ConflictsListed()
    ensures |CONFLICTS| == 6
    ensures CONFLICTS[0] == ReleaseDisappeared && CONFLICTS[1] == TargetConflict && CONFLICTS[2] == EnvelopeConflict
    ensures CONFLICTS[3] == AttestationCardinality && CONFLICTS[4] == AuthorDisappeared
    ensures CONFLICTS[5] == ImmutableWithoutAttestations
  {
  }

  lemma CurrentIndex(rt: Runtime, r: Dict)
    requires Verified(rt, r)
    ensures 1 <= |EventsOf(r)| <= 6 && Get(r, "state") == Str(STATES[|EventsOf(r)| - 1])
    ensures forall i :: 0 <= i < 6 ==> (Get(r, "state") == Str(STATES[i]) <==> i == |EventsOf(r)| - 1)
  {
    hide ValidIdentity, ValidEvent, ReceiptDigest;
  }

  lemma NextByIndex(rt: Runtime, r: Dict, snapshot: Dict, author: int, platform: int)
    requires Verified(rt, r)
    requires PyInt(rt, AuthorCount(snapshot)) == Some(author) && PyInt(rt, PlatformCount(snapshot)) == Some(platform)
    ensures NextAction(rt, r, snapshot, author, platform)
         == if Conflicts(rt, r, snapshot, AuthorDisappeared) then Ambiguous(AuthorDisappeared)
            else if Conflicts(rt, r, snapshot, ImmutableWithoutAttestations) then
              Ambiguous(ImmutableWithoutAttestations)
            else if |EventsOf(r)| == 6 then Next(Complete)
            else if Shown(rt, r, snapshot) then Next(Record(STATES[|EventsOf(r)|]))
            else Next(Act(EFFECTS[|EventsOf(r)| - 1]))
  {
    hide Verified, EventsOf, PyInt;
    CurrentIndex(rt, r);
  }

  /** For every snapshot: each conflict is the answer exactly when it holds and no earlier one does, and the
      counts can be read where they have been. */
  lemma FirstConflict(rt: Runtime, r: Dict, snapshot: Dict, i: nat)
    requires Verified(rt, r) && Safe(rt, Obj(snapshot)) && i < |CONFLICTS|
    ensures Reconcile(rt, r, snapshot) == Ambiguous(CONFLICTS[i])
        <==> Conflicts(rt, r, snapshot, CONFLICTS[i]) && ClearBefore(rt, r, snapshot, i)
  {
    hide Verified, Safe, PyEq, NextAction, EventsOf, PyInt, Shown;
    ConflictsListed();
    if CountsReadable(rt, snapshot) {
      NextByIndex(rt, r, snapshot, PyInt(rt, AuthorCount(snapshot)).value, PyInt(rt, PlatformCount(snapshot)).value);
    }
  }

  /** For every receipt and every snapshot: something is advised exactly when the receipt verifies, the
      snapshot names no secret, no conflict holds and the counts can be read; and then it is to record the
      next state where the release shows it, and otherwise the effect that is missing. */
  lemma AdvisedExactly(rt: Runtime, r: Dict, snapshot: Dict)
    ensures Reconcile(rt, r, snapshot).Next?
        <==> Verified(rt, r) && Safe(rt, Obj(snapshot)) && ClearBefore(rt, r, snapshot, |CONFLICTS|)
    ensures Reconcile(rt, r, snapshot).Next? ==>
              var n := |EventsOf(r)|;
              && 1 <= n <= 6
              && Reconcile(rt, r, snapshot).action
                   == if n == 6 then Complete
                      else if Shown(rt, r, snapshot) then Record(STATES[n]) else Act(EFFECTS[n - 1])
  {
    hide Verified, Safe, PyEq, NextAction, EventsOf, PyInt, Shown;
    ConflictsListed();
    if Verified(rt, r) && CountsReadable(rt, snapshot) {
      CurrentIndex(rt, r);
      NextByIndex(rt, r, snapshot, PyInt(rt, AuthorCount(snapshot)).value, PyInt(rt, PlatformCount(snapshot)).value);
    }
  }
}
