/** Runs of the release workflow: a durable receipt, a provider, and drivers that may crash. */
module ReleaseRuns {
  import opened Json
  import opened PythonValues
  import opened Coordinator
  import opened CoordinatorClosure
  import opened Replay
  import opened Evidence
  import opened Observations
  import opened Reconciliation

  // ---- provider

  /** The latest report of a Pages or browser run. */
  datatype Report = Absent | Reported(success: bool, tag: string, target: string)

  datatype Provider = Provider(
    author: nat, platform: nat, immutable: bool,
    expected: map<string, string>, observed: map<string, string>,
    pages: Report, browser: Report)

  function ReportJson(report: Report): Json {
    match report
    case Absent => Obj(map[])
    case Reported(success, tag, target) => Obj(map[
      "status" := Str(if success then "success" else "failure"),
      "release_tag" := Str(tag),
      "release_target" := Str(target)])
  }

  /** A fresh snapshot, as the workflow collects it before reconciling. */
  function Snapshot(x: Intent, p: Provider): Dict {
    map[
      "release_exists" := Bool(true),
      "release_target" := Str(x.source),
      "envelope_sha256" := Str(x.envelope),
      "author_attestation_count" := Int(p.author),
      "platform_attestation_count" := Int(p.platform),
      "immutable" := Bool(p.immutable),
      "expected_asset_digests" := AssetTable(p.expected),
      "observed_asset_digests" := AssetTable(p.observed),
      "pages" := ReportJson(p.pages),
      "browser" := ReportJson(p.browser)]
  }

  predicate Succeeded(x: Intent, report: Report) { report == Reported(true, x.tag, x.source) }

  /** What reconcile_receipt decides, on the provider itself: i counts the recorded transitions. */
  function Decide(i: nat, x: Intent, p: Provider): Plan {
    if p.author > 1 || p.platform > 1 then Ambiguous(AttestationCardinality)
    else match i
      case 0 => Next(if p.author == 0 then Act(SignAuthor) else Record(STATES[1]))
      case 1 =>
        if p.author != 1 then Ambiguous(AuthorDisappeared)
        else Next(if p.expected != map[] && p.expected == p.observed then Record(STATES[2])
                  else Act(UploadMissingAssets))
      case 2 =>
        if !p.immutable then Next(Act(PublishImmutable))
        else if p.author == 1 && p.platform == 1 then Next(Record(STATES[3]))
        else Ambiguous(ImmutableWithoutAttestations)
      case 3 => Next(if Succeeded(x, p.pages) then Record(STATES[4]) else Act(DispatchPages))
      case 4 => Next(if Succeeded(x, p.browser) then Record(STATES[5]) else Act(RunBrowserVerification))
      case _ => Next(Complete)
  }

  ghost predicate NamesSafe(rt: Runtime, p: Provider) {
    SafeNames(rt, p.expected) && SafeNames(rt, p.observed)
  }

  lemma AssetTablesEqual(rt: Runtime, a: map<string, string>, b: map<string, string>)
    ensures PyEq(rt, AssetTable(a), AssetTable(b)) <==> a == b
    ensures AssetTable(a).members == map[] <==> a == map[]
  {
    var m, n := AssetTable(a).members, AssetTable(b).members;
    if a == b { PyEqReflexive(rt, AssetTable(a)); }
    if PyEq(rt, AssetTable(a), AssetTable(b)) {
      forall k | k in a ensures k in b && a[k] == b[k] {
        assert k in m && k in n && PyEq(rt, m[k], n[k]);
      }
      assert a.Keys == b.Keys;
    }
    EmptyTable(a);
  }

  lemma EmptyTable(a: map<string, string>)
    ensures AssetTable(a).members == map[] <==> a == map[]
  {
    if a == map[] { assert AssetTable(a).members.Keys == {}; }
    if AssetTable(a).members == map[] { assert a.Keys == {}; }
  }

  lemma ReportReads(rt: Runtime, x: Intent, report: Report, r: Dict)
    requires IsAbout(r, x)
    ensures Delivered(rt, ReportJson(report), r) <==> Succeeded(x, report)
  {
    assert "success" != "failure";
  }

  lemma ReportIsSafe(rt: Runtime, report: Report)
    requires FieldsSafe(rt)
    ensures Safe(rt, ReportJson(report))
  {
    if report.Reported? { FlatIsSafe(rt, ReportJson(report).members, FIELDS); }
  }

  lemma SnapshotIsSafe(rt: Runtime, x: Intent, p: Provider)
    requires FieldsSafe(rt) && NamesSafe(rt, p)
    ensures Safe(rt, Obj(Snapshot(x, p)))
  {
    hide ReportJson, FieldsSafe, Snapshot, Safe, IsScalar, AssetTable;
    ReportIsSafe(rt, p.pages);
    ReportIsSafe(rt, p.browser);
    TableIsSafe(rt, p.expected);
    TableIsSafe(rt, p.observed);
    ScalarIsSafe(rt);
    SnapshotValues(x, p);
    SnapshotFields(x, p);
    assert forall k :: k in FIELDS ==> !rt.sensitive(k) by { SafeFields(rt); }
    FlatIsSafe(rt, Snapshot(x, p), FIELDS);
  }

  lemma ScalarIsSafe(rt: Runtime)
    ensures forall j :: IsScalar(j) ==> Safe(rt, j)
  {
  }

  lemma SnapshotValues(x: Intent, p: Provider)
    ensures var s := Snapshot(x, p);
      forall k :: k in s ==>
        || IsScalar(s[k]) || s[k] == AssetTable(p.expected) || s[k] == AssetTable(p.observed)
        || s[k] == ReportJson(p.pages) || s[k] == ReportJson(p.browser)
  {
    hide ReportJson, AssetTable;
  }

  lemma SafeFields(rt: Runtime)
    requires FieldsSafe(rt)
    ensures forall k :: k in FIELDS ==> !rt.sensitive(k)
  {
  }

  lemma SnapshotFields(x: Intent, p: Provider)
    ensures Snapshot(x, p).Keys <= FIELDS
  {
    hide ReportJson, AssetTable;
  }

  lemma SnapshotReads(x: Intent, p: Provider)
    ensures var s := Snapshot(x, p);
      && Get(s, "release_exists") == Bool(true)
      && Get(s, "release_target") == Str(x.source) && Get(s, "envelope_sha256") == Str(x.envelope)
      && GetOr(s, "author_attestation_count", Int(0)) == Int(p.author)
      && GetOr(s, "platform_attestation_count", Int(0)) == Int(p.platform)
      && Get(s, "immutable") == Bool(p.immutable)
      && GetOr(s, "expected_asset_digests", Obj(map[])) == AssetTable(p.expected)
      && GetOr(s, "observed_asset_digests", Obj(map[])) == AssetTable(p.observed)
      && GetOr(s, "pages", Obj(map[])) == ReportJson(p.pages)
      && GetOr(s, "browser", Obj(map[])) == ReportJson(p.browser)
  {
    hide AssetTable, ReportJson;
  }

  lemma StateIndex(rt: Runtime, r: Dict)
    requires Verified(rt, r)
    ensures 1 <= |EventsOf(r)| <= 6 && Get(r, "state") == Str(STATES[|EventsOf(r)| - 1])
  {
    hide ValidIdentity, ValidEvent, ReceiptDigest;
  }

  /** On a fresh snapshot of an honest provider, reconcile_receipt decides by the table above. */
  lemma ReconcileDecides(rt: Runtime, x: Intent, r: Dict, p: Provider)
    requires Verified(rt, r) && IsAbout(r, x) && FieldsSafe(rt) && NamesSafe(rt, p)
    ensures Reconcile(rt, r, Snapshot(x, p)) == Decide(|EventsOf(r)| - 1, x, p)
  {
    hide Verified, Safe, Snapshot, FieldsSafe, NamesSafe, EventsOf, NextAction;
    SnapshotIsSafe(rt, x, p);
    SnapshotReads(x, p);
    StateIndex(rt, r);
    if p.author <= 1 && p.platform <= 1 { ActionDecided(rt, x, r, p); }
  }

  lemma ActionDecided(rt: Runtime, x: Intent, r: Dict, p: Provider)
    requires Verified(rt, r) && IsAbout(r, x) && p.author <= 1 && p.platform <= 1
    ensures NextAction(rt, r, Snapshot(x, p), p.author, p.platform) == Decide(|EventsOf(r)| - 1, x, p)
  {
    hide Verified, Snapshot, AssetTable, ReportJson, Delivered, EventsOf, Succeeded, IsAbout;
    SnapshotReads(x, p);
    StateIndex(rt, r);
    AssetTablesEqual(rt, p.expected, p.observed);
    ReportReads(rt, x, p.pages, r);
    ReportReads(rt, x, p.browser, r);
  }

  // ---- drivers

  datatype Sys = Sys(receipt: Dict, provider: Provider)

  /** One thing that happens to the release.
      Crash: a driver dies with nothing durable done, or with its new receipt unsaved.
      Perform: a driver observes afresh, reconciles, and carries out the advised effect; it may die at any
        point of an upload (done: the assets that got through) and a dispatched run may fail.
      Advise: a driver observes afresh, reconciles, and records the advised state.
      Stale: a driver carries out an effect it was advised earlier, without observing again.
      LateRecord: a driver advances the receipt it read earlier, without reconciling again, and saves it. */
  datatype Step =
    | Crash
    | Perform(done: set<string>, outcome: Report)
    | Advise(evidence: Dict, observedAt: string)
    | Stale(effect: Effect, stillDone: set<string>, staleOutcome: Report)
    | LateRecord(from: Dict, toState: string, lateEvidence: Dict, lateAt: string)

  /** The provider after an effect. Publishing makes the release immutable and brings the platform
      attestation with it. */
  function Affect(p: Provider, effect: Effect, done: set<string>, outcome: Report): Provider {
    match effect
    case SignAuthor => p.(author := p.author + 1)
    case UploadMissingAssets => p.(observed := p.observed + (map k | k in p.expected && k in done :: p.expected[k]))
    case PublishImmutable => p.(immutable := true, platform := p.platform + 1)
    case DispatchPages => p.(pages := outcome)
    case RunBrowserVerification => p.(browser := outcome)
  }

  function Take(rt: Runtime, x: Intent, s: Sys, step: Step): Sys {
    var plan := Reconcile(rt, s.receipt, Snapshot(x, s.provider));
    match step
    case Crash => s
    case Perform(done, outcome) =>
      if plan.Next? && plan.action.Act? then
        s.(provider := Affect(s.provider, plan.action.effect, done, outcome))
      else s
    case Advise(evidence, observedAt) =>
      if plan.Next? && plan.action.Record? then
        match Advance(rt, s.receipt, plan.action.state, evidence, observedAt)
        case None => s
        case Some(r) => s.(receipt := r)
      else s
    case Stale(effect, done, outcome) => s.(provider := Affect(s.provider, effect, done, outcome))
    case LateRecord(from, toState, evidence, observedAt) =>
      match Advance(rt, from, toState, evidence, observedAt)
      case None => s
      case Some(r) => s.(receipt := r)
  }

  function Drive(rt: Runtime, x: Intent, s: Sys, steps: seq<Step>): Sys
    decreases |steps|
  {
    if steps == [] then s else Drive(rt, x, Take(rt, x, s, steps[0]), steps[1..])
  }

  /** A step that starts by looking, or does nothing. */
  predicate IsFresh(step: Step) { step.Crash? || step.Perform? || step.Advise? }

  ghost predicate Fresh(steps: seq<Step>) { forall step :: step in steps ==> IsFresh(step) }

  /** Recorded transitions after the first. */
  function Stage(s: Sys): nat { if EventsOf(s.receipt) == [] then 0 else |EventsOf(s.receipt)| - 1 }

  /** What reconcile_receipt accepts of a provider after i recorded transitions. The listed assets may be
      any: foreign ones, missing ones, or with other digests. */
  ghost predicate ProviderFits(rt: Runtime, i: nat, p: Provider) {
    && p.author <= 1 && p.platform <= 1 && NamesSafe(rt, p)
    && (1 <= i <= 2 ==> p.author == 1)
    && (i <= 2 ==> p.platform == if p.immutable then 1 else 0)
  }

  /** What fresh drivers, crashing or not, keep true. */
  ghost predicate Inv(rt: Runtime, x: Intent, s: Sys) {
    && Verified(rt, s.receipt) && IsAbout(s.receipt, x)
    && ProviderFits(rt, Stage(s), s.provider)
  }

  lemma InvDecides(rt: Runtime, x: Intent, s: Sys)
    requires Inv(rt, x, s) && FieldsSafe(rt)
    ensures 0 <= Stage(s) <= 5
    ensures Reconcile(rt, s.receipt, Snapshot(x, s.provider)) == Decide(Stage(s), x, s.provider)
    ensures Decide(Stage(s), x, s.provider).Next?
  {
    hide Verified, Reconcile, FieldsSafe, IsAbout, NamesSafe, Snapshot, Succeeded;
    StateIndex(rt, s.receipt);
    ReconcileDecides(rt, x, s.receipt, s.provider);
  }

  /** An accepted advance moves the receipt one state on and keeps it about the same release. */
  lemma AdvanceMoves(rt: Runtime, x: Intent, r: Dict, toState: string, ev: Dict, observedAt: string, next: Dict)
    requires Advance(rt, r, toState, ev, observedAt) == Some(next) && IsAbout(r, x)
    ensures Verified(rt, next) && IsAbout(next, x) && |EventsOf(next)| == |EventsOf(r)| + 1
    ensures |EventsOf(r)| < |STATES| && toState == STATES[|EventsOf(r)|]
  {
    hide Verified, ValidEvidence, Advanced, IsAbout, Event;
    AdvancedFields(rt, r, toState, ev, observedAt);
    AdvancedAbout(rt, x, r, toState, ev, observedAt);
  }

  lemma AffectFits(rt: Runtime, x: Intent, i: nat, p: Provider, effect: Effect, done: set<string>, outcome: Report)
    requires ProviderFits(rt, i, p) && Decide(i, x, p) == Next(Act(effect))
    ensures ProviderFits(rt, i, Affect(p, effect, done, outcome))
  {
    hide Succeeded;
  }

  lemma TakeKeepsInv(rt: Runtime, x: Intent, s: Sys, step: Step)
    requires Inv(rt, x, s) && FieldsSafe(rt) && IsFresh(step)
    ensures Inv(rt, x, Take(rt, x, s, step))
  {
    hide Verified, Reconcile, FieldsSafe, IsAbout, Advance, NamesSafe, Snapshot, Succeeded, Affect;
    InvDecides(rt, x, s);
    var action := Decide(Stage(s), x, s.provider).action;
    if step.Perform? && action.Act? {
      AffectFits(rt, x, Stage(s), s.provider, action.effect, step.done, step.outcome);
    } else if step.Advise? && action.Record? {
      var next := Advance(rt, s.receipt, action.state, step.evidence, step.observedAt);
      if next.Some? {
        AdvanceMoves(rt, x, s.receipt, action.state, step.evidence, step.observedAt, next.value);
      }
    }
  }

  /** No step takes an attestation back. */
  lemma TakeGrows(rt: Runtime, x: Intent, s: Sys, step: Step)
    ensures var q := Take(rt, x, s, step).provider;
      q.author >= s.provider.author && q.platform >= s.provider.platform
  {
    hide Reconcile, Snapshot, Advance;
  }

  /** In every run of fresh drivers, crashes anywhere: at most one author signature and never AMBIGUOUS. A
      signature that exists stays, and the next driver adopts it instead of signing again. */
  lemma {:induction false} SignsOnce(rt: Runtime, x: Intent, s: Sys, steps: seq<Step>)
    requires Inv(rt, x, s) && FieldsSafe(rt) && Fresh(steps)
    ensures var t := Drive(rt, x, s, steps);
      && Inv(rt, x, t) && s.provider.author <= t.provider.author <= 1
      && Reconcile(rt, t.receipt, Snapshot(x, t.provider)).Next?
      && (Reconcile(rt, t.receipt, Snapshot(x, t.provider)) == Next(Act(SignAuthor))
          <==> Stage(t) == 0 && t.provider.author == 0)
      && (Stage(t) == 0 && t.provider.author == 1 ==>
            Reconcile(rt, t.receipt, Snapshot(x, t.provider)) == Next(Record(STATES[1])))
    decreases |steps|
  {
    hide Inv, Reconcile, FieldsSafe, Take, Snapshot;
    if steps == [] {
      InvDecides(rt, x, s);
      InvBounds(rt, x, s);
    } else {
      TakeKeepsInv(rt, x, s, steps[0]);
      TakeGrows(rt, x, s, steps[0]);
      SignsOnce(rt, x, Take(rt, x, s, steps[0]), steps[1..]);
    }
  }

  lemma InvBounds(rt: Runtime, x: Intent, s: Sys)
    requires Inv(rt, x, s)
    ensures s.provider.author <= 1 && s.provider.platform <= 1
  {
  }
}
