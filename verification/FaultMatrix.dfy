/** run_matrix: crash boundaries exercised against one disposable draft of a provider that can fail. */
module FaultMatrix {
  import opened Json

  // ---- the provider

  datatype Release = Release(id: int, tag: string, target: string, draft: bool)

  datatype Asset = Asset(name: string, digest: string)

  /** An HTTP error, which the script sees as a ProviderError, or any other failure of a request. */
  datatype Outage = Http(status: int) | Network

  /** What goes wrong with a call: nothing, an answer from before the last change, a failure before the
      effect, a failure after it. */
  datatype Fault = Works | Stale | Lost(outage: Outage) | Unacknowledged(outage: Outage)

  predicate Answers(fault: Fault) { fault.Works? || fault.Stale? }

  datatype Operation = Creating | Listing | Uploading | Deleting | Checking

  /** What ends a call, or the run: an outage, or a RuntimeError of the script itself. */
  datatype Error = Outside(outage: Outage) | Unexpected

  datatype Result<T> = Ok(value: T) | Failed(error: Error)

  predicate HasId(rs: seq<Release>, id: int) { exists i :: 0 <= i < |rs| && rs[i].id == id }

  function Without(rs: seq<Release>, id: int): seq<Release> {
    if rs == [] then []
    else (if rs[0].id == id then [] else [rs[0]]) + Without(rs[1..], id)
  }

  lemma {:induction false} WithoutAbsent(rs: seq<Release>, id: int)
    requires !HasId(rs, id)
    ensures Without(rs, id) == rs
  {
    if rs != [] {
      assert forall i :: 0 <= i < |rs[1..]| ==> rs[1..][i] == rs[i + 1];
      WithoutAbsent(rs[1..], id);
    }
  }

  predicate HasName(assets: seq<Asset>, name: string) { exists i :: 0 <= i < |assets| && assets[i].name == name }

  class Provider {
    const plan: (Operation, nat) -> Fault  // the fault of each call, by its number
    const digestOf: string -> string       // the digest the provider reports for an upload
    const tags: set<string>
    var releases: seq<Release>             // newest first
    var shown: seq<Release>                // before the last change
    var assets: map<int, seq<Asset>>
    var shownAssets: map<int, seq<Asset>>
    var nextId: int
    var calls: nat
    var faults: nat                        // calls that failed by plan

    constructor (plan: (Operation, nat) -> Fault, digestOf: string -> string, tags: set<string>)
      ensures Valid() && releases == [] && faults == 0
      ensures this.plan == plan && this.digestOf == digestOf && this.tags == tags
    {
      this.plan, this.digestOf, this.tags := plan, digestOf, tags;
      releases, shown, assets, shownAssets := [], [], map[], map[];
      nextId, calls, faults := 1, 0, 0;
    }

    ghost predicate Valid()
      reads this
    {
      forall i :: 0 <= i < |releases| ==> releases[i].id < nextId
    }

    /** Counts the call and says what is wrong with it. */
    method Begin(operation: Operation) returns (fault: Fault)
      modifies this`calls, this`faults
      ensures fault == plan(operation, old(calls)) && calls == old(calls) + 1
      ensures faults == old(faults) + if fault.Lost? || fault.Unacknowledged? then 1 else 0
    {
      fault := plan(operation, calls);
      calls := calls + 1;
      if fault.Lost? || fault.Unacknowledged? { faults := faults + 1; }
    }

    method CreateDraft(tag: string, target: string) returns (r: Result<int>)
      requires Valid()
      modifies this
      ensures Valid() && faults >= old(faults) && (r.Failed? ==> r.error.Outside? && faults > old(faults))
      ensures releases == old(releases) || releases == [Release(old(nextId), tag, target, true)] + old(releases)
      ensures r.Ok? <==> Answers(plan(Creating, old(calls)))
      ensures r.Ok? ==> r.value == old(nextId) && assets == old(assets)[old(nextId) := []] && shown == old(releases)
      ensures calls == old(calls) + 1
      ensures plan(Creating, old(calls)).Lost? <==> releases == old(releases)
    {
      var fault := Begin(Creating);
      if fault.Lost? {
        return Failed(Outside(fault.outage));
      }
      shown, shownAssets := releases, assets;
      releases := [Release(nextId, tag, target, true)] + releases;
      assets := assets[nextId := []];
      nextId := nextId + 1;
      r := if fault.Unacknowledged? then Failed(Outside(fault.outage)) else Ok(nextId - 1);
    }

    method Releases() returns (r: Result<seq<Release>>)
      modifies this`calls, this`faults
      ensures faults >= old(faults) && (r.Failed? ==> r.error.Outside? && faults > old(faults))
      ensures calls == old(calls) + 1
      ensures r.Ok? ==> r.value == releases || r.value == shown
      ensures plan(Listing, old(calls)).Works? ==> r == Ok(releases)
      ensures plan(Listing, old(calls)).Stale? ==> r == Ok(shown)
    {
      var fault := Begin(Listing);
      if fault.Lost? || fault.Unacknowledged? {
        return Failed(Outside(fault.outage));
      }
      r := Ok(if fault.Stale? then shown else releases);
    }

    method Assets(id: int) returns (r: Result<seq<Asset>>)
      modifies this`calls, this`faults
      ensures faults >= old(faults) && (r.Failed? ==> r.error.Outside?)
      ensures r.Failed? && id in assets ==> faults > old(faults) || id !in shownAssets
      ensures plan(Listing, old(calls)).Works? && id in assets ==> r == Ok(assets[id])
      ensures plan(Listing, old(calls)).Stale? && id in shownAssets ==> r == Ok(shownAssets[id])
      ensures r.Ok? ==> Answers(plan(Listing, old(calls)))
      ensures r.Ok? ==> (id in assets && r.value == assets[id]) || (id in shownAssets && r.value == shownAssets[id])
      ensures calls == old(calls) + 1
    {
      var fault := Begin(Listing);
      if fault.Lost? || fault.Unacknowledged? {
        return Failed(Outside(fault.outage));
      }
      var table := if fault.Stale? then shownAssets else assets;
      r := if id in table then Ok(table[id]) else Failed(Outside(Http(404)));
    }

    ghost predicate Takes(id: int, name: string)
      reads this
    {
      HasId(releases, id) && id in assets && !HasName(assets[id], name)
    }

    /** An upload to a draft that has the name already is answered with 422. */
    method Upload(id: int, name: string, body: string) returns (r: Result<()>)
      modifies this`calls, this`faults, this`assets, this`shownAssets
      ensures calls == old(calls) + 1
      ensures faults >= old(faults) && (r.Failed? ==> r.error.Outside?)
      ensures !old(Takes(id, name)) && HasId(releases, id) && id in assets ==>
                r == Failed(Outside(match plan(Uploading, old(calls))
                                    case Lost(outage) => outage
                                    case Unacknowledged(outage) => outage
                                    case _ => Http(422)))
      ensures r.Ok? ==> old(Takes(id, name)) && shownAssets == old(assets)
      ensures r.Ok? ==> assets == old(assets[id := assets[id] + [Asset(name, digestOf(body))]])
      ensures !old(Takes(id, name)) ==> assets == old(assets) && shownAssets == old(shownAssets)
      ensures plan(Uploading, old(calls)).Works? && old(Takes(id, name)) ==> r.Ok?
      ensures r.Failed? && (old(Takes(id, name)) || r.error.outage.Network?) ==> faults > old(faults)
    {
      var fault := Begin(Uploading);
      if fault.Lost? {
        return Failed(Outside(fault.outage));
      }
      var exists_ := id in assets && exists i :: 0 <= i < |releases| && releases[i].id == id;
      var taken := id in assets && exists i :: 0 <= i < |assets[id]| && assets[id][i].name == name;
      if exists_ && !taken {
        shownAssets := assets;
        assets := assets[id := assets[id] + [Asset(name, digestOf(body))]];
      }
      r := if fault.Unacknowledged? then Failed(Outside(fault.outage))
           else if exists_ && !taken then Ok(())
           else Failed(Outside(Http(if exists_ then 422 else 404)));
    }

    method Delete(id: int) returns (r: Result<()>)
      requires Valid()
      modifies this
      ensures Valid() && faults >= old(faults) && (r.Failed? ==> r.error.Outside?)
      ensures var lost := plan(Deleting, old(calls)).Lost?;
        && (lost ==> r.Failed? && releases == old(releases) && faults > old(faults))
        && (!lost ==> releases == Without(old(releases), id))
      ensures r.Failed? && HasId(old(releases), id) ==> faults > old(faults)
      ensures plan(Deleting, old(calls)).Works? && HasId(old(releases), id) ==> r.Ok?
      ensures calls == old(calls) + 1
    {
      var fault := Begin(Deleting);
      if fault.Lost? {
        return Failed(Outside(fault.outage));
      }
      var found := exists i :: 0 <= i < |releases| && releases[i].id == id;
      shown, shownAssets := releases, assets;
      WithoutKeeps(releases, id);
      releases := Without(releases, id);
      assets := assets - {id};
      r := if fault.Unacknowledged? then Failed(Outside(fault.outage))
           else if found then Ok(()) else Failed(Outside(Http(404)));
    }

    /** A 404 means that there is no such tag, whatever brought it about. */
    method TagRefExists(tag: string) returns (r: Result<bool>)
      modifies this`calls, this`faults
      ensures faults >= old(faults) && (r.Failed? ==> r.error.Outside? && faults > old(faults))
      ensures r.Ok? ==> (r.value <==> tag in tags) || faults > old(faults)
      ensures plan(Checking, old(calls)).Works? ==> r == Ok(tag in tags)
      ensures calls == old(calls) + 1
    {
      var fault := Begin(Checking);
      if fault.Lost? || fault.Unacknowledged? {
        return if fault.outage == Http(404) then Ok(false) else Failed(Outside(fault.outage));
      }
      r := Ok(tag in tags);
    }
  }

  lemma {:induction false} WithoutKeeps(rs: seq<Release>, id: int)
    ensures forall i :: 0 <= i < |Without(rs, id)| ==> Without(rs, id)[i] in rs
  {
    if rs != [] { WithoutKeeps(rs[1..], id); }
  }

  // ---- _retry

  /** What an observation looks for. */
  datatype Goal = FindDraft(tag: string, target: string) | FindAsset(id: int, name: string) | SeeAbsent(id: int)

  datatype Seen = SeenDraft(release: Release) | SeenAsset(asset: Asset) | SeenAbsent

  predicate Meets(goal: Goal, seen: Seen) {
    match goal
    case FindDraft(tag, target) =>
      seen.SeenDraft? && seen.release.draft && seen.release.tag == tag && seen.release.target == target
    case FindAsset(_, name) => seen.SeenAsset? && seen.asset.name == name
    case SeeAbsent(_) => seen.SeenAbsent?
  }

  method FirstDraft(rs: seq<Release>, tag: string, target: string) returns (seen: Option<Seen>)
    ensures seen.Some? ==> Meets(FindDraft(tag, target), seen.value) && seen.value.release in rs
    ensures seen.None? ==> forall r :: r in rs ==> !(r.tag == tag && r.target == target && r.draft)
    ensures rs != [] && Meets(FindDraft(tag, target), SeenDraft(rs[0])) ==> seen == Some(SeenDraft(rs[0]))
  {
    for i := 0 to |rs|
      invariant forall j :: 0 <= j < i ==> !(rs[j].tag == tag && rs[j].target == target && rs[j].draft)
      invariant i > 0 && rs != [] ==> !Meets(FindDraft(tag, target), SeenDraft(rs[0]))
    {
      if rs[i].tag == tag && rs[i].target == target && rs[i].draft {
        return Some(SeenDraft(rs[i]));
      }
    }
    seen := None;
  }

  method FirstAsset(assets: seq<Asset>, id: int, name: string) returns (seen: Option<Seen>)
    ensures seen.Some? ==> Meets(FindAsset(id, name), seen.value) && seen.value.asset in assets
    ensures seen.None? ==> !HasName(assets, name)
  {
    for i := 0 to |assets|
      invariant forall j :: 0 <= j < i ==> assets[j].name != name
    {
      if assets[i].name == name {
        return Some(SeenAsset(assets[i]));
      }
    }
    seen := None;
  }

  method Observe(p: Provider, goal: Goal) returns (r: Result<Option<Seen>>)
    modifies p`calls, p`faults
    ensures p.calls == old(p.calls) + 1 && p.faults >= old(p.faults)
    ensures r.Ok? && r.value.Some? ==> Meets(goal, r.value.value) && Listed(p, goal, r.value.value)
    ensures p.plan(Listing, old(p.calls)).Stale? && Outdated(p, goal) ==>
              r.Ok? && r.value.Some? && r.value.value.release in p.shown
    ensures r.Failed? ==> r.error.Outside? && (p.faults > old(p.faults) || !Visible(p, goal))
    ensures p.plan(Listing, old(p.calls)).Works? && Evident(p, goal) ==>
              r.Ok? && r.value.Some? && Shows(p, goal, r.value.value)
  {
    match goal
    case FindDraft(tag, target) =>
      var rs := p.Releases();
      if rs.Failed? { return Failed(rs.error); }
      var seen := FirstDraft(rs.value, tag, target);
      r := Ok(seen);
    case FindAsset(id, name) =>
      var found := p.Assets(id);
      if found.Failed? { return Failed(found.error); }
      var seen := FirstAsset(found.value, id, name);
      r := Ok(seen);
    case SeeAbsent(id) =>
      var rs := p.Releases();
      if rs.Failed? { return Failed(rs.error); }
      r := Ok(if exists i :: 0 <= i < |rs.value| && rs.value[i].id == id then None else Some(SeenAbsent));
  }

  /** What was seen is there, or was before the last change. */
  ghost predicate Listed(p: Provider, goal: Goal, seen: Seen)
    reads p
  {
    match goal
    case FindDraft(_, _) => seen.SeenDraft? && (seen.release in p.releases || seen.release in p.shown)
    case FindAsset(id, _) =>
      && seen.SeenAsset?
      && ((id in p.assets && seen.asset in p.assets[id]) || (id in p.shownAssets && seen.asset in p.shownAssets[id]))
    case SeeAbsent(_) => true
  }

  /** A stale listing already holds a draft of the tag and target. */
  ghost predicate Outdated(p: Provider, goal: Goal)
    reads p
  {
    goal.FindDraft? && exists r :: r in p.shown && r.tag == goal.tag && r.target == goal.target && r.draft
  }

  /** Assets can be listed only where the draft is known, even to a stale answer. */
  ghost predicate Visible(p: Provider, goal: Goal)
    reads p
  {
    goal.FindAsset? ==> goal.id in p.assets && goal.id in p.shownAssets
  }

  /** The provider's present state meets the goal, and shows it first. */
  ghost predicate Evident(p: Provider, goal: Goal)
    reads p
  {
    match goal
    case FindDraft(_, _) => p.releases != [] && Meets(goal, SeenDraft(p.releases[0]))
    case FindAsset(id, name) => id in p.assets && HasName(p.assets[id], name)
    case SeeAbsent(id) => !HasId(p.releases, id)
  }

  ghost predicate Shows(p: Provider, goal: Goal, seen: Seen)
    reads p
  {
    match goal
    case FindDraft(_, _) => p.releases != [] && seen == SeenDraft(p.releases[0])
    case FindAsset(id, name) =>
      id in p.assets && seen.SeenAsset? && seen.asset in p.assets[id] && seen.asset.name == name
    case SeeAbsent(_) => true
  }

  ghost predicate NothingFails(p: Provider) { forall op, n :: p.plan(op, n).Works? }

  const ATTEMPTS: nat := 12

  /** _retry: the first answer that meets the goal, an outage, or the script's own error after exactly
      twelve answers that did not. */
  method Retry(p: Provider, goal: Goal) returns (r: Result<Seen>)
    modifies p`calls, p`faults
    ensures r.Ok? ==> Meets(goal, r.value) && Listed(p, goal, r.value)
    ensures p.faults >= old(p.faults) && p.calls <= old(p.calls) + 12
    ensures r.Failed? && r.error == Unexpected ==> p.calls == old(p.calls) + 12
    ensures p.plan(Listing, old(p.calls)).Stale? && Outdated(p, goal) ==> r.Ok? && r.value.release in p.shown
    ensures r.Failed? && r.error.Outside? && Visible(p, goal) ==> p.faults > old(p.faults)
    ensures NothingFails(p) && Evident(p, goal) ==>
              r.Ok? && Shows(p, goal, r.value) && p.calls == old(p.calls) + 1
  {
    hide Meets, HasName, HasId, Listed;
    for attempt := 0 to ATTEMPTS
      invariant p.calls == old(p.calls) + attempt && p.faults >= old(p.faults)
      invariant NothingFails(p) && Evident(p, goal) ==> attempt == 0
      invariant p.plan(Listing, old(p.calls)).Stale? && Outdated(p, goal) ==> attempt == 0
    {
      var last := Observe(p, goal);
      if last.Failed? {
        return Failed(last.error);
      }
      if last.value.Some? {
        return Ok(last.value.value);
      }
    }
    r := Failed(Unexpected);
  }

  // ---- run_matrix

  datatype Scenario = Scenario(crashPoint: string, recovered: bool, assetCount: Option<nat>)

  datatype Gate = Gate(pass: bool, allRecovered: bool, duplicateAssetsZero: bool, draftAndTagRemoved: bool)

  const DUPLICATE := "DUPLICATE_ASSET_UPLOAD"
  const PAYLOAD := "synthetic-payload.txt"
  const RECEIPT := "sandbox-reconciliation-receipt.json"

  /** The five crash points, all recovered, in their order. */
  function AllScenarios(): seq<Scenario> {
    [Scenario("AFTER_DRAFT_CREATE_BEFORE_ACK", true, None), Scenario("AFTER_ASSET_UPLOAD_BEFORE_ACK", true, None),
     Scenario(DUPLICATE, true, Some(1)), Scenario("AFTER_RECEIPT_UPLOAD_BEFORE_ACK", true, None),
     Scenario("AFTER_DELETE_BEFORE_ACK", true, None)]
  }

  predicate HonestDigests(p: Provider, sha: string -> string, payload: string, receiptBody: string) {
    p.digestOf(payload) == sha(payload) && p.digestOf(receiptBody) == sha(receiptBody)
  }

  /** An upload whose answer is lost: the asset is found again by name and compared by digest. */
  method UploadAndRecover(p: Provider, id: int, name: string, sha: string -> string, body: string)
    returns (failure: Option<Error>)
    requires HasId(p.releases, id) && id in p.assets && !HasName(p.assets[id], name)
    modifies p`calls, p`faults, p`assets, p`shownAssets
    ensures p.faults >= old(p.faults)
    ensures failure.None? ==> p.assets == old(p.assets)[id := old(p.assets)[id] + [Asset(name, p.digestOf(body))]]
    ensures failure.None? ==> id in p.shownAssets && p.digestOf(body) == sha(body)
    ensures failure.Some? && failure.value.Outside? ==> p.faults > old(p.faults)
    ensures NothingFails(p) && p.digestOf(body) == sha(body) ==> failure.None? && p.calls == old(p.calls) + 2
  {
    var uploaded := p.Upload(id, name, body);
    if uploaded.Failed? { return Some(uploaded.error); }
    ghost var before := old(p.assets)[id];
    assert p.assets[id][|before|].name == name;
    var recovered := Retry(p, FindAsset(id, name));
    if recovered.Ok? { NewAsset(before, name, p.digestOf(body), recovered.value.asset); }
    if recovered.Failed? { return Some(recovered.error); }
    failure := if recovered.value.asset.digest != sha(body) then Some(Unexpected) else None;
  }

  lemma NewAsset(before: seq<Asset>, name: string, digest: string, a: Asset)
    requires !HasName(before, name)
    ensures a.name == name && (a in before || a in before + [Asset(name, digest)]) ==> a.digest == digest
  {
    if a in before {
      var i :| 0 <= i < |before| && before[i] == a;
    }
  }

  /** The provider answers, or an error is reported, with 422. */
  predicate Refuses(fault: Fault) { Answers(fault) || fault.outage == Http(422) }

  predicate NamedOnce(assets: seq<Asset>, name: string) { |set i | 0 <= i < |assets| && assets[i].name == name| == 1 }

  /** A second upload of the name must be answered with 422 and leave exactly one asset of it. */
  method UploadAgain(p: Provider, id: int, name: string, body: string) returns (failure: Option<Error>)
    requires HasId(p.releases, id) && id in p.assets && id in p.shownAssets
    requires |p.assets[id]| == 1 && p.assets[id][0].name == name
    modifies p`calls, p`faults, p`assets, p`shownAssets
    ensures p.faults >= old(p.faults) && p.assets == old(p.assets)
    ensures failure.Some? && failure.value.Outside? ==> p.faults > old(p.faults)
    ensures failure.None? <==>
              && Refuses(p.plan(Uploading, old(p.calls)))
              && var listing := p.plan(Listing, old(p.calls) + 1);
              && (listing.Works? || (listing.Stale? && NamedOnce(old(p.shownAssets)[id], name)))
    ensures failure.None? ==> p.calls == old(p.calls) + 2
  {
    var again := p.Upload(id, name, body);
    if again.Failed? && again.error.outage.Network? { return Some(again.error); }
    if again.Ok? || again.error.outage.status != 422 { return Some(Unexpected); }
    var listed := p.Assets(id);
    if listed.Failed? { return Some(listed.error); }
    var matching := CountNamed(listed.value, name);
    OneNamed(p.assets[id], name);
    failure := if matching != 1 then Some(Unexpected) else None;
  }

  lemma OneNamed(assets: seq<Asset>, name: string)
    requires |assets| == 1 && assets[0].name == name
    ensures NamedOnce(assets, name)
  {
    assert (set i | 0 <= i < |assets| && assets[i].name == name) == {0};
  }

  /** The three crash points of the draft's uploads. */
  method ExerciseUploads(p: Provider, id: int, sha: string -> string, payload: string, receiptBody: string)
    returns (failure: Option<Error>, scenarios: seq<Scenario>)
    requires HasId(p.releases, id) && id in p.assets && p.assets[id] == []
    modifies p`calls, p`faults, p`assets, p`shownAssets
    ensures p.faults >= old(p.faults)
    ensures failure.None? ==> scenarios == AllScenarios()[1..4] && HonestDigests(p, sha, payload, receiptBody)
    ensures failure.Some? && failure.value.Outside? ==> p.faults > old(p.faults)
    ensures NothingFails(p) && HonestDigests(p, sha, payload, receiptBody) ==>
              failure.None? && p.calls == old(p.calls) + 6
  {
    hide HasId;
    scenarios := [];
    failure := UploadAndRecover(p, id, PAYLOAD, sha, payload);
    if failure.Some? { return; }
    scenarios := scenarios + [Scenario("AFTER_ASSET_UPLOAD_BEFORE_ACK", true, None)];
    failure := UploadAgain(p, id, PAYLOAD, payload);
    if failure.Some? { return; }
    scenarios := scenarios + [Scenario(DUPLICATE, true, Some(1))];
    assert |PAYLOAD| != |RECEIPT|;
    failure := UploadAndRecover(p, id, RECEIPT, sha, receiptBody);
    if failure.Some? { return; }
    scenarios := scenarios + [Scenario("AFTER_RECEIPT_UPLOAD_BEFORE_ACK", true, None)];
  }

  method CountNamed(assets: seq<Asset>, name: string) returns (n: nat)
    ensures n == |set i | 0 <= i < |assets| && assets[i].name == name|
  {
    n := 0;
    ghost var found: set<int> := {};
    for i := 0 to |assets|
      invariant found == (set j | 0 <= j < i && assets[j].name == name) && n == |found|
    {
      if assets[i].name == name {
        n := n + 1;
        found := found + {i};
      }
    }
  }

  /** The listing at this call is stale, and holds an older draft of the same tag and target. */
  ghost predicate MisleadsAt(p: Provider, n: nat, tag: string, target: string, before: seq<Release>) {
    p.plan(Listing, n).Stale? && exists r :: r in before && r.tag == tag && r.target == target && r.draft
  }

  lemma NotListed(rs: seq<Release>, r: Release, id: int)
    requires !HasId(rs, id) && r in rs
    ensures r.id != id
  {
  }

  /** The draft is found again, then exercised. */
  method ExerciseDraft(
    p: Provider, id: int, tag: string, target: string, sha: string -> string, payload: string, receiptBody: string)
    returns (failure: Option<Error>, scenarios: seq<Scenario>)
    requires HasId(p.releases, id) && id in p.assets && p.assets[id] == []
    requires p.releases != [] && p.releases[0] == Release(id, tag, target, true) && !HasId(p.shown, id)
    modifies p`calls, p`faults, p`assets, p`shownAssets
    ensures p.faults >= old(p.faults)
    ensures failure.None? ==> scenarios == AllScenarios()[..4] && HonestDigests(p, sha, payload, receiptBody)
    ensures failure.Some? && failure.value.Outside? ==> p.faults > old(p.faults)
    ensures old(MisleadsAt(p, p.calls, tag, target, p.shown)) ==> failure == Some(Unexpected)
    ensures NothingFails(p) && HonestDigests(p, sha, payload, receiptBody) ==>
              failure.None? && p.calls == old(p.calls) + 7
  {
    hide HasId;
    scenarios := [];
    var recovered := Retry(p, FindDraft(tag, target));
    if recovered.Ok? && recovered.value.release in p.shown { NotListed(p.shown, recovered.value.release, id); }
    if recovered.Failed? { return Some(recovered.error), scenarios; }
    if recovered.value.release.id != id { return Some(Unexpected), scenarios; }
    scenarios := scenarios + [Scenario("AFTER_DRAFT_CREATE_BEFORE_ACK", true, None)];
    var exercised: seq<Scenario>;
    failure, exercised := ExerciseUploads(p, id, sha, payload, receiptBody);
    scenarios := scenarios + exercised;
  }

  /** The try block: what it returns is what the finally block finds. */
  method TryScenarios(
    p: Provider, sha: string -> string, tag: string, target: string, payload: string, receiptBody: string)
    returns (failure: Option<Error>, releaseId: Option<int>, scenarios: seq<Scenario>, cleanupVerified: bool)
    requires p.Valid()
    modifies p
    ensures p.Valid() && p.faults >= old(p.faults) && !HasId(old(p.releases), old(p.nextId))
    ensures p.releases == old(p.releases)
         || p.releases == [Release(old(p.nextId), tag, target, true)] + old(p.releases)
    ensures Answers(p.plan(Creating, old(p.calls))) ==>
              releaseId == Some(old(p.nextId)) || (releaseId.None? && p.releases == old(p.releases))
    ensures !Answers(p.plan(Creating, old(p.calls))) ==>
              && releaseId.None? && failure.Some?
              && (p.releases == old(p.releases) <==> p.plan(Creating, old(p.calls)).Lost?)
    ensures failure.None? ==> releaseId.None? && cleanupVerified && scenarios == AllScenarios()
    ensures failure.None? ==> HonestDigests(p, sha, payload, receiptBody)
    ensures failure.None? && tag in p.tags ==> p.faults > old(p.faults)
    ensures failure.Some? && failure.value.Outside? ==> p.faults > old(p.faults)
    ensures old(MisleadsAt(p, p.calls + 1, tag, target, p.releases)) ==> failure.Some?
    ensures NothingFails(p) && HonestDigests(p, sha, payload, receiptBody) && tag !in p.tags ==>
              failure.None? && p.calls == old(p.calls) + 11
  {
    hide HasId, Without, Meets;
    releaseId, scenarios, cleanupVerified := None, [], false;
    ghost var start := p.releases;
    NewIdIsFresh(start, p.nextId);
    var created := p.CreateDraft(tag, target);
    if created.Failed? { return Some(created.error), None, [], false; }
    var id := created.value;
    releaseId := Some(id);
    DraftGoes(start, p.releases[0]);
    failure, scenarios := ExerciseDraft(p, id, tag, target, sha, payload, receiptBody);
    if failure.Some? { return failure, releaseId, scenarios, false; }

    var deleted := p.Delete(id);
    if deleted.Failed? { return Some(deleted.error), releaseId, scenarios, false; }
    var gone := Retry(p, SeeAbsent(id));
    if gone.Failed? { return Some(gone.error), releaseId, scenarios, false; }
    releaseId := None;
    var tagged := p.TagRefExists(tag);
    if tagged.Failed? { return Some(tagged.error), releaseId, scenarios, false; }
    if tagged.value { return Some(Unexpected), releaseId, scenarios, false; }
    cleanupVerified := true;
    scenarios := scenarios + [Scenario("AFTER_DELETE_BEFORE_ACK", true, None)];
    failure := None;
  }

  lemma NewIdIsFresh(rs: seq<Release>, id: int)
    requires forall i :: 0 <= i < |rs| ==> rs[i].id < id
    ensures !HasId(rs, id)
  {
  }

  /** Deleting the new draft restores exactly the releases from before. */
  lemma DraftGoes(start: seq<Release>, d: Release)
    requires !HasId(start, d.id)
    ensures Without([d] + start, d.id) == start == Without(start, d.id) && HasId([d] + start, d.id)
  {
    WithoutAbsent(start, d.id);
    assert ([d] + start)[1..] == start && ([d] + start)[0] == d;
  }

  datatype Report = Report(scenarios: seq<Scenario>, gate: Gate)

  /** run_matrix. A normal return is always a pass with the five scenarios recovered, the digests in
      agreement and the releases as they were; no older draft was mistaken for the new one. When deletes take
      effect, every other exit restores the releases too, except when the answer to the creation was lost:
      then the draft stays, since its id was never known. One outage that interrupts the scenarios never
      leaves a known draft behind. */
  method RunMatrix(
    p: Provider, sha: string -> string, tag: string, target: string, payload: string, receiptBody: string)
    returns (report: Result<Report>, ghost ended: Option<Error>)
    requires p.Valid()
    modifies p
    ensures report.Ok? <==> ended.None?
    ensures report.Ok? ==>
              report.value == Report(AllScenarios(), Gate(true, true, true, true)) && p.releases == old(p.releases)
    ensures NothingFails(p) && HonestDigests(p, sha, payload, receiptBody) && tag !in p.tags ==>
              report.Ok? && p.calls == old(p.calls) + 11
    ensures report.Ok? ==> HonestDigests(p, sha, payload, receiptBody)
    ensures old(MisleadsAt(p, p.calls + 1, tag, target, p.releases)) ==> report.Failed?
    ensures report.Ok? && tag in p.tags ==> p.faults > old(p.faults)
    ensures p.releases == old(p.releases)
         || p.releases == [Release(old(p.nextId), tag, target, true)] + old(p.releases)
    ensures (forall n :: !p.plan(Deleting, n).Lost?) ==>
              (p.releases == old(p.releases) <==> !p.plan(Creating, old(p.calls)).Unacknowledged?)
    ensures Answers(p.plan(Creating, old(p.calls))) && p.releases != old(p.releases) ==>
              report.Failed? && report.error.Outside? && p.faults > old(p.faults)
    ensures Answers(p.plan(Creating, old(p.calls))) && ended.Some? && ended.value.Outside? ==>
              p.faults <= old(p.faults) + 1 ==> p.releases == old(p.releases)
  {
    ghost var start, id := p.releases, p.nextId;
    var failure, releaseId, scenarios, cleanupVerified := TryScenarios(p, sha, tag, target, payload, receiptBody);
    ended := failure;
    if releaseId.Some? {
      DraftGoes(start, Release(id, tag, target, true));
      var deleted := p.Delete(releaseId.value);
      if deleted.Failed? { return Failed(deleted.error), ended; }
      var rs := p.Releases();
      if rs.Failed? { return Failed(rs.error), ended; }
      cleanupVerified := !exists i :: 0 <= i < |rs.value| && rs.value[i].id == releaseId.value;
    }
    if failure.Some? { return Failed(failure.value), ended; }
    var allRecovered := |scenarios| == 5 && forall i :: 0 <= i < |scenarios| ==> scenarios[i].recovered;
    var counted := exists i :: 0 <= i < |scenarios|
                     && scenarios[i].crashPoint == DUPLICATE && scenarios[i].assetCount == Some(1);
    assert AllScenarios()[2].crashPoint == DUPLICATE;
    report := Ok(Report(scenarios, Gate(cleanupVerified && allRecovered, allRecovered, counted, cleanupVerified)));
  }
}
