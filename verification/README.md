# Continuum release evidence: verified models

Dafny models of the parts of the repository that decide whether a release, a capsule or a piece of
evidence may be believed, with proofs about whole runs and not only about single calls.
`dafny verify dfyconfig.toml` checks everything.

## What is modelled

**The release transaction coordinator** (`scripts/release_transaction_coordinator.py`). A receipt is a
JSON dict, exactly as the script reads it: fields may be missing or of any type, and comparisons are
Python's (`==` under which `True`, `1` and `1.0` are equal, `str()`, `int()`).

| file | what it holds |
|---|---|
| `Decimal`, `Json` | integers as text; JSON values, with integers, floats (kept as lexemes) and booleans distinct |
| `CanonicalJson`, `InsertionOrder`, `KeyOrder` | the canonical printer and its reader; the serializer over dicts in insertion order; which text it writes, said without its sorting |
| `PythonValues` | untyped reads of JSON, and `Runtime`: the calls into code outside the repository |
| `Coordinator`, `CoordinatorMethods`, `CoordinatorClosure` | evidence checks, receipts, the transitions; the loops as they run; closure of the closing check |
| `TamperEvidence`, `ResealedReceipts`, `IdentityPinning`, `LooseTags` | what the digests of events and receipts pin down, and what they do not |
| `SafeEvidence`, `Observations` | what evidence may not contain, and what it must say, on typed observations |
| `Replay`, `Evidence`, `Completion` | rebuilding a receipt from its own record; evidence that passes in every state; runs through all six |
| `Reconciliation`, `ReleaseRuns`, `Convergence` | `reconcile_receipt`; receipt and provider under crashing drivers; ranking |
| `StaleDrivers`, `HonestDrivers` | drivers that act late; drivers whose evidence is what they saw |

A run is a list of steps: a crash with nothing durable done, an advised effect (any part of an upload may
get through), an advised record, a stale effect that a driver carries out late, or a late record, made on
the receipt a driver read earlier. A crash between an effect and its record is an effect followed by a
crash. A driver is fresh when it only takes steps of the first three kinds.

**The offline judge capsule** (`scripts/offline_judge_capsule.py`) and the slice of
`scripts/build_release_envelope.py` that binds it: `Capsule`, `CapsuleMethods`, `RelayChains`,
`VerifiedCapsules` (what verification certifies), `CapsuleBuilder`, `Capsulation` (which transactions can become
a capsule), `Envelope`, `OldSchemas`, `CapsulePath` (from a transaction to an accepted envelope).

**Loops over state that changes in place:** `Timestamps`, `Sentences`, `Subtitles` and `SubtitleFiles` (the SRT
writer, over `real`, and a reader), `AsciiJson` and `EnvironmentFile`, `WorkspaceFraming`, `BlindCleanup` (a
paged object store), `FaultMatrix` (a provider that can fail at any call), and three promotion scripts:
`AssetKeys`, `Retagging`, `Promotions`, `UrlHistory` and `PromotionRuns`.

## What the proofs found

* The release tag is not always pinned at IMMUTABLE. `verify_receipt` compares `release_tag` with the
  evidence by `==`, and checks only `str()` of it against the tag pattern, so the same events verify under
  the tag `1` and under the tag `true`. Exactly: the events of a verified receipt pin its tag from
  PAGES_MATERIALIZED on, and at IMMUTABLE unless the tag is a number that another tag-shaped number equals
  (`LooseTags.TagPinnedExactly`).
* One asset in the draft that is not expected keeps the plan at UPLOAD_MISSING_ASSETS for ever, since
  `reconcile_receipt` asks for equal listings and no upload removes an asset. Some run of fresh drivers ends in
  BROWSER_VERIFIED exactly when, besides sound counts and asset names, there is no such asset or the assets
  are recorded already; a missing or a wrong digest is repaired (`Convergence.FinishesExactly`). The workflow
  itself uploads such an asset, `release-transaction-receipt.json`, to the draft
  (`.github/workflows/release-envelope.yml:636-641`, not among the names expected at 570-614); it avoids the
  loop because it lists expected names only (line 835) and does not reconcile at this point.
* The receipt digest pins every field of a receipt, but it is no signature. Sealed again, a receipt verifies
  with another previous_receipt_sha256 in every state before BROWSER_VERIFIED, and there with whatever the
  recorded evidence names (`ResealedReceipts.ResealedVerifies`).
* A release that is published before its assets are recorded is stuck: once the listings agree
  `reconcile_receipt` keeps advising RECORD_ASSETS_UPLOADED, and `advance_receipt` refuses the evidence, which
  says that the release is no draft. It is the only case in which an advised record is refused to a driver
  that tells what it saw (`HonestDrivers.AdviceAndRecord`), and with it `HonestDrivers.HonestlyFinishes` says
  exactly which releases such drivers can finish.
* Sign-once can fail for a driver that acts late. Whatever drivers do, there is at most one author signature
  exactly when no driver signs late where a signature already is, which it can look up before it signs
  (`StaleDrivers.SignedOnceExactly`; the same for publication). Two drivers that are both advised to sign
  before either does show the failure. `.github/workflows/release-envelope.yml:21-23` runs one job for a tag
  at a time, so such a driver has to come from outside that workflow, for instance from the coordinator's
  command line.
* A doubled count stops every driver that reconciles: whatever happens next, no reconcile of any receipt
  advises anything. It does not stop `advance_receipt`, which looks at no provider: the receipt still moves,
  exactly by accepted late records, and before the last state there always is one
  (`StaleDrivers.ReceiptMovesExactly`, `StaleDrivers.LateRecordMoves`). The workflow records in this way: it
  reconciles at line 689 and advances at 753, 840 and 915 without reconciling again.
* Below judge schema 16 an envelope can be emitted with a capsule that the consumer refuses, and every
  capsule that can be built is such a capsule for each other commit or tag; from 16 on it cannot.
* The consumer of an envelope looks at five fields of the capsule entry. The predecessor it names, the counts
  and the addresses can be changed unnoticed (`CapsulePath.EditNoticed`); as emitted they are right
  (`CapsulePath.ChainTells`, `CapsulePath.EntryTells`).
* Subtitle cues tile the narration exactly when every paragraph with a positive duration says something.
* Framing by NUL bytes is injective exactly when the other workspace is free of NUL bytes too, and a
  change it hides always leaves fewer files.
* A draft whose creation answer is lost stays behind in the fault matrix: its id was never known. It is
  the only way to leave a draft when deletes take effect.
* A URL-driven promotion leaves a named asset without the tag when the asset has no URL key. After any mixed
  run on any release the last tag wins under an exact condition on the first release and the run
  (`PromotionRuns.LastTagWins`); on ordinary keys it is that each named asset had a URL key or some promotion
  supplies one. One name-driven promotion anywhere in the run is enough, unless a sequential promotion
  comes last and some key repeats `_asset_url`; then it can fail (`PromotionRuns.RepeatedMissed`).
* The sequential promotion replaces `_asset_url` wherever it occurs in a key, the other scripts only at
  the end. They read the same name exactly when it occurs once.

## Model

| member | source | states |
|---|---|---|
| CanonicalJson.ReadBack | scripts/release_transaction_coordinator.py:39-42 | a reader recovers every JSON value, at any depth, from its canonical text |
| CanonicalJson.PrintInjective | scripts/release_transaction_coordinator.py:39-46 | equal canonical bytes mean equal values; integers, float lexemes and booleans are never confused |
| InsertionOrder.DumpIsPrint | scripts/release_transaction_coordinator.py:39-42 | dumping dicts with their items sorted gives the canonical text of the value, whatever the insertion order at any depth |
| InsertionOrder.CanonicalBytes | scripts/release_transaction_coordinator.py:39-46 | two documents have the same bytes if and only if they mean the same value |
| KeyOrder.TableText | scripts/release_transaction_coordinator.py:39-42 | every dict is written as its members joined by commas, in the one listing whose keys ascend code point by code point (a key before its extensions, else the smaller character at the first difference) |
| KeyOrder.ListText | scripts/release_transaction_coordinator.py:39-42 | every list is written as its items joined by commas, in order |
| KeyOrder.StringShortest | scripts/release_transaction_coordinator.py:39-42 | a string is written in the shortest way that a JSON reader reads as it, and no other way is as short |
| CoordinatorMethods.RequireDigestMap | scripts/release_transaction_coordinator.py:79-87 | the loop accepts exactly nonempty dicts from plain asset names to SHA-256 text and returns that map; anything else is an error |
| CoordinatorMethods.VerifyReceipt | scripts/release_transaction_coordinator.py:373-413 | the loop returns without an error exactly for receipts whose identity, every event, link, revision, state and digest hold |
| CoordinatorMethods.InitializeReceipt | scripts/release_transaction_coordinator.py:304-339 | the receipt filled in place is the initial receipt of its intent and verifies; there is an error exactly when a guard or the evidence check fails |
| CoordinatorMethods.AdvanceReceipt | scripts/release_transaction_coordinator.py:342-370 | there is an error exactly when the receipt, the transition or the evidence is refused; otherwise the result verifies, extends the events by one and keeps the identity |
| CoordinatorClosure.InitializeCloses | scripts/release_transaction_coordinator.py:304-339 | once the guards and the evidence check pass, the closing verify_receipt cannot fail |
| CoordinatorClosure.AdvanceCloses | scripts/release_transaction_coordinator.py:342-370 | the same for an advance: all old events revalidate under the new receipt, and the browser evidence checked against receipt_sha256 matches previous_receipt_sha256 afterwards |
| CoordinatorClosure.AdvancedFields | scripts/release_transaction_coordinator.py:355-370 | an advance appends one linked event, rewrites five fields and keeps every other field, known or not |
| CoordinatorClosure.EvidenceFrame | scripts/release_transaction_coordinator.py:242-248 | only BROWSER_VERIFIED evidence depends on the receipt digest that changes meaning at the last transition |
| CoordinatorClosure.NewReceiptFields | scripts/release_transaction_coordinator.py:321-338 | a new receipt has exactly its twelve fields |
| Coordinator.RepositoryIsTwoNames | scripts/release_transaction_coordinator.py:31 | a repository is two names with one slash between them |
| SafeEvidence.SafeExactly | scripts/release_transaction_coordinator.py:57-69 | evidence is safe exactly when no dict in it, at any depth and inside any list, has a secret-looking key |
| Observations.SightingDecides | scripts/release_transaction_coordinator.py:104-285 | for every observation of every state: evidence that says it is accepted exactly when it is a proof of the state for this release, condition by condition on typed values, and names no secret |
| TamperEvidence.LastDigestPinsEvents | scripts/release_transaction_coordinator.py:396-412 | two verified receipts with one last event digest have the same event list, or two event bodies in play collide |
| TamperEvidence.TamperEvident | scripts/release_transaction_coordinator.py:39-46 | the same down to bytes: a different history exhibits two different byte strings with one SHA-256 |
| TamperEvidence.DigestPinsReceipt | scripts/release_transaction_coordinator.py:49-54 | two verified receipts with one receipt digest are the same receipt, every field included, or two receipt bodies collide |
| TamperEvidence.ReceiptTamperEvident | scripts/release_transaction_coordinator.py:39-54 | the same down to bytes |
| TamperEvidence.AlterationShows | scripts/release_transaction_coordinator.py:373-413 | setting or removing any one field of a verified receipt makes it fail or exhibits a collision |
| ResealedReceipts.ResealedVerifies | scripts/release_transaction_coordinator.py:373-413 | a receipt with one field changed and sealed again verifies exactly when the field is not held or may say this; of the fields besides identity and events only schema, kind, transaction id, state and revision are held, and previous_receipt_sha256 at the end |
| ResealedReceipts.ResealedEventVerifies | scripts/release_transaction_coordinator.py:393-411 | of an event state, link and evidence digest are held, its time is not |
| IdentityPinning.SourceAndEnvelopePinned | scripts/release_transaction_coordinator.py:112-126 | equal events pin the source digest and the envelope digest |
| IdentityPinning.RepositoryPinned | scripts/release_transaction_coordinator.py:126-135 | from AUTHOR_ATTESTED on, equal events pin the repository |
| IdentityPinning.TransactionIdFollowsTag | scripts/release_transaction_coordinator.py:90-101 | with equal events from IMMUTABLE on, transaction ids are equal exactly when the tags are, or two identities collide |
| IdentityPinning.TransactionIdPinsIdentity | scripts/release_transaction_coordinator.py:90-101 | in any state one transaction id means one repository, tag, source and envelope, as text, or two identities collide |
| IdentityPinning.LastDigestPinsIdentity | scripts/release_transaction_coordinator.py:373-413 | from IMMUTABLE on the last digest pins repository, source and envelope; the tag too, unless it is a number with a twin at IMMUTABLE; and the transaction id exactly when the tag |
| LooseTags.RetaggedVerifies | scripts/release_transaction_coordinator.py:152-166 | a verified receipt resealed under another tag verifies with the same events, before IMMUTABLE under any tag, at IMMUTABLE under any the evidence compares equal to |
| LooseTags.TagPinnedExactly | scripts/release_transaction_coordinator.py:104-206 | for every verified receipt: its events pin its tag exactly from PAGES_MATERIALIZED on, or at IMMUTABLE when it is not a number that another tag-shaped number equals; floats count only as Python prints them |
| LooseTags.TagNotPinnedAtImmutable | scripts/release_transaction_coordinator.py:152-166 | two verified IMMUTABLE receipts with the same events, for the tags 1 and true, whatever the hashes |
| PythonValues.PyIntTruncates | scripts/release_transaction_coordinator.py:272-277 | int() of a float is next to it, on the side of zero |
| Evidence.EvidencePasses | scripts/release_transaction_coordinator.py:104-285 | in every state, under every receipt, some evidence passes: no check contradicts another |
| Completion.CanAlwaysAdvance | scripts/release_transaction_coordinator.py:342-370 | every verified receipt before the last state, whatever its tag, has evidence that advances it |
| Completion.RunOfLength | scripts/release_transaction_coordinator.py:304-370 | every valid intent has a run of each length up to six, the last ending in BROWSER_VERIFIED |
| Replay.ReplayRebuilds | scripts/release_transaction_coordinator.py:288-370 | a receipt reached by any run is rebuilt field for field from its own identity, evidence and times |
| Replay.ReplayDecides | scripts/release_transaction_coordinator.py:288-413 | replay succeeds exactly on the receipts some run of the coordinator produces |
| Replay.LastStep | scripts/release_transaction_coordinator.py:342-370 | each receipt of a run links to the receipt before it, with the successor state and the next revision |
| Replay.RunGrows | scripts/release_transaction_coordinator.py:349-367 | over any run events are only appended, no state is skipped, the identity stays, and at most five advances exist |
| Replay.RunAgrees | scripts/release_transaction_coordinator.py:104-285 | every release target, tag, envelope digest, signer and browser source in any event of a run agrees with its intent |
| Reconciliation.RecordsSuccessorOnly | scripts/release_transaction_coordinator.py:416-477 | whatever the snapshot, something is advised only for an existing release of the same target and envelope, a record only for the immediate successor state, COMPLETE only for the last one, and nothing when a count exceeds one |
| Reconciliation.FirstConflict | scripts/release_transaction_coordinator.py:416-460 | for every snapshot each conflict is the answer exactly when it holds and none before it in the list does |
| Reconciliation.AdvisedExactly | scripts/release_transaction_coordinator.py:416-477 | for every receipt and snapshot something is advised exactly when receipt and snapshot are sound and no conflict holds, and then it is the record of the next state where the release shows it and otherwise the missing effect |
| ReleaseRuns.ReconcileDecides | scripts/release_transaction_coordinator.py:416-477 | on a fresh snapshot of an honest provider the plan is a function of the recorded transitions and the provider alone |
| ReleaseRuns.TakeKeepsInv | scripts/release_transaction_coordinator.py:342-477 | every step of a fresh driver, crash or not, keeps receipt and provider consistent |
| ReleaseRuns.SignsOnce | README.md:408-413 | over any run of fresh drivers there is at most one author signature, one that exists stays, and it is adopted: signing is advised exactly when there is none, recording when there is one |
| Convergence.TakeLowers | scripts/release_transaction_coordinator.py:416-477 | no fresh step raises the rank, and every productive step lowers it |
| Convergence.RankZero | scripts/release_transaction_coordinator.py:416-477 | the rank is zero exactly when the plan is COMPLETE, exactly when the receipt is BROWSER_VERIFIED |
| Convergence.CanProgress | scripts/release_transaction_coordinator.py:416-477 | until then some next step of a fresh driver is productive, unless an asset is listed that is not expected or none is expected |
| Convergence.CanFinish | scripts/release_transaction_coordinator.py:416-477 | from every such state of the invariant, with any missing or wrong assets, some fresh run, no longer than the rank, ends in BROWSER_VERIFIED |
| Convergence.FinishesExactly | scripts/release_transaction_coordinator.py:416-477 | for every provider and every verified receipt: some fresh run ends in BROWSER_VERIFIED exactly when it is there already, or the counts and attestations are sound, no asset name looks secret, and, up to AUTHOR_ATTESTED, some asset is expected and none is listed that is not |
| Convergence.ForeignAssetUploadsForever | scripts/release_transaction_coordinator.py:438-445 | at AUTHOR_ATTESTED, with one asset listed that is not expected, no fresh run moves the receipt and the plan stays UPLOAD_MISSING_ASSETS |
| Convergence.Converges | scripts/release_transaction_coordinator.py:416-477 | whatever crashes interleave, nine productive steps plus one for each asset reach COMPLETE |
| Convergence.Starts | scripts/release_transaction_coordinator.py:304-339 | a new receipt starts inside the invariant exactly when counts and asset names are sound: whatever assets the draft lists, and also when an author signature already exists |
| StaleDrivers.SignedOnceExactly | README.md:408-413 | from any state and whatever drivers do, late effects and late records included, there is at most one author signature exactly when none signs late where a signature is |
| StaleDrivers.PublishedOnceExactly | scripts/release_transaction_coordinator.py:443-454 | and at most one platform attestation exactly when none publishes late what is published, if each publication brings one |
| StaleDrivers.StaleDriverSignsTwice | README.md:408-413 | a driver acting late on advice it was given before another one signed makes a second signature |
| StaleDrivers.DoubledCountStops | scripts/release_transaction_coordinator.py:428-431 | once a count exceeds one, after any steps of any drivers it still does, no reconcile of any receipt advises anything, and the receipt is what the accepted late records made it |
| StaleDrivers.DoubledCountIsAmbiguous | scripts/release_transaction_coordinator.py:428-431 | and for every verified receipt about the release the answer is AMBIGUOUS |
| StaleDrivers.ReceiptMovesExactly | scripts/release_transaction_coordinator.py:342-370 | under a doubled count a step changes the receipt exactly when it is an accepted late record of another receipt |
| StaleDrivers.LateRecordMoves | scripts/release_transaction_coordinator.py:342-370 | every verified receipt before the last state can still be moved one state on in this way, by evidence that passes |
| HonestDrivers.HonestAdvance | scripts/release_transaction_coordinator.py:342-370 | evidence filled from the provider, and otherwise in order, advances the receipt exactly when the provider is ready for the next state |
| HonestDrivers.AdviceAndRecord | scripts/release_transaction_coordinator.py:342-477 | on one provider a record that is advised is refused exactly for a release published before its assets are recorded, and one that is accepted was not advised exactly when a count is doubled or the author signature is gone |
| HonestDrivers.RecordedProves | scripts/release_transaction_coordinator.py:373-413 | whatever a verified receipt records of a state is proof of that state: equal asset listings, the one author signature, the 1, 1, 2 counts of an immutable release, and so on |
| HonestDrivers.HonestlyFinishes | scripts/release_transaction_coordinator.py:342-477 | for every provider and verified receipt: some run of drivers that record only what they saw ends in BROWSER_VERIFIED exactly when some fresh run does and, until the assets are recorded, the release is a draft that expects well-named assets and the envelope |
| CapsuleMethods.RelayCapsule | scripts/offline_judge_capsule.py:461-535 | overwriting the copy gives the relayed capsule, and it fails exactly when a guard does |
| CapsuleMethods.BuildCapsule | scripts/offline_judge_capsule.py:124-310 | the sealed dict is the built capsule; it is rejected exactly when a guard fails and is always valid otherwise |
| Capsule.RelayCloses | scripts/offline_judge_capsule.py:461-535 | a relay past its guards cannot fail its closing verification |
| CapsuleBuilder.GateCloses | scripts/offline_judge_capsule.py:141-310 | the gate error cannot fire once the guards have passed |
| CapsuleBuilder.BuilderAgrees | scripts/offline_judge_capsule.py:124-372 | building yields a capsule exactly when the guards pass, and that capsule verifies; this needs what verify_receipt promises about the transaction receipt |
| VerifiedCapsules.RowsStandOnChecks | scripts/offline_judge_capsule.py:313-372 | in a verified capsule every row shown green stands on the checks the capsule lists for it, each run and passed; rows and listings have the same names; no check failed |
| VerifiedCapsules.ResealedVerifies | scripts/offline_judge_capsule.py:313-372 | a capsule with one field of a section changed, the checks excepted, and sealed again verifies exactly when the field is not held or may say this |
| VerifiedCapsules.ResealedHeader | scripts/offline_judge_capsule.py:313-372 | outside the sections and rows only schema, kind and request policy are held |
| CapsulePath.NamesTransaction | scripts/offline_judge_capsule.py:268-278 | the predecessor a built capsule names has the tag, commit, envelope digest, receipt digest and recorded bundle digests of its transaction, and is not the release it is compiled for |
| CapsulePath.NeedsPublished | scripts/offline_judge_capsule.py:141-226 | a capsule is built only from a published immutable release under the tag of the evidence, in which envelope and author bundle are the only assets of their names and have the recorded digests, by a compiler that can be named |
| CapsulePath.MadeCarriesReport | scripts/offline_judge_capsule.py:248-306 | it carries the checks and the lineage of the report unchanged, and the digests of the files it was made from |
| CapsulePath.RunNamed | scripts/offline_judge_capsule.py:258-267 | built or relayed, a capsule names the run that compiled it last |
| Capsulation.BuildableExactly | scripts/offline_judge_capsule.py:124-310 | for every verified transaction: some release, references and report let a capsule be built from it with given bundles and compiler, exactly when it has reached its Pages, recorded those bundles, names its source as text and has another tag than the compiler's |
| Capsulation.FinishedTransactionBuilds | scripts/offline_judge_capsule.py:124-310 | and then the capsule is built and verifies |
| RelayChains.RelayLink | scripts/offline_judge_capsule.py:461-535 | a relay hands on predecessor, checks, rows, policy and gate untouched, names its source receipt, and does not promote the failed epoch |
| RelayChains.ChainKeepsProof | scripts/offline_judge_capsule.py:313-535 | along a chain of any length every capsule verifies and carries the proof of the first |
| RelayChains.SameAncestors | scripts/offline_judge_capsule.py:461-535 | walking source_receipt_sha256 backward from one receipt digest meets the same capsule at every step, or two bodies collide |
| RelayChains.LineageUnique | scripts/offline_judge_capsule.py:461-535 | two chains from built capsules to the same receipt digest are the same chain |
| RelayChains.ChainExtends | scripts/offline_judge_capsule.py:461-535 | a verified capsule that names its compiler, whatever else it says of it, can be relayed exactly by the requests that name it and its release and move to another, and so can its relay |
| CapsulePath.BuiltTravels | scripts/build_release_envelope.py:1965-2062 | from schema 16 on a built capsule goes out exactly in envelopes of its compiler's release that name the capsule, where it is served, and no relay, and is accepted with each |
| CapsulePath.RelayTravels | scripts/build_release_envelope.py:1965-2062 | a relayed capsule exactly in envelopes of its new compiler's release that name the capsule and either no relay or, field for field, the failed release it came through, unless that release is the predecessor; and is accepted with each |
| CapsulePath.EntryTells | scripts/build_release_envelope.py:2992-3020 | the emitted entry tells the predecessor and the addresses, and counts the checks and the rows |
| CapsulePath.ChainTells | scripts/build_release_envelope.py:2992-3020 | after any number of relays the entry tells tag and commit of the transaction the first capsule was built from |
| CapsulePath.EditNoticed | scripts/offline_judge_capsule.py:375-405 | changing a field of the entry is noticed exactly when it is one of five and the new value says something else |
| CapsulePath.ReleaseEditNoticed | scripts/offline_judge_capsule.py:392-397 | of the release, commit and tag are noticed |
| Envelope.EmittedIsAccepted | scripts/build_release_envelope.py:1965-2062 | an emitted envelope is accepted with its capsule exactly when the capsule names this release and its relay is readable, which the gate guarantees from judge schema 16 on |
| Envelope.OldSchemaMayDisagree | scripts/build_release_envelope.py:1965-1970 | below schema 16 a capsule of another release is emitted and then refused |
| Envelope.RStripSlashes | scripts/build_release_envelope.py:1974-1978 | all slashes at the end go and nothing else |
| OldSchemas.EmittedAndRefused | scripts/build_release_envelope.py:1965-2062 | and it happens: for every transaction that can become a capsule, every schema below 16 and every other commit or tag there is such an envelope |
| Timestamps.TimestampReads | scripts/build_demo_video_v4.py:241-246 | reading a printed time gives the rounded milliseconds, every field in range, for all non-negative times |
| Timestamps.TimestampFaithful | scripts/build_demo_video_v4.py:241-246 | printing keeps order, is off by at most half a millisecond, and tells apart exactly the times that round differently |
| Timestamps.RoundIsPythons | scripts/build_demo_video_v4.py:242 | no integer is nearer than the rounded one, and of two that are as near it is the even one |
| Subtitles.WriteSegment | scripts/build_demo_video_v4.py:254-263 | the inner loop writes the cues of one paragraph, its special last case included |
| Sentences.NoLetterLost | scripts/build_demo_video_v4.py:253 | cutting a paragraph into stripped sentences loses and moves nothing but white space |
| Sentences.SentenceExists | scripts/build_demo_video_v4.py:253 | sentences are not empty and have no white space at their ends, and a paragraph has one exactly when it has a letter |
| Sentences.CutAtMarks | scripts/build_demo_video_v4.py:253 | every sentence but the last of its paragraph ends in a mark, and none has a mark before white space inside |
| Subtitles.WriteSrt | scripts/build_demo_video_v4.py:249-265 | the nested loops cut the narration and write exactly the cues of all its sentences, or fail when the lists differ in length |
| Subtitles.LastIsProportional | scripts/build_demo_video_v4.py:259 | the special case for the last sentence equals the proportional running sum |
| Subtitles.CuesTile | scripts/build_demo_video_v4.py:249-265 | from any cursor and number: cues are numbered in order, touch, and cover the sum of durations, exactly when no paragraph that takes time lacks a sentence |
| Subtitles.NarrationTiles | scripts/build_demo_video_v4.py:249-265 | the cues of a narration are numbered from one, start at zero, touch, and end at the sum of durations, exactly when every paragraph that takes time has a letter |
| Subtitles.EverySentenceSpoken | scripts/build_demo_video_v4.py:253-263 | no sentence is dropped, repeated or moved |
| Subtitles.EveryLetterSpoken | scripts/build_demo_video_v4.py:249-265 | the cues say the narration letter by letter |
| SubtitleFiles.SrtReadsBack | scripts/build_demo_video_v4.py:249-265 | for every narration without line feeds a reader of the file gets back every cue: number, both times in rounded milliseconds, and sentence |
| SubtitleFiles.ShownByLength | scripts/build_demo_video_v4.py:254-259 | every sentence is shown in proportion to its length |
| EnvironmentFile.ParseSecret | scripts/load_mcp_secret.py:31-71 | a secret is accepted exactly when it holds what is required, and what is kept is its known fields unchanged |
| EnvironmentFile.TwoPassesAreOne | scripts/load_mcp_secret.py:25-28 | two whole-string replacements are one escape character by character |
| EnvironmentFile.FileReadsBack | scripts/load_mcp_secret.py:25-109 | every variable keeps its own line, and unescaping the lines gives back exactly the variables |
| EnvironmentFile.NameOfField | scripts/load_mcp_secret.py:75-84 | the variable of every field is the field in upper case, with _JSON after it exactly where a dict is written |
| EnvironmentFile.RenderEnvironment | scripts/load_mcp_secret.py:74-109 | a payload is written exactly when no field is missing and no value spans lines, and the file reads back as its fields |
| AsciiJson.PrintNoControl | scripts/load_mcp_secret.py:88-92 | canonical text holds no control character at any depth |
| AsciiJson.AsciiCharReads | scripts/load_mcp_secret.py:88-92 | what is written for a character is the character, its code, or the two surrogates that stand for it |
| EnvironmentFile.DumpsSingleLine | scripts/load_mcp_secret.py:88-104 | what json.dumps writes, ASCII escapes included, never leaves its line |
| EnvironmentFile.AcceptedRenders | scripts/load_mcp_secret.py:31-109 | an accepted secret never lacks a field of the file; only a text with a line break or NUL stops it, never a JSON field |
| WorkspaceFraming.WorkspaceDigest | scripts/adaptive_diagnosis_fixture.py:34-41 | the running digest has been fed the framed stream of the listed files |
| WorkspaceFraming.FramingInjective | scripts/adaptive_diagnosis_fixture.py:34-41 | from a NUL-free workspace, an equal stream means equal files exactly when the other is NUL-free |
| WorkspaceFraming.HiddenChangeLosesFiles | scripts/adaptive_diagnosis_fixture.py:34-41 | and exactly when the number of files is unchanged; a hidden change always lowers it |
| WorkspaceFraming.NulBytesCollide | scripts/adaptive_diagnosis_fixture.py:34-41 | two different workspaces with one stream |
| WorkspaceFraming.AcceptProbe | scripts/adaptive_diagnosis_fixture.py:152-160 | an accepted probe left the workspace unchanged unless the digest collided or a content with NUL bytes swallowed files |
| BlindCleanup.Store.List | scripts/cleanup_blind_holdout.py:21-29 | a page of an honest store: distinct pending keys, of any number, and what it leaves out comes later |
| BlindCleanup.DeletePages | scripts/cleanup_blind_holdout.py:18-39 | the loop ends, asks for exactly the keys of the run to be deleted, and counts each once |
| BlindCleanup.Cleanup | scripts/cleanup_blind_holdout.py:12-50 | exactly the keys of the run go; a receipt is given if and only if no delete silently failed, with the exact count; other keys are untouched |
| BlindCleanup.SiblingsApart | scripts/cleanup_blind_holdout.py:15-17 | no key of a run belongs to another run, even one whose name it begins |
| FaultMatrix.Retry | scripts/run_github_release_fault_matrix.py:112-119 | the first answer that meets the goal, an outage, or an error after exactly twelve answers; what the provider shows is found at once when nothing fails |
| FaultMatrix.UploadAgain | scripts/run_github_release_fault_matrix.py:185-205 | a duplicate upload passes exactly when it is answered with 422 and the listing after it, as the provider shows it, has one asset of the name; the assets never change |
| FaultMatrix.UploadAndRecover | scripts/run_github_release_fault_matrix.py:167-183 | an upload whose answer is lost is found again by name, and passes only with the right digest |
| FaultMatrix.TryScenarios | scripts/run_github_release_fault_matrix.py:144-241 | what the try block leaves for its finally block, at every exit |
| FaultMatrix.RunMatrix | scripts/run_github_release_fault_matrix.py:122-275 | a normal return is a pass with five recovered scenarios, agreeing digests and the releases restored; an older draft in a stale listing is never mistaken for the new one; without faults there are exactly eleven calls; when deletes take effect every exit restores the releases except after a lost creation answer; one outage in the scenarios never leaves a known draft |
| AssetKeys.ReplaceIsNameKey | scripts/promote_sequential_blind_evidence.py:207-209 | replacing everywhere gives the name key exactly when the pattern occurs once |
| Retagging.RetagByName | scripts/promote_kms_authority_evidence.py:147-158 | over a snapshot of the entries, the URL beside every named asset is rewritten or added and nothing else |
| Retagging.RetagSequential | scripts/promote_sequential_blind_evidence.py:205-212 | each URL whose name key holds a name is rewritten from it, all other entries stay |
| Retagging.RetagStory | scripts/promote_evidence_story_v7.py:102-108 | the same for textual URLs other than asset_url |
| Promotions.PromoteKms | scripts/promote_kms_authority_evidence.py:136-158 | afterwards every named asset carries the tag, whatever was there before, and only tags, URLs and the own name changed |
| Promotions.PromoteSequential | scripts/promote_sequential_blind_evidence.py:201-216 | every named asset carries the tag exactly when the loop reaches each, and only tags, URLs and the own name changed |
| Promotions.PromoteStory | scripts/promote_evidence_story_v7.py:101-118 | the same, and an error exactly when there is no asset_name |
| Promotions.OnlyTagsAndUrlsChange | scripts/promote_kms_authority_evidence.py:136-158 | a promotion of any of the three kinds changes only tag fields, URL fields and the name of its own asset |
| Promotions.TagReached | scripts/promote_evidence_story_v7.py:102-118 | a named asset carries the tag after a promotion exactly when it is the own one, or the promotion is name-driven, or it has a URL key the loop recognises |
| Promotions.AllTaggedExactly | scripts/promote_sequential_blind_evidence.py:201-216 | for every release: all named assets carry the tag exactly when the promotion reaches each asset named before |
| Promotions.PromotedSays | scripts/promote_evidence_story_v7.py:109-118 | after any promotion the release says its tag, both its addresses, and the file and the address of the promotion's own asset |
| PromotionRuns.RunCovers | scripts/promote_sequential_blind_evidence.py:201-216 | over any run, every named asset ends with a URL key exactly when each asset named at the start had one or some promotion of the run supplies one |
| PromotionRuns.LastTagWins | scripts/promote_sequential_blind_evidence.py:201-216 | for every release and mixed run: the last tag is in every named asset's URL exactly when, for each asset named at the start, the last promotion supplies its URL; or is a story one and a text stands there by then; or is sequential, the URL exists by then, and a key with a repeated pattern gives the same link |
| PromotionRuns.RecognisedTagWins | scripts/promote_sequential_blind_evidence.py:201-216 | on textual URLs and keys with the pattern once that is: each asset named at the start had a URL key or some promotion of the run supplies one |
| UrlHistory.RunText | scripts/promote_evidence_story_v7.py:102-118 | after any run a named asset has a URL key, and a text there, exactly when the first release and the kinds of promotions in the run say so |
| UrlHistory.RunHolds | scripts/promote_sequential_blind_evidence.py:205-212 | where the pattern is repeated and the other name is absent, the URL is the link of the last promotion that is not sequential, if there was a text to rewrite or a name-driven one put it there |
| PromotionRuns.AnyRunTagged | scripts/promote_sequential_blind_evidence.py:201-216 | on any keys, exactly when the last promotion reaches every asset named before it |
| PromotionRuns.KmsRepairs | scripts/promote_kms_authority_evidence.py:147-158 | for every release: with a name-driven promotion anywhere in a run the last tag wins exactly when the last promotion is not sequential or every key with a repeated pattern gives the same link |
| PromotionRuns.RepeatedMissed | scripts/promote_sequential_blind_evidence.py:207-212 | a release on which the sequential promotion after a name-driven one leaves the older link |
| PromotionRuns.UrllessAssetMissed | scripts/promote_sequential_blind_evidence.py:205-212 | a release with a named asset and no URL key for it, which no URL-driven promotion tags |
| PromotionRuns.OthersSurvive | scripts/promote_sequential_blind_evidence.py:201-216 | no sequence of promotions touches another field |
| PromotionRuns.LastTagSaid | scripts/promote_sequential_blind_evidence.py:201-216 | after any run the release says the tag, the addresses and the own asset of the last promotion |
| PromotionRuns.SequentialAgrees | scripts/promote_sequential_blind_evidence.py:205-212 | for every release, the name-driven and the sequential loop agree exactly when every named asset has its URL key and keys with a repeated pattern read one link either way |
| PromotionRuns.StoryAgrees | scripts/promote_evidence_story_v7.py:102-118 | for every release with an asset_name, the name-driven loop and the story loop with its asset_url update agree exactly when every other named asset has its URL key, no other URL beside a name is something else than text, and asset_url is what the name says |

## Left out

- Hashes, patterns over secret-looking keys, float values, `int()` of text, base64 and `isspace` are fields of
  `Runtime`, so every result holds for all of them; collision freedom is stated where it is used, about
  the values in play.
- Characters are code points: UTF-8 encoding and lone surrogates are not modelled. Non-finite floats are not
  JSON numbers (section 6 of RFC 8259) and cannot be written in the model.
- Error texts are not told apart; an error is `None`, or a named outcome where callers distinguish it.
- Observation times and claim-boundary prose are parameters.
- `str()` of an array or object is only its opening bracket, which no pattern accepts.
- Publishing makes a release immutable and attests it in one step; separate propagation is not modelled.
- StaleDrivers.PublishedOnceExactly: that a second publication brings a second platform attestation is an
  assumption about the provider, which is not part of this model.
- Convergence.FinishesExactly: a driver may record any evidence that passes the checks;
  HonestDrivers.HonestlyFinishes ties it to what the driver saw. Which run ids, digests and addresses it saw is
  not part of this model.
- SubtitleFiles.SrtReadsBack: a sentence that spans lines would need a reader that knows where texts end.
- The table of checks behind each row (`UI_CHECK_SOURCES`) is copied, not derived from anything.
- Subtitles and timestamps are exact arithmetic; binary floating point is not modelled. What counts as white
  space is a parameter.
- The reader of the environment file keeps a backslash before any character but a quote, a backslash, a
  dollar or a backquote, as double quotes do in section 2.2.3 of the POSIX shell; continuation lines are not
  read, since no value contains a newline.
- FaultMatrix.RunMatrix: constant fields of the report are left out, releases are listed on one page, and one
  actor uses the provider.
- BlindCleanup.Cleanup: listed items without a textual key do not occur in the modelled store.
- The order of workspace files is any listing without repetition; the order of `sorted()` is one of them.
- WorkspaceFraming: what a probe reads, and how patches are applied, is not part of this model.
- The promotion scripts outside the release object: references, judge fields and final verification.
- `scripts/judge_readonly_verify.py`, the rest of `build_envelope`, and the other `promote_*`, `compile_*`,
  `seal_*` and `aggregate_*` scripts: long conjunctions of constants and field copying.
- Command lines, files, HTTP, object storage clients, video rendering and the browser demo.
