# ratatoskr-x: a verified model of its durable state machines

ratatoskr-x archives the X bookmarks of its users. Almost everything it promises rests on guarded SQL
updates that concurrent callers, crashes and redeliveries interleave. This project models those updates as
functions on table values, models the services as classes whose methods are proved equal to those functions,
and proves what holds in every reachable state of every interleaving.

A committed statement or `begin … commit` block is one step. Provider, broker, resolver and clock answers are
parameters of the steps, so a theorem holds for every answer. Losing a process between two statements is a
step of its own. Generated identifiers are new to their table, SHA-256 is a free constructor (injective), and
no clock is assumed to be monotone.

| module | part of the system |
|---|---|
| `Common`, `ArchiveTables` | shared vocabulary and the archive's rows |
| `BudgetGate`, `Writeback`, `Admission` | budget windows, the bookmark write-back calls, and when a call is admitted, what it stores and what a retry is told |
| `Snapshots`, `SnapshotOutcomes` | full snapshots, what they store row by row and how their page loop ends |
| `Incremental`, `ScanOutcomes`, `DriftRepairs` | bounded incremental scans, how they end, and which lost bookmarks get a drift repair |
| `PageChains`, `ArchiveProtocol` | token chains of fetched pages, and the interleaved machine of write-back callers, snapshot runners and scanners |
| `WritebackSafety`, `BudgetSafety`, `SnapshotSafety`, `RemovalSafety`, `ScanSafety` | what every run of that machine keeps |
| `Refinement`, `StaleEvidence` | undisturbed calls, page loops and scans as runs of that machine, and a run that leaves a stale operation id |
| `Folders`, `FolderOutcomes`, `FolderRunners`, `FolderRemovals` | native folder membership snapshots: service, tables, rows, runners and what a removed member names |
| `ExplicitCapture`, `CaptureOutcomes`, `CaptureSafety`, `CaptureRetries` | the explicit capture lane: intake, leased workers, what each answer does, events, reports and bounded retry |
| `Outbox`, `Relay`, `OutboxOutcomes`, `ResendProgress`, `OutboxSafety` | outbox rows, relay passes, what each answer leaves in a row, resend until acknowledged |
| `Credentials`, `RotationSafety` | refresh-token rotation under the row lock |
| `LegacySources` | the hand-written CSV reader and record folding |
| `Text`, `LinkSelection`, `ArticleUrls`, `NormalForms` | link canonicalisation and selection, and what a normal form keeps |

`dafny verify dfyconfig.toml` checks the whole project.

## What the code does that its description does not say

- The gap flag is read and the incremental run inserted in two statements, so a raised flag alone does not stop a
  scan: `ScanSafety.ScanStartsBehindGap` is a run, for every deployment that scans, in which one starts, and
  `ScanSafety.GapBlocksScansExactly` says exactly when one can (some scanner of the account passed its check before the
  flag rose).
- `parse_csv` drops an unterminated last row that consists of one empty field. `LegacySources.ParseInvertsRender`
  states the round trip with that condition as an if-and-only-if, `LegacySources.LoneEmptyFieldIsDropped` is the input.
- Presenting the preceding refresh token is a replay only if the provider issued a different value since
  (`RotationSafety.PresentationIsExact`, `RotationSafety.ReissuedTokenIsNotReplay`).
- The policy comment and the configuration say that each delay after the first doubles. `record_resend` uses the count
  before the update, so the second wait repeats the first (`Outbox.SecondWaitRepeatsFirst`). `Outbox.DoublesExactly`
  says when a wait is twice the one before: exactly when it is not the second and the cap does not cut it.
- The snapshot and incremental upserts leave `observed_removed_write_operation_id` of a reactivated bookmark in
  place, so a later removal by a snapshot can carry a stale operation id beside its own snapshot id
  (`StaleEvidence.StaleOperationRun` is such a run). It carries one exactly when the bookmark carried one before
  (`RemovalSafety.SnapshotKeepsStaleOperation`), and only a confirmed add clears it (`RemovalSafety.OnlyAddsClearOperation`).
- Several live runners of one bookmark or folder snapshot are allowed here. The token chain still holds for all of them.
- `max_attempts` does not bound the tries of a capture whose leases overlap: `CaptureRetries.OverlappingLeasesExceedBound`
  is a run, for every bound from two up to the largest count the column holds. `CaptureRetries.BoundBreaksExactly` says which step exceeds the bound, and
  `CaptureRetries.LeasedRunsAreBounded` that none does while times never decrease and each claim is handled before its
  lease ends.
- Ports accept a leading plus sign and leading zeros, as integer parsing does.

## Model

| member | source | states |
|---|---|---|
| `BudgetGate.WindowStartFor` | crates/x-budget/src/gate.rs:275-279 | the aligned start lies at most one window length before the instant, also before the epoch |
| `BudgetGate.WindowsPartitionTime` | crates/x-budget/src/gate.rs:270-279 | two instants share a window exactly when that window contains both, so windows partition time |
| `BudgetGate.RefundUndoesCharge` | crates/x-persistence/src/budget_windows.rs:59-129 | an accepted charge followed by its refund leaves every window's usage as it was |
| `BudgetGate.Gate.Reserve` | crates/x-budget/src/gate.rs:182-214 | reserves exactly when the cost fits under the cap, charges that window only, refuses an impossible cost, otherwise reports a reset within one window |
| `BudgetGate.Gate.Inspect` | crates/x-budget/src/gate.rs:221-243 | eligible exactly when a reservation at the same instant would be accepted, and changes nothing |
| `BudgetGate.Gate.Release` | crates/x-budget/src/gate.rs:252-268 | refunds exactly the reserved window and nothing else |
| `Writeback.DryRunPredictsLive` | crates/x-sync/src/writeback/service.rs:182-320 | from one state and clock reading: would-submit, already-satisfied or refusal class c exactly when a live call contacts the provider, reports already-satisfied or fails with c, whatever the provider answers; the dry run changes only its own operation row |
| `Writeback.SubmissionContacts` | crates/x-sync/src/writeback/service.rs:266-320 | an admitted call always contacts the provider, stamps its consent, charges one unit and settles as the answer and the projection dictate |
| `Writeback.ClaimKeepsVerdict` | crates/x-sync/src/writeback/service.rs:322-377 | claiming an unused key cannot change what local admission decides |
| `Writeback.BookmarkWritebackService.Claim` | crates/x-sync/src/writeback/service.rs:322-377 | inserts exactly when (account, digest) is free, and otherwise changes nothing |
| `Writeback.BookmarkWritebackService.Evaluate` | crates/x-sync/src/writeback/service.rs:379-476 | the verdict is the one admission computes from the committed state, and nothing changes; `Admission.AdmissionIsExact` and `Admission.RefusalsAreExact` say which it is |
| `Admission.AdmissionIsExact` | crates/x-sync/src/writeback/service.rs:379-476 | admitted if and only if the account is the user's and connected, has a credential and an active authorization, both with each of the five scopes, the consent row matches field by field, unconsumed and unexpired, the bookmark is not yet as requested and usage + 1 <= cap; satisfied at an instant, or out of budget, exactly when only that part differs |
| `Admission.RefusalsAreExact` | crates/x-sync/src/writeback/service.rs:379-476 | each other refusal class is given exactly when its test is the first to fail |
| `Admission.ContactsExactlyWhenAdmissible` | crates/x-sync/src/writeback/service.rs:225-320 | a live call on an unused key contacts the provider if and only if those conditions hold, whatever the provider answers |
| `Admission.AdmittedCallsEnd` | crates/x-sync/src/writeback/service.rs:266-320 | an admitted call: the provider's answer decides its result, its row and the bookmark; exactly one unit of its window is charged and exactly its consent stamped, whatever the answer |
| `Admission.UnsubmittedCallsEnd` | crates/x-sync/src/writeback/service.rs:244-265 | a call that is not admitted contacts nobody and only adds its own row, refused with the class or satisfied since the instant |
| `Admission.DryRunsEnd` | crates/x-sync/src/writeback/service.rs:182-223 | a dry run only adds its own row, with what it predicts and since when the bookmark is as requested |
| `Admission.BudgetLeftIsFit` | crates/x-budget/src/gate.rs:182-243 | the budget admits a write exactly when usage + 1 <= cap in the one aligned window that contains the instant |
| `Admission.RequestsAreRefusedExactly` | crates/x-sync/src/writeback/service.rs:225-240 | a request is refused unread exactly when its post is not 1 to 19 digits or its key not 1 to 256 long |
| `Admission.FingerprintsAgree` | crates/x-sync/src/writeback/service/support.rs:189-205 | two requests have one fingerprint exactly when they agree in everything but the key |
| `Admission.ClaimStores` | crates/x-sync/src/writeback/service.rs:322-377 | a claim on a free key stores one received operation with the request's columns, and every other row stays |
| `Admission.RetriesAreTold` | crates/x-sync/src/writeback/service/support.rs:90-98 | status by status what an exact retry is told, which statuses it waits on, and that another request under the key is a conflict |
| `Admission.ConsumesExactly` | crates/x-sync/src/writeback/service.rs:680-768 | stamps exactly the named consent and sets exactly the received operation in flight |
| `Admission.SettlesByAnswer` | crates/x-sync/src/writeback/service/completion.rs:56-198 | confirmed, uncertain and failed answers end the operation's own row in exactly these columns |
| `Admission.ProjectsByAnswer` | crates/x-sync/src/writeback/service/support.rs:11-88 | a confirmed add or remove changes exactly the one bookmark it names, column by column, and any other answer none |
| `Writeback.BookmarkWritebackService.Move` | crates/x-sync/src/writeback/service/completion.rs:13-54 | the guarded transition applies from the expected status only |
| `Writeback.BookmarkWritebackService.Consume` | crates/x-sync/src/writeback/service.rs:680-779 | stamps the consent and sets the operation in flight together, or refunds the reservation and changes nothing else |
| `Writeback.BookmarkWritebackService.CompleteConfirmed` | crates/x-sync/src/writeback/service/completion.rs:56-133 | the terminal status and the bookmark projection are written together, pending exactly when the projection cannot apply |
| `Writeback.BookmarkWritebackService.Execute` | crates/x-sync/src/writeback/service.rs:225-320 | every branch of a live call ends in the state and result of its specification: invalid requests, conflicts, replays, the bounded poll of another caller's operation, and the call itself |
| `Writeback.BookmarkWritebackService.Preview` | crates/x-sync/src/writeback/service.rs:182-223 | every branch of a dry run ends in the state and result of its specification; a taken key is a conflict exactly when the fingerprints differ and otherwise in progress |
| `Writeback.BookmarkWritebackService.WaitForOperation` | crates/x-sync/src/writeback/service.rs:564-588 | answers with the first replayable status among its bounded polls, and in progress exactly when none is |
| `Writeback.PollsUntilReplayable` | crates/x-sync/src/writeback/service.rs:564-588 | the poll from any read on ends at the first replayable one or gives up because there is none |
| `WritebackSafety.AtMostOneContact` | crates/x-sync/src/writeback/service.rs:225-377 | in every run the provider is contacted at most once per (account, digest) and at most once per consent, each time under a matching consent that was unexpired when stamped for that operation |
| `WritebackSafety.ContactFollowsConsent` | crates/x-sync/src/writeback/service.rs:680-768 | every provider call is preceded by the caller's own committed step that stamped the consent and moved its operation from received to in flight |
| `WritebackSafety.StatusesMoveForward` | crates/x-sync/src/writeback/service/completion.rs:13-198 | every step keeps every operation and its identity columns and moves its status along one of the ten transitions the code makes |
| `WritebackSafety.StatusesMoveForwardInRuns` | crates/x-sync/src/writeback/service.rs:478-562 | along every run no operation disappears, and its status becomes only what a path of those transitions leads to |
| `WritebackSafety.LeadsToIsPaths` | crates/x-sync/src/writeback/service/completion.rs:13-198 | what a status can become is exactly what at most three transitions reach |
| `WritebackSafety.OnlyCompletionSettlesUncertain` | crates/x-sync/src/lib.rs:557-628 | uncertain is left exactly when a full snapshot of the account completes, as reconciled-succeeded if and only if the resulting projection agrees with the request |
| `BudgetSafety.RefundNeverClamps` | crates/x-persistence/src/budget_windows.rs:113-129 | a refund always finds its own charge in the window |
| `BudgetSafety.WriteBudgetIsExact` | crates/x-budget/src/gate.rs:182-268 | in every run a write window's usage is accepted charges minus refunds, between zero and the cap, and at least the provider contacts charged to it |
| `Snapshots.CompletionActivates` | crates/x-sync/src/lib.rs:498-555 | completion makes the account's active set exactly the staged set and leaves other accounts and already removed rows alone |
| `Snapshots.CompletionBalances` | crates/x-sync/src/lib.rs:459-496 | each recorded count is the size of its set, so added + retained = staged and retained + removed = active before |
| `Snapshots.CompletionRepairs` | crates/x-sync/src/lib.rs:520-555 | one drift repair for each lost bookmark last touched by an incremental run, and no other |
| `Snapshots.SettlementMatchesProjection` | crates/x-sync/src/lib.rs:557-628 | each uncertain operation of the account is settled by agreement with the projection the same completion leaves; every other operation is untouched |
| `Snapshots.BookmarkSnapshotService.StageOnePage` | crates/x-sync/src/lib.rs:318-369 | staging adds the page's items and moves the checkpoint only of a running run |
| `Snapshots.BookmarkSnapshotService.RecordAbsent` | crates/x-sync/src/lib.rs:520-555 | the loop over lost bookmarks marks them, counts them and writes their repairs |
| `Snapshots.BookmarkSnapshotService.ReconcileUncertain` | crates/x-sync/src/lib.rs:557-628 | the loop settles every uncertain operation of the account and no other |
| `Snapshots.BookmarkSnapshotService.Complete` | crates/x-sync/src/lib.rs:383-457 | completes exactly when the run is running and its snapshot open, otherwise changes nothing |
| `Snapshots.BookmarkSnapshotService.RunPages` | crates/x-sync/src/lib.rs:196-241 | the page loop does what the fold over its turns does, for every sequence of budget, provider and normalization outcomes and a crash at any point |
| `SnapshotOutcomes.LoopEndsByItsTurn` | crates/x-sync/src/lib.rs:196-241 | the loop stages every page before the first turn that is not a page with a continuation, and that turn alone decides outcome, run state and completion |
| `SnapshotOutcomes.StagingStores` | crates/x-sync/src/lib.rs:318-369 | staging stores exactly the page's posts at this time and moves the checkpoint of that running run alone |
| `SnapshotOutcomes.OpeningStores` | crates/x-sync/src/lib.rs:254-284 | a new run is a full one without a checkpoint, can be completed under its own handle, and leaves every other row |
| `SnapshotOutcomes.ResumesExactly` | crates/x-sync/src/lib.rs:286-316 | a run can be resumed if and only if it is a full one of the account, running or failed, with this snapshot |
| `SnapshotOutcomes.CompletesExactly` | crates/x-sync/src/lib.rs:427-457 | completion acts if and only if the run is running for the account and its snapshot is there and open |
| `SnapshotOutcomes.CompletionCloses` | crates/x-sync/src/lib.rs:630-681 | run closed, checkpoint cleared, snapshot complete and the account's authority, nothing else of the kind |
| `SnapshotOutcomes.CompletionStores` | crates/x-sync/src/lib.rs:498-555 | each bookmark after completion, column by column: staged, lost, or untouched |
| `SnapshotOutcomes.SettlementRecords` | crates/x-sync/src/lib.rs:557-628 | a settled operation records what the snapshot showed and when |
| `SnapshotSafety.StepKeepsChains` | crates/x-sync/src/lib.rs:286-369 | every step of every process keeps: a stored or held checkpoint stands for an unbroken token chain of staged pages, and staged sets are unions of fetched pages |
| `RemovalSafety.OnlyAuthorityRemoves` | crates/x-sync/src/incremental.rs:382-410 | a bookmark turns removed if and only if it is there and the step completes a full snapshot of its account without it, or settles a confirmed remove of it; and then it names that very snapshot or that very operation |
| `RemovalSafety.RemovalsNameTheirStep` | crates/x-sync/src/lib.rs:520-555 | in every run every removed bookmark has a step that removed it: the completion of the snapshot it names, whose staged items then lacked it, or the settlement of the remove it names |
| `RemovalSafety.OnlyAddsClearOperation` | crates/x-sync/src/writeback/service/support.rs:11-88 | an operation id on a bookmark is cleared by a confirmed add of it and by no other step |
| `RemovalSafety.SnapshotKeepsStaleOperation` | crates/x-sync/src/lib.rs:498-555 | a bookmark a snapshot turns removed carries an operation id exactly when it carried one before |
| `StaleEvidence.StaleOperationRun` | crates/x-sync/src/lib.rs:498-518 | a legal run (found, removed by a confirmed call, found again, lost) that ends with both ids set |
| `RemovalSafety.SnapshotAuthorityIsSound` | crates/x-sync/src/lib.rs:383-409 | in every run each removed bookmark names the complete snapshot or succeeded remove whose step removed it, checkpoints are chained, and a complete snapshot contains a full chain from first to last page |
| `Incremental.ObservationOnlyObserves` | crates/x-sync/src/incremental.rs:382-410 | observing a page removes nothing and touches no watermark or flag |
| `Incremental.IncrementalScanService.Observe` | crates/x-sync/src/incremental.rs:201-258 | the upsert loop stores what `Incremental.ObservationStores` says |
| `Incremental.ObservationStores` | crates/x-sync/src/incremental.rs:382-410 | each post of the page has an active row, last saved now and last touched by this run, first saved as before or now; write evidence and every other row stay |
| `DriftRepairs.TouchesExactly` | crates/x-sync/src/incremental.rs:396-399 | a step leaves a bookmark touched by an incremental run exactly when it observes it, or it was touched and the step completes no snapshot that carries it |
| `DriftRepairs.TouchedExactlyWhenSeenLast` | crates/x-sync/src/incremental.rs:382-410 | in every run a bookmark is touched at the end if and only if some step observed it and no later completion carried it |
| `DriftRepairs.LosingRepairs` | crates/x-sync/src/lib.rs:520-555 | the completion that loses an active bookmark writes its one repair exactly when it is touched |
| `DriftRepairs.RepairsExactlyWhatScansSawLast` | crates/x-sync/src/lib.rs:520-555 | in every run from an empty archive the completion that loses a bookmark writes one repair for it if and only if a scan saw it and no completed snapshot has carried it since |
| `Incremental.IncrementalScanService.Run` | crates/x-sync/src/incremental.rs:111-176 | is the specified scan: ends within min(page cap, request cap) requests for every endless provider, refuses exactly when flagged, and changes watermark and flag only as its outcome says |
| `Incremental.IncrementalScanService.ScanPages` | crates/x-sync/src/incremental.rs:126-175 | the loop does what the fold over its turns does |
| `Incremental.ScanCallMeans` | crates/x-sync/src/incremental.rs:111-176 | what each outcome of a scan means for requests, watermark, flag and bookmarks |
| `ScanOutcomes.ScanCompletesExactly` | crates/x-sync/src/incremental.rs:111-176 | a scan completes if and only if it is let through and, within both caps and before any failure, one of its pages carries the stored watermark or there is none |
| `ScanOutcomes.ScanEndsByItsTurn` | crates/x-sync/src/incremental.rs:111-176 | the first ending request decides outcome, requests, run state and which pages are observed; the run row and the observed bookmarks are all it leaves beside watermark and flag |
| `ScanSafety.OnlyCompletionClearsFlag` | crates/x-sync/src/lib.rs:397-405 | the gap flag falls exactly when a full snapshot of the account completes |
| `ScanSafety.OnlyCompletedScansMoveWatermark` | crates/x-sync/src/incremental.rs:260-297 | only a completing scan moves the watermark, to an identity on its first page |
| `ScanSafety.GapBlocksScansExactly` | crates/x-sync/src/incremental.rs:111-199 | behind a raised flag a scan can start before the next completed full snapshot if and only if some scanner of the account had already passed its check |
| `ScanSafety.ScanStartsBehindGap` | crates/x-sync/src/incremental.rs:111-199 | for every configuration with 1 <= page cap <= request cap, a run in which a first scan stores a watermark, two scans check, one reads its page cap without the watermark and marks the gap, and the other still opens |
| `ScanSafety.ScansAreBounded` | crates/x-sync/src/incremental.rs:111-176 | in every run no scanner makes more than min(page cap, request cap) requests, failed ones included |
| `Refinement.LiveCallIsRun` | crates/x-sync/src/writeback/service.rs:225-320 | an undisturbed live call is a run of the interleaved machine with the same effect, and a provider contact exactly when the call makes one |
| `Refinement.PageLoopIsRun` | crates/x-sync/src/lib.rs:196-241 | an undisturbed page loop is a run of that machine, wherever it ends or crashes |
| `Refinement.ScanCallIsRun` | crates/x-sync/src/incremental.rs:111-176 | an undisturbed incremental scan is a run of that machine |
| `Folders.FolderCompletionBalances` | crates/x-sync/src/folders.rs:510-631 | completion makes the folder's members exactly the staged posts, leaves other folders alone, and each recorded count is the size of its set |
| `Folders.CompletionObserves` | crates/x-sync/src/folders.rs:560-631 | one added observation per new member, one removed observation per lost member, and no other |
| `Folders.OnlyCompletionChangesMembers` | crates/x-sync/src/folders.rs:384-431 | failing, limiting, resuming and staging change no member, observation or authority |
| `Folders.MembersFollowAuthority` | crates/x-sync/src/folders.rs:363-382 | in every run a folder's members are what its authority staged when it completed, and replaying the observations in completion order reproduces them |
| `FolderRunners.FolderSnapshotsAreWhole` | crates/x-sync/src/folders.rs:155-382 | in every run of any number of folder runners a checkpoint stands for an unbroken chain of staged pages, a completed snapshot contains a whole chain, staged sets are unions of fetched pages, and members are what a complete authority staged |
| `FolderRemovals.OnlyCompletionRemovesMembers` | crates/x-sync/src/folders.rs:581-631 | a member turns removed if and only if the step completes a snapshot of its folder whose staged posts lack it, and then it names that snapshot; a member that stays removed keeps its row |
| `FolderRemovals.MemberRemovalsNameTheirStep` | crates/x-sync/src/folders.rs:600-631 | in every run every removed member has a step that removed it: the completion of the snapshot it names, a complete one of its folder, whose staged posts then lacked it |
| `FolderRemovals.RunnersNameTheirRemovals` | crates/x-sync/src/folders.rs:155-382 | the same in every run of any number of folder runners |
| `Folders.ObserveRemovals` | crates/x-sync/src/folders.rs:616-630 | the loop inserts one removal observation per lost post, keeping those already stored |
| `Folders.FolderSnapshotService.RecordAbsentMemberships` | crates/x-sync/src/folders.rs:600-631 | marks, counts and observes exactly the members the snapshot lacks |
| `Folders.FolderSnapshotService.Complete` | crates/x-sync/src/folders.rs:363-382 | completes exactly when the run is running and its snapshot open, otherwise changes nothing |
| `Folders.FolderSnapshotService.RunPages` | crates/x-sync/src/folders.rs:155-206 | the page loop does what the fold over its turns does, capability limits included |
| `FolderOutcomes.LoopEndsByItsTurn` | crates/x-sync/src/folders.rs:155-206 | the loop stages every page before the first turn that is not a page with a continuation, and that turn alone decides outcome, run state, capability limit and completion |
| `FolderOutcomes.StagingStores` | crates/x-sync/src/folders.rs:318-361 | staging stores exactly the page's posts at this time and moves the run's checkpoint whatever its state |
| `FolderOutcomes.OpeningStores` | crates/x-sync/src/folders.rs:244-279 | a new run starts without a checkpoint, can be completed under its own handle, and leaves every other row |
| `FolderOutcomes.ResumesExactly` | crates/x-sync/src/folders.rs:281-316 | a run can be resumed if and only if it is one of the account, running or failed, with this snapshot of this folder |
| `FolderOutcomes.CompletesExactly` | crates/x-sync/src/folders.rs:479-508 | completion acts if and only if the run is running and its snapshot is of this folder and open |
| `FolderOutcomes.CompletionCloses` | crates/x-sync/src/folders.rs:633-680 | run closed, snapshot complete and the folder's authority, limits and staged items kept |
| `FolderOutcomes.CompletionStores` | crates/x-sync/src/folders.rs:581-631 | each member after completion: a staged one active with its first sighting kept, a lost one removed now by this snapshot, every other as it was |
| `FolderOutcomes.ObservedWhenCompleted` | crates/x-sync/src/folders.rs:560-631 | a new observation carries the completion's time |
| `ExplicitCapture.RetryDelays` | crates/x-sync/src/public_capture.rs:348-355 | the delays are 30 s, 2 min, 8 min, then 30 min, for every failure count |
| `ExplicitCapture.PublicCaptureWorker.PersistBrowserCapture` | crates/x-capture/src/lib.rs:114-188 | a new command stores one capture and one report, queued or already terminal; a repeated or ownerless one changes nothing |
| `ExplicitCapture.PublicCaptureWorker.ClaimDue` | crates/x-sync/src/public_capture.rs:216-238 | leases exactly the earliest due unlocked captures up to the batch size, none of which is due again before its lease ends |
| `ExplicitCapture.PublicCaptureWorker.Defer` | crates/x-sync/src/public_capture.rs:241-254 | reschedules an open capture only |
| `ExplicitCapture.PublicCaptureWorker.Terminate` | crates/x-sync/src/public_capture.rs:257-299 | closes an open capture with its one report, removing the owner's source when the post was deleted |
| `ExplicitCapture.PublicCaptureWorker.UpsertOwnerSource` | crates/x-sync/src/public_capture.rs:423-506 | keeps an unchanged source, revises a changed one, captures a new one, and writes nothing for a post the contract cannot represent |
| `ExplicitCapture.PublicCaptureWorker.Preserve` | crates/x-sync/src/public_capture.rs:302-345 | the upsert made before the guard is rolled back when the capture is no longer open |
| `ExplicitCapture.PublicCaptureWorker.RunDueOnce` | crates/x-sync/src/public_capture.rs:164-209 | one outcome per claimed capture, in the state and with the counts of the fold over the claims |
| `ExplicitCapture.PublicCaptureWorker.HandleOne` | crates/x-sync/src/public_capture.rs:170-206 | one claim ends in the lane and with the outcome its answer decides, as `CaptureOutcomes` writes out |
| `CaptureOutcomes.MissingPostOutcome` | crates/x-sync/src/public_capture.rs:164-300 | a failed resolution of an open capture: a transient one with a try left only reschedules it; every other ends it with the resolver's own failure reported once, and the owner's source for the post is gone with exactly one Removed event naming it if and only if the post was deleted and the owner had one |
| `CaptureOutcomes.FoundPostOutcome` | crates/x-sync/src/public_capture.rs:302-345 | a resolved post: the wrong or an unrepresentable one ends the capture as inaccessible, an unchanged one only ends it, a new or changed one is stored as shown and announced as Captured or Updated |
| `CaptureOutcomes.OutcomesExactly` | crates/x-sync/src/public_capture.rs:164-214 | when a claim counts as preserved, as deferred, and as unavailable with a given failure |
| `CaptureOutcomes.ClosedOutcome` | crates/x-sync/src/public_capture.rs:241-345 | every answer leaves a capture that is no longer open, and everything else, alone |
| `CaptureOutcomes.IntakeStores` | crates/x-capture/src/lib.rs:114-188 | a command with a tenant and an unseen id stores one capture of that tenant, queued, or unavailable with its report; every other changes nothing |
| `CaptureOutcomes.BatchIsEarliest` | crates/x-sync/src/public_capture.rs:216-238 | a batch is the earliest due unlocked captures up to its size, each leased for two minutes and otherwise unchanged |
| `CaptureSafety.OneCapturePerCommand` | crates/x-capture/src/lib.rs:114-207 | in every reachable state each accepted command has exactly one capture |
| `CaptureSafety.RedeliveryIsAbsorbed` | crates/x-capture/src/lib.rs:191-207 | a second delivery of a command changes nothing |
| `CaptureSafety.ReportedExactlyOnce` | crates/x-sync/src/public_capture.rs:257-345 | in every reachable state a capture is reported exactly when it is no longer accepted, has then exactly one terminal report and before that none, and every report agrees with its row |
| `CaptureSafety.EventsReproduceSources` | crates/x-sync/src/public_capture.rs:379-506 | in every reachable state folding the committed social events of an (owner, post) pair gives its source row |
| `CaptureSafety.SourcesLiveInOrder` | crates/x-sync/src/public_capture.rs:423-506 | per source id: Captured first and once, every Updated changes the digest, owner and post never change, nothing follows Removed |
| `CaptureSafety.OwnersAreIsolated` | crates/x-sync/src/public_capture.rs:257-345 | every step only appends events of the owner it acts for and leaves other owners' sources alone |
| `CaptureSafety.BystandersAreUntouched` | crates/x-sync/src/public_capture.rs:257-345 | along every run without a step for an owner, that owner's sources and event sequence stay exactly as they are |
| `CaptureSafety.LosingWorkerLeavesNoTrace` | crates/x-sync/src/public_capture.rs:302-345 | a worker whose capture is already closed commits nothing, whatever it resolved |
| `CaptureSafety.ClosedStaysClosed` | crates/x-sync/src/public_capture.rs:257-345 | along every run a closed capture's row never changes again |
| `CaptureRetries.AttemptsCountTries` | crates/x-sync/src/public_capture.rs:241-345 | in every run, whatever overlaps, a capture's attempts are the tries made while it was open |
| `CaptureRetries.BoundBreaksExactly` | crates/x-sync/src/public_capture.rs:211-254 | a transient failure leaves a capture open with max_attempts or more tries if and only if it was open and its claim counted a next try as allowed that the row no longer allows |
| `CaptureRetries.CurrentRunsAreBounded` | crates/x-sync/src/public_capture.rs:164-254 | in every run that handles current claims an open capture has made no try or fewer than max_attempts, and one reported as transient has made exactly max_attempts (counts beyond the integer column aside) |
| `CaptureRetries.TimelyRunsAreCurrent` | crates/x-sync/src/public_capture.rs:216-238 | while times never decrease, a claim handled before its lease ends is current |
| `CaptureRetries.LeasedRunsAreBounded` | crates/x-sync/src/public_capture.rs:30-36 | in every run in which times never decrease and each claim is handled before its lease ends, the tries of every capture are bounded so |
| `CaptureRetries.OverlappingLeasesExceedBound` | crates/x-sync/src/public_capture.rs:211-254 | for every bound from two up to the largest count the column holds, a legal run in which a second worker claims after the first lease and both defer, past max_attempts |
| `Outbox.ClampIsExact` | crates/x-persistence/src/outbox.rs:168-198 | the exponent clamp at 30 gives the unclamped wait for every count if and only if the delay is zero or the cap is at most 2^30 times the delay |
| `Outbox.WaitsAreBoundedAndDoubling` | crates/x-core/src/config.rs:401-413 | for every accepted configuration and count: the wait lies between delay and cap, never decreases, at most doubles, equals the unclamped formula, and is the cap from the fifteenth copy on |
| `Outbox.ScheduleOfRemoval` | crates/x-persistence/src/outbox.rs:147-198 | from its publication on, a removal waits its n-th wait after its n-th confirmed copy |
| `Outbox.DoublesExactly` | crates/x-persistence/src/outbox.rs:108-112 | for every accepted configuration a wait is twice the one before if and only if it is not the second one and the cap does not cut it |
| `Outbox.SecondWaitRepeatsFirst` | crates/x-persistence/src/outbox.rs:177-198 | the second wait equals the first, for every accepted configuration |
| `Outbox.Backoffs` | crates/x-capture/src/relay.rs:468-488 | the backoffs are 20 s, 40 s, 80 s, 160 s, then 5 min |
| `Outbox.OutboxTable.Enqueue` | crates/x-persistence/src/outbox.rs:86-106 | refuses a repeated id and an unlisted event type, otherwise stores a new row |
| `Outbox.OutboxTable.MarkRowPublished` | crates/x-persistence/src/outbox.rs:147-168 | publishes an unpublished row once and arms removals only |
| `Outbox.OutboxTable.RecordRowResend` | crates/x-persistence/src/outbox.rs:177-198 | counts and reschedules a published unacknowledged removal, nothing else |
| `Outbox.OutboxTable.Acknowledge` | crates/x-persistence/src/outbox.rs:206-226 | changes exactly the unacknowledged removal of that tenant and says whether it did |
| `OutboxOutcomes.AcknowledgesExactly` | crates/x-persistence/src/outbox.rs:206-226 | fills the two acknowledgement columns of the named row if that is an unacknowledged removal of this tenant, and changes nothing else |
| `OutboxOutcomes.OtherTenantsChangeNothing` | crates/x-persistence/src/outbox.rs:206-226 | an acknowledgement by another tenant changes no row |
| `OutboxOutcomes.AcknowledgedByItsTenant` | crates/x-persistence/src/outbox.rs:206-226 | in every run an acknowledged row is a removal, and its time and outcome come from an answer of its own tenant |
| `Outbox.OutboxTable.BackOff` | crates/x-capture/src/relay.rs:468-488 | backs off a row only on the side of publication it was offered from |
| `Outbox.OutboxTable.MarkUndeliverable` | crates/x-capture/src/relay.rs:448-464 | marks an unpublished row only |
| `Outbox.OutboxTable.Delete` | schema.sql:672-691 | a removal that is not acknowledged cannot be deleted |
| `OutboxOutcomes.DeletableExactly` | schema.sql:672-691 | a row can be deleted unless it is a removal without an acknowledgement |
| `Relay.OfferedInOrder` | crates/x-capture/src/relay.rs:275-330 | the rows of a pass go out in (created_at, id) order, as a prefix of the batch |
| `Relay.PassMakesProgress` | crates/x-capture/src/relay.rs:275-336 | a pass that does not offer a due row leaves it due and strictly shrinks the set of rows ahead of it that are due by the horizon, provided the backoff set by the refusal that ends the pass, if one does, ends beyond the horizon |
| `Relay.OfferedWithinCount` | crates/x-capture/src/relay.rs:275-336 | a due row is offered within one pass more than there are rows ahead of it that are due by the horizon, despite stop-at-first-failure and the batch limit, while no backoff set on a refused row meanwhile ends by the horizon and nothing is put ahead; accepted and undeliverable rows may take any time |
| `ResendProgress.PassCopiesOrShrinks` | crates/x-capture/src/relay.rs:327-433 | a pass whose fresh rows all went out sends a removal that is due again, or strictly shrinks the set of removals ahead of it that are due by the horizon, provided the backoff of a refused copy ends beyond the horizon and no removal accepted meanwhile is due again by the target's own resend time |
| `ResendProgress.CopiedWithinCount` | crates/x-capture/src/relay.rs:390-433 | a removal due again is sent within one such pass more than there are removals ahead of it that are due by the horizon, however long the passes take |
| `Relay.SelectFirst` | crates/x-capture/src/relay.rs:276-286 | the selection is the first rows of the order up to the limit |
| `OutboxOutcomes.FreshBatchIs` | crates/x-capture/src/relay.rs:275-286 | a pass takes rows that await a publish, the oldest by creation time and id, and leaves one out only when it holds 32 |
| `OutboxOutcomes.CopyBatchIs` | crates/x-capture/src/relay.rs:390-402 | it takes removals that await a copy, the earliest due by resend time and id, and leaves one out only when it holds 32 |
| `Relay.OutboxRelay.OfferFresh` | crates/x-capture/src/relay.rs:287-330 | the publish loop does what the fold over its replies does: permanent refusals go on, a transient one ends it |
| `Relay.OutboxRelay.ResendUnacknowledged` | crates/x-capture/src/relay.rs:390-433 | the resend loop does what the fold over its replies does, and never marks a row undeliverable |
| `OutboxOutcomes.PassRecords` | crates/x-capture/src/relay.rs:287-330 | each offered row is recorded by its own reply, column by column, and every other row stays |
| `OutboxOutcomes.PassEnds` | crates/x-capture/src/relay.rs:287-330 | a pass ends at its first transient refusal, unlisted type or last row, and its report counts confirmations, oversized payloads and that refusal |
| `OutboxOutcomes.CopiesRecord` | crates/x-capture/src/relay.rs:390-433 | each removal copied is recorded by its own reply, and every other row stays |
| `OutboxOutcomes.CopiesEnd` | crates/x-capture/src/relay.rs:390-433 | the resend loop ends at its first refusal of any kind, and its report counts the copies confirmed before it |
| `OutboxOutcomes.LateAnswersAreIgnored` | crates/x-capture/src/relay.rs:448-488 | a late first answer to a published row, and a late confirmed copy of a row no longer owed, change nothing |
| `OutboxOutcomes.SubjectsAre` | crates/x-capture/src/relay.rs:51-61 | the four event types and the one command type have these subjects, every other type none |
| `OutboxOutcomes.StuckExactly` | crates/x-capture/src/relay.rs:362-385 | stuck is: publishable, and refused three times, or once and more than 300 s old |
| `Relay.OutboxRelay.RefreshHealth` | crates/x-capture/src/relay.rs:362-385 | healthy exactly when no publishable row failed three times, or once and is older than 300 s; returns the previous verdict |
| `Relay.OutboxRelay.RunOnce` | crates/x-capture/src/relay.rs:275-336 | removals are sent again only after an undisturbed pass over the fresh rows, and an error leaves the health verdict alone |
| `OutboxSafety.RowsAreKept` | crates/x-persistence/src/outbox.rs:147-226 | every step keeps each row's envelope, publish and acknowledgement times are write-once, only an acknowledgement acknowledges, and only deletable rows disappear |
| `OutboxSafety.KeptUntilAcknowledged` | crates/x-capture/src/relay.rs:390-433 | along every run a published removal stays armed, unchanged, under its id exactly until a step acknowledges it |
| `OutboxSafety.CopiesAreSpaced` | crates/x-persistence/src/outbox.rs:177-198 | an owed removal is rescheduled only by a confirmed copy, to between delay and cap later |
| `OutboxSafety.NeverSelectedAgain` | crates/x-capture/src/relay.rs:390-402 | once acknowledged, a row is never selected for another copy in any later state |
| `OutboxSafety.CopiesAreIdentical` | crates/x-capture/src/relay.rs:287-300 | every message ever handed to the broker is the stored envelope of its row, so all copies of a row are equal |
| `OutboxSafety.NeverUnmappable` | crates/x-capture/src/relay.rs:51-61 | no pass ever holds a row without a subject |
| `Credentials.OAuthService.LockNewest` | crates/x-persistence/src/credentials.rs:160-183 | finds the active row of the account with the latest creation time and, among equals, the largest id, or none exactly when there is none |
| `Credentials.OAuthService.Refresh` | crates/x-oauth/src/service.rs:218-322 | every branch of a refresh ends in the state, result and provider contact of its specification |
| `Credentials.CurrentTokenOutcome` | crates/x-oauth/src/service.rs:242-322 | with the current token: a rejection expires exactly this row, payload and retired hash kept, and asks the account to authorize again; an unreachable provider changes nothing; a rotation stores the new tokens, now + expiresIn and the old token's hash, and no account or other row |
| `Credentials.OtherTokenOutcome` | crates/x-oauth/src/service.rs:242-269 | any other token calls nobody; the retired one revokes and empties the row, every other changes nothing |
| `Credentials.OAuthService.Revoke` | crates/x-oauth/src/service.rs:329-370 | absent credentials succeed, a reachable provider scrubs the row, an unreachable one leaves everything |
| `RotationSafety.RetiredIsPredecessor` | crates/x-persistence/src/credentials.rs:260-287 | in every reachable state the stored token ends the row's chain of tokens and the retired hash is that of its immediate predecessor |
| `RotationSafety.PresentationIsExact` | crates/x-oauth/src/service.rs:242-269 | a presented token is current exactly if it is the last of the chain, a replay exactly if it is the one before and differs from the last, and stale otherwise |
| `RotationSafety.ReplayScrubs` | crates/x-oauth/src/service.rs:246-265 | a replay scrubs and revokes its row, marks the account, calls nobody and touches no other row |
| `RotationSafety.StaleChangesNothing` | crates/x-oauth/src/service.rs:266-268 | a stale token can only end its session |
| `RotationSafety.RotationCannotMiss` | crates/x-persistence/src/credentials.rs:260-287 | while the lock is held the guarded rotation always lands and extends the chain by the new token |
| `RotationSafety.NeverActiveAgain` | crates/x-persistence/src/credentials.rs:295-349 | along every run a row that is no longer active never changes again |
| `RotationSafety.ActivationLeavesOneActive` | crates/x-persistence/src/bookmark_write_authorizations.rs:69-124 | activating a write grant leaves its new row as the account's only active one, expires those that were active and touches no other row |
| `RotationSafety.CallsSendTheCurrentToken` | crates/x-oauth/src/service.rs:270-271 | a refresh only ever sends the row's current token to the provider |
| `RotationSafety.SessionRefinesRefresh` | crates/x-oauth/src/service.rs:223-322 | the steps of an undisturbed session compose to the sequential refresh, with a provider call exactly when that makes one |
| `RotationSafety.ReissuedTokenIsNotReplay` | crates/x-oauth/src/service.rs:242-269 | a legal run (exchange, refresh answered with the same refresh value) after which presenting the predecessor can only call the provider: neither the scrub nor the refusal is open |
| `LegacySources.ParseCsv` | crates/x-sync/src/legacy_transition/sources.rs:369-419 | the character loop computes the specified state machine for every input |
| `LegacySources.ParseInvertsRender` | crates/x-sync/src/legacy_transition/sources.rs:369-419 | reading back any rendering of section 2 of RFC 4180 (quoted or bare fields, LF or CRLF, with or without final terminator) gives the values written if and only if it does not end in an unterminated lone empty field |
| `LegacySources.ParseInvertsQuoted` | crates/x-sync/src/legacy_transition/sources.rs:369-419 | fully quoted, terminated documents always come back, whatever quotes, commas and line breaks their fields hold |
| `LegacySources.LoneEmptyFieldIsDropped` | crates/x-sync/src/legacy_transition/sources.rs:414-417 | the concrete document whose row is lost |
| `LegacySources.UnclosedQuoteIsRefused` | crates/x-sync/src/legacy_transition/sources.rs:411-413 | a quote that never closes is refused after any rows and any fields of its row |
| `LegacySources.TextAfterQuoteIsRefused` | crates/x-sync/src/legacy_transition/sources.rs:407-408 | text after a closing quote is refused after any rows and any fields of its row |
| `LegacySources.FinishBatch` | crates/x-sync/src/legacy_transition/sources.rs:473-497 | accepts exactly when equal keys have equal digests, and then keeps exactly the first record of each key, in key order |
| `ArticleUrls.TakeApartInvertsAssemble` | crates/x-sync/src/articles.rs:368-431 | taking apart a link put together from valid parts gives those parts |
| `ArticleUrls.AssembleInvertsTakeApart` | crates/x-sync/src/articles.rs:368-431 | every link that can be taken apart is its valid parts put together |
| `ArticleUrls.NormalizationIsIdempotent` | crates/x-sync/src/articles.rs:368-412 | a normal form normalizes to itself |
| `ArticleUrls.NormalFormsAgreeExactly` | crates/x-sync/src/articles.rs:368-458 | two external links share a normal form if and only if they differ at most in scheme or host case, default port, empty path, fragment, component order, and empty or tracking components |
| `NormalForms.NormalizedExactly` | crates/x-sync/src/articles.rs:368-431 | a text has a normal form if and only if it is well-formed parts put together with a host outside x.com, twitter.com and t.co |
| `NormalForms.NormalFormKeepsComponents` | crates/x-sync/src/articles.rs:442-458 | each component stands in the normal form as often as it was written if it is non-empty and its case-folded key neither starts with utm_ nor is fbclid or gclid, and never otherwise; the rest is in byte order |
| `NormalForms.NormalFormKeepsPort` | crates/x-sync/src/articles.rs:368-412 | the port is dropped if and only if there is none or it is 80 under http or 443 under https, and otherwise kept as the same number |
| `NormalForms.NormalFormFolds` | crates/x-sync/src/articles.rs:368-412 | scheme and host are case folded, an empty path becomes a slash, and the fragment goes |
| `NormalForms.WellFormedExactly` | crates/x-sync/src/articles.rs:368-431 | the accepted schemes, hosts, ports, paths, queries and fragments, written out |
| `NormalForms.ProviderHostsExactly` | crates/x-sync/src/articles.rs:433-440 | the refused hosts, written out |
| `NormalForms.TrackingExactly` | crates/x-sync/src/articles.rs:455-458 | the dropped keys, written out |
| `NormalForms.DigitsCountInTens` | crates/x-sync/src/articles.rs:414-420 | the digits of a port count in tens, so 80 and 443 are themselves |
| `NormalForms.LinksLookLikeThis` | crates/x-sync/src/articles.rs:368-431 | the place of every separator of a link |
| `ArticleUrls.DroppedComponentsDoNotMatter` | crates/x-sync/src/articles.rs:442-458 | queries with equal counts of every other component retain the same components |
| `ArticleUrls.SelectExternalExpandedUrls` | crates/x-sync/src/articles.rs:349-366 | keeps exactly the first link of each normal form in input order |
| `LinkSelection.FirstsAreTheForms` | crates/x-sync/src/articles.rs:349-366 | the firsts have every normal form that occurs, and none twice |
| `Text.SortOrderless` | crates/x-sync/src/articles.rs:442-453 | sorted components agree exactly when the components do, as multisets |

## Left out

- Audit events, evidence columns, gauges, statistics overflow and error wording: they add rows but no property.
- HTTP, NATS, TLS, the CLI, configuration loading and service start-up; encryption and hashing are abstract.
- Normalization of provider payloads: a page is a non-empty list of post identities with a continuation token.
- SQL integer widths, time zones and float rounding; waits and delays are whole seconds.
- Read-class budget windows in the interleaved machine: snapshot and scan loops take the budget answer as an input.
- `ArchiveProtocol` leaves the admission verdict free, because admission reads several rows one after another;
  `Writeback.DryRunPredictsLive` uses the exact verdict on one committed state.
- The bookmark lane's social sources and compliance takedowns, and linked-article capture rows.
- At most one active credential per account: a code exchange inserts an active row beside older ones, so rotation is
  stated per row.
- The rejected intake commands other than one without a tenant, and how a permalink yields its status id.
- Legacy source shape checks, SQLite reading and checklist output.
- Routing of scheduled scan commands.
