# LUWI daemon and bridges: a verified model

This project models the parts of the LUWI daemon and its command-line bridges that have to be right
under crashes, interleavings and repeated work, and proves what they promise. Protocols whose point
is a crash or another caller between two awaits are state machines, and their theorems speak of every
run. Loops and objects that change in place are methods and classes, each proved against a
specification whose meaning is then proved in lemmas. `dafny verify dfyconfig.toml` checks everything.

| File | What it models |
|---|---|
| `Prelude.dfy`, `RepositoryListing.dfy` | options, hash records (`record[path] ?? null`), distinctness and counting; what a list call shows |
| `ConfigPolicy.dfy`, `ConfigProtocol.dfy` | applying an approved configuration plan as a machine: one action is one durable step, its failure with or without effect, a crash, an outside edit, or a step of `reconcile`; operations and passes run beside each other in any number |
| `ConfigSafety.dfy`, `ConfigRecovery.dfy`, `ConfigHistory.dfy`, `ConfigCrash.dfy` | what every step keeps, what receipts mean over every run, which earlier steps an exception goes back to, and what a pass makes of a crash or a failure |
| `ConfigProgress.dfy`, `ConfigReturn.dfy` | that undisturbed operations and passes come to their end, and when an operation returns normally |
| `ConfigDaemon.dfy`, `ConfigService.dfy`, `ConfigApply.dfy` | the daemon with its calls in progress; `reconcile` and `applyPlan` as imperative code beside any other calls, whose history is proved to be a run of that machine |
| `ConfigWitness.dfy`, `ConfigFalseFailure.dfy`, `ConfigOverlapWitness.dfy` | three concrete runs in which a receipt says something untrue |
| `ArtifactCheck.dfy` | the comparison of a stored artifact with the approved plan, and rollback plans |
| `FileLocks.dfy`, `FileEngine.dfy` | the file engine: interleaved operations under per-file locks; apply, rollback, snapshots, pruning |
| `DriftScan.dfy` | drift records for managed targets |
| `GraphSearch.dfy`, `ProjectionCoalescing.dfy`, `FileChanges.dfy` | bounded graph search, coalesced reprojection, the file-change aggregate |
| `InboxBridges.dfy`, `InboxBridgesWitness.dfy`, `DeepSeekLifecycle.dfy` | the inbox bridges with crashes and redelivery; start, stop and shutdown |
| `RecoveryCoordinator.dfy`, `RecoveryCycle.dfy` | daemon ownership recovery |
| `Framing.dfy` | the bounded newline-delimited JSON reader |
| `CanonicalReconcile.dfy` | bringing the Redis projection back to the canonical files |
| `KnowledgeGraph.dfy`, `GraphifyObserver.dfy` | the two reductions of a graphify document |

## Where the code does less than it seems

Each of these is stated with the exact condition under which the code is right, and the ones about
configuration, bridges and artifacts also with a concrete run or input.

- `reconcile` can record a completion that never happened. A receipt without recorded hashes matches
  a disk on which every target is absent, because missing hashes are read as null
  (`CompletionIsTrueExactlyWhen`, `FalseCompletion`). A crash before the preconditions
  are checked is one way to get there (`EarlyCrashOutcome`).
- `reconcile` can record "interrupted before commit" for an operation that is alive and renames its files:
  nothing keeps a pass and an `applyPlan` apart, and the pass looks at the files before it moves the plan
  and writes the receipt. Without edits from outside, and when no plan intends the old content, the mark
  is true exactly when no running operation wrote a target since the pass looked at it
  (`FailedMarkTrueExactlyWhen`, `FailedBesideARename`); in particular when no operation was in progress
  since then (`FailedMarkTrueBesideNobody`).
- `applyPlan` can record a failure after renaming every file. When the Redis completion fails and the
  receipt that should say so cannot be written either, the outer catch clause sees neither a committed
  nor a pending receipt and takes its last branch (`FailedUntouchedExactlyWhen`, `FalseFailure`).
- The rollback branch of `assertArtifactMatchesPlan` looks for duplicates among the changes but not
  among the snapshot's files (`RollbackCoversExactlyWhen`, `DuplicateStandsIn`). The engine's own locks
  then refuse such a request (`DuplicateIsRefused`).
- Two recoveries overlap exactly when a recovery calls `request` from its synchronous part, before
  `active` has been assigned (`OverlapExactlyWhen`).
- Two reprojections overlap when a background runner starts a drain late over another one; the tracker
  in `background-work.ts` never does (`OverlapNeedsLateStart`, `LateStartOverlaps`).
- Two live bridges on one inbox can start the same message twice, because a repeated transition is
  reported as unchanged and not refused. A message is started at most once as long as no two bridges hold
  it before anyone has begun it (`StartedAtMostOnce`), and every run that breaks this can be continued to
  a second start (`OverlapCanStartTwice`, `TwoBridgesStartTwice`).
- List calls return at most 1000 entries. Beyond that, the next run of `reconcileCanonicalState` or
  `scanDrift` can end with an exception (`NextRunExactlyWhen`, `NextScanExactlyWhen`). A drift scan that
  completes beyond the limit leaves in place every stale record that its listing did not show
  (`ExactlyTheDrifting`, `RestMeans`). Stale project bindings that no listing shows
  are left in place too (`TrackedExactly`, `SecondRunQuiet`): for good, when a full list of canonical
  bindings sorts before them (`HiddenForGood`).
- A project binding that moved to another project keeps its entry in the index it left
  (`ListedExactlyWhen`).
- A prefix of a transcript and then the whole count like one read of the whole exactly when the later
  changes are strictly newer, session and file by file (`PrefixThenWhole`).
- The comment in `graphify-knowledge.ts:155` speaks of links whose ends are both known; the code counts
  every known end, and so does the model. The comment in `graphify-observer.ts:82` says that a community
  is named when all nodes of a file are in it; nodes without a community do not count against it
  (`CommunityExactlyWhen`).
- `Failed.messages` in the framing model are the messages enqueued before the failure. `controller.error`
  discards those that nobody has read yet, so what a consumer sees of them depends on the chunking.

## Model

| member | source | states |
|---|---|---|
| ConfigPolicy.MatchMeaning | packages/runtime/src/config-policy.ts:89-105 | the comparison certifies that every target is at its recorded hash, or, with none recorded, only that every target is absent |
| ConfigPolicy.DecideMeans | apps/daemon/src/config-control-service.ts:1303-1380 | the decision for a listed receipt, case by case: failed, finished, or left for review with which code |
| ConfigSafety.RunInv | apps/daemon/src/config-control-service.ts:758-1145 | in every reachable state, with any operations and passes beside each other: receipts carry their plan's targets and hashes, running operations share no target, files before the rename count hold the new content and the others the old one |
| ConfigRecovery.ReconcileFailedMeansUnchanged | apps/daemon/src/config-control-service.ts:1313-1361 | over every run: a receipt that `reconcile` marks failed has every target at its precondition hash, except where an outside edit or a running operation changed the file since the pass looked at it, and those last hold what some plan intends |
| ConfigRecovery.FailedMarkTrueExactlyWhen | apps/daemon/src/config-control-service.ts:1336-1356 | without outside edits, and when no plan intends the old content, such a mark is true exactly when no running operation wrote a target since the pass looked at it |
| ConfigOverlapWitness.FailedBesideARename | apps/daemon/src/app.ts:1405-1447 | a concrete run in which a pass beside a live operation marks it failed while the target holds the new content |
| ConfigRecovery.ReconcileCompletedMeansRecorded | apps/daemon/src/config-control-service.ts:1362-1403 | a receipt it marks completed has its plan applied by that operation, every managed target recorded unless somebody rewrote it since, and every target at the recorded hash unless somebody changed it since |
| ConfigRecovery.CompletionIsTrueExactlyWhen | apps/daemon/src/config-control-service.ts:1362-1376 | on the targets nobody changed since, such a completion is a true one exactly when hashes had been recorded or the plan only deletes them |
| ConfigWitness.FalseCompletion | apps/daemon/src/config-control-service.ts:1362-1403 | a concrete run with a crash and a hand-deleted file that ends in an untrue completion |
| ConfigRecovery.FinishedPassFilesEverything | apps/daemon/src/config-control-service.ts:1277-1416 | a finished pass leaves every listed receipt completed, failed or flagged for review, as it reports, unless somebody else has written it since |
| ConfigRecovery.LostMeansOthers | apps/daemon/src/config-control-service.ts:1277-1416 | and that somebody is the operation itself or another pass at the same receipt, while this pass was on |
| ConfigHistory.PassNotedSince | apps/daemon/src/config-control-service.ts:1290-1402 | every exception in these statements goes back to an earlier step, taken while the pass was on: an edit from outside, a write of that file by a running operation, or somebody else's write of that managed target |
| ConfigHistory.FailedMarkTrueBesideNobody | apps/daemon/src/config-control-service.ts:1336-1356 | when no operation was in progress and no file edited since the pass began, or since it came to this receipt, a failed mark is true without exception |
| ConfigRecovery.ApplyCompletedMeansIntended | apps/daemon/src/config-control-service.ts:1057-1090 | a receipt that `applyPlan` marks completed has every target at its intended hash, edits from outside aside, its plan applied by this operation, and its managed targets recorded unless a pass rewrote them |
| ConfigHistory.CompletedMarkTrueAlone | apps/daemon/src/config-control-service.ts:1057-1090 | without exception when no file was edited and no pass was on since the operation began |
| ConfigHistory.MeddledMeansPass | apps/daemon/src/config-control-service.ts:1277-1416 | only a pass ever writes the receipt of a running operation or moves its plan |
| ConfigRecovery.FailedUntouchedExactlyWhen | apps/daemon/src/config-control-service.ts:1070-1134 | an operation it marks failed renamed nothing exactly when at no earlier step of the run the receipt write after a failed completion was lost; otherwise it renamed everything |
| ConfigFalseFailure.FalseFailure | apps/daemon/src/config-control-service.ts:1070-1134 | a concrete run that ends with plan and receipt failed and the new content in place |
| ConfigRecovery.OneWriterPerPlan | apps/daemon/src/config-control-service.ts:819-834 | an approval is used once: the files of one plan are written by one operation only, over every run |
| ConfigRecovery.SettledForever | apps/daemon/src/config-control-service.ts:1281-1289 | a settled receipt is never rewritten by any later operation, pass or crash |
| ConfigCrash.CrashOutcome | apps/daemon/src/config-file-engine.ts:445-480 | after a crash inside the engine the durable state calls for failure if the receipt is early and no file that the plan changes was renamed, for review if one had still to be, and for completion otherwise |
| ConfigCrash.EarlyCrashOutcome | apps/daemon/src/config-control-service.ts:819-853 | after a crash before the precondition check, for failure exactly when all targets are at their preconditions and the plan approved or applying, for completion, although nothing was done, exactly when they are not but all are absent and the plan applying, and for review otherwise |
| ConfigCrash.PassFilesDecision | apps/daemon/src/config-control-service.ts:1277-1416 | a pass right after a crash, undisturbed, files each pending receipt under what the durable state called for, when no receipt of the same plan is listed earlier |
| ConfigCrash.CrashThenPass | apps/daemon/src/config-control-service.ts:1277-1416 | for a crash inside the engine: failed, flagged or completed by the receipt's state and by whether a changing file was renamed or had still to be |
| ConfigCrash.PassTakesUp | apps/daemon/src/config-control-service.ts:1281-1289 | a pass takes up exactly the receipts in one of six states, those left for review among them |
| ConfigCrash.FailureThenPass | apps/daemon/src/config-control-service.ts:1057-1134 | after a failure at any step past the first rename, the throwing Redis completion among them, an undisturbed pass completes the receipt and applies the plan by that operation when nothing was left to rename, and leaves the receipt for review otherwise |
| ConfigCrash.UncertainThenPass | apps/daemon/src/config-control-service.ts:819-853 | after an uncertain transition it fails the receipt exactly when nothing was touched and the plan is approved or applying |
| ConfigProgress.UndisturbedApply | apps/daemon/src/config-control-service.ts:758-1090 | an operation that nobody disturbs, on an approved plan whose targets are at their preconditions, completes: receipt, plan, files and managed targets |
| ConfigProgress.UndisturbedPass | apps/daemon/src/config-control-service.ts:1277-1416 | a pass that nobody disturbs comes to the end of its list |
| ConfigProgress.PassFailure | apps/daemon/src/config-control-service.ts:1336-1402 | an exception while a receipt is being failed, or the refused transition of its plan, leaves it for review in the same pass; any other exception, or a refused completion, ends the pass |
| ConfigReturn.ReturnsExactlyWhen | apps/daemon/src/config-control-service.ts:758-1145 | over every run: an operation returns normally exactly when no step of its own threw and the approval was unused, the targets at their hashes and the plan open to completion when it asked |
| ConfigReturn.FailureBeforeRename | apps/daemon/src/config-control-service.ts:1126-1136 | a failure before the first rename goes on to mark plan and receipt failed, with the recorded hashes as far as they had been set, and touches no file |
| ConfigReturn.FailureForReview | apps/daemon/src/config-control-service.ts:1091-1125 | any other failure goes on to leave the receipt for review under the code of the await that failed, and the plan as it was |
| ConfigReturn.FailPlanIsSwallowed | apps/daemon/src/config-control-service.ts:408-425 | the compare-and-set that fails the plan is attempted once, and the failed receipt written whatever comes of it |
| ConfigReturn.ThrownEffect | apps/daemon/src/config-control-service.ts:758-1145 | an await that throws has done nothing, or exactly what it would have done had it returned |
| ConfigCrash.DecisionByCount | apps/daemon/src/config-control-service.ts:1309-1399 | the decision for one receipt as a function of how many targets were renamed |
| ConfigDaemon.ForeignKeeps | packages/runtime/src/runtime-readiness.ts:49-71 | whatever other calls do while one waits, it finds itself where it was; only receipts of its own that it filed can be lost |
| ConfigDaemon.Daemon.Elsewhere | packages/runtime/src/runtime-readiness.ts:49-71 | any number of steps of other operations, passes and editors happen in between, and the history stays a run |
| ConfigService.Reconcile | apps/daemon/src/config-control-service.ts:1277-1416 | beside any other calls, the loop is a run of the machine; it takes up exactly the receipts in one of the six states, success leaves each of them completed or failed, and review names exactly those left for it, receipts that others wrote meanwhile aside; it throws only where its own last step did |
| ConfigService.ReconcileOne | apps/daemon/src/config-control-service.ts:1290-1402 | the branches of the loop body agree with the machine's decision, and file the receipt on the list they report |
| ConfigService.FailInterrupted | apps/daemon/src/config-control-service.ts:1336-1360 | whatever throws inside the `try` flags the receipt for review |
| ConfigApply.ApplyPlan | apps/daemon/src/config-control-service.ts:758-1145 | beside any other calls and whatever fails, the history is a run of the machine and the targets are let go; without approval and its token nothing changes; it begins exactly when nothing was refused, the targets are free and the approval has not expired, and otherwise there is no receipt; it returns normally exactly when its own last step was the return of the callback, and then the completion was true at the step that recorded it |
| ConfigApply.RunEngine | apps/daemon/src/config-file-engine.ts:369-491 | the engine's writes, renames and catch clause take the operation where the outer catch clause expects it |
| ConfigApply.Commit | apps/daemon/src/config-control-service.ts:1033-1090 | from committed files to the completed receipt, with the nested catch clause of the Redis completion |
| ConfigApply.Catch | apps/daemon/src/config-control-service.ts:1091-1141 | the outer catch clause takes the branch the machine prescribes for each error and receipt state |
| ArtifactCheck.AssertArtifactMatchesPlan | apps/daemon/src/config-control-service.ts:233-316 | accepts exactly what the branch for the plan's kind describes, for the plan and adapter named in the artifact |
| ArtifactCheck.RenderAcceptedExactlyWhen | apps/daemon/src/config-control-service.ts:233-271 | for a render or optimization plan: accepted exactly when the changes, none of them a deletion, are among the files as path, mode and content, as many, and no file path repeats |
| ArtifactCheck.ImportAcceptedExactlyWhen | apps/daemon/src/config-control-service.ts:272-287 | for an import: exactly when its one file is the one change and its settings hold no secret |
| ArtifactCheck.RollbackAcceptedExactlyWhen | apps/daemon/src/config-control-service.ts:288-315 | for a rollback: exactly when the snapshot is the plan's own, of its agent, project and adapter, and its files, turned into updates and deletions, are among the changes, as many, and no change path repeats |
| ArtifactCheck.CheckRender | apps/daemon/src/config-control-service.ts:248-271 | accepts exactly the artifacts without snapshot and settings, with one fitting file per change and no path twice |
| ArtifactCheck.CheckRollback | apps/daemon/src/config-control-service.ts:288-315 | accepts exactly the plan's own snapshot, for its agent, project and adapter, whose every file fits a change, of as many distinct changes |
| ArtifactCheck.AcceptedWritesApproved | apps/daemon/src/config-control-service.ts:785-799 | for every kind of plan, an accepted artifact writes exactly the approved targets with the approved contents; for a rollback exactly when the snapshot names no path twice |
| ArtifactCheck.RenderWritesApproved | apps/daemon/src/config-control-service.ts:785-792 | an accepted artifact writes exactly the approved changes, no more and no fewer |
| ArtifactCheck.RollbackCoversExactlyWhen | apps/daemon/src/config-control-service.ts:301-315 | an accepted rollback covers every approved change exactly when the snapshot names no path twice |
| ArtifactCheck.DuplicateStandsIn | apps/daemon/src/config-control-service.ts:301-315 | a concrete accepted snapshot that leaves a change uncovered |
| ArtifactCheck.CreateRollbackPlan | apps/daemon/src/config-control-service.ts:1160-1208 | one change per stored file, an update where it existed and a deletion where it did not, with the hash that the last read for a path observed as its precondition |
| ArtifactCheck.CreatedPlanAcceptedExactlyWhen | apps/daemon/src/config-control-service.ts:1171-1187 | such a plan is later accepted exactly when the snapshot names no path twice |
| FileLocks.Serializable | apps/daemon/src/config-file-engine.ts:369-491 | in every interleaving, when nothing is half written the files are those of a legal serial run of exactly the operations that succeeded |
| FileLocks.AloneAt | apps/daemon/src/config-file-engine.ts:369-491 | a serial run applies one request as: every target as asked for, every other file as it was |
| FileLocks.RefusedOnlyFor | apps/daemon/src/config-file-engine.ts:206-242 | an operation turns back only at a taken lock, at a target not at its recorded hash, or because its snapshot was refused |
| FileLocks.EndsAsItTurned | apps/daemon/src/config-file-engine.ts:199-204 | it ends as a success after its last write and as a refusal otherwise, and not before its locks are gone |
| FileLocks.UndisturbedSucceeds | apps/daemon/src/config-file-engine.ts:369-491 | with free locks and targets at their hashes, undisturbed, it succeeds |
| FileLocks.ExclusiveTargets | apps/daemon/src/config-file-engine.ts:206-242 | two operations past their checks never share a target |
| FileLocks.DoneHoldsNothing | apps/daemon/src/config-file-engine.ts:199-204 | a finished or refused operation holds no lock |
| FileLocks.ReleasesOnlyItsOwn | apps/daemon/src/config-file-engine.ts:238-241 | no step of one operation takes away a lock of another |
| FileLocks.DuplicateIsRefused | apps/daemon/src/config-file-engine.ts:215-230 | a request that names a target twice never gets past its locks |
| FileLocks.OnlyCommittedWrite | apps/daemon/src/config-file-engine.ts:493-624 | files change only by an operation counted as a success, at a target it has locked |
| FileEngine.Engine.AcquireFileLocks | apps/daemon/src/config-file-engine.ts:206-242 | succeeds exactly when no path is locked or repeated, and otherwise gives back exactly what it took |
| FileEngine.Engine.PruneSnapshots | apps/daemon/src/config-file-engine.ts:258-301 | deletes exactly the recognised snapshots beyond the retained set |
| FileEngine.Engine.Apply | apps/daemon/src/config-file-engine.ts:369-491 | the whole new disk and outcome, refusals included, as specified |
| FileEngine.AppliedExactlyWhen | apps/daemon/src/config-file-engine.ts:369-390 | an apply succeeds exactly when no target is named twice, every lock is free and asked for once, and every target is at its recorded hash; a refusal carries the code of the first of these that fails and leaves the whole disk as it was |
| FileEngine.AppliedMeans | apps/daemon/src/config-file-engine.ts:391-491 | what a successful apply leaves: every target as asked for, other files and locks as they were, and a snapshot that recorded each target with a copy of what was there |
| FileEngine.Engine.VerifySnapshotPayloads | apps/daemon/src/config-file-engine.ts:339-366 | reports the first payload that is missing or altered, or returns every payload to be written back, before anything is written |
| FileEngine.Engine.WritePayloads | apps/daemon/src/config-file-engine.ts:563-598 | writes the payloads it was given and removes what was absent; one that is not there stops it with the refusal for the files already written |
| FileEngine.VerifiedWritesAll | apps/daemon/src/config-file-engine.ts:514-598 | verified payloads are never missing, and writing them gives what the manifest recorded |
| FileEngine.Engine.Rollback | apps/daemon/src/config-file-engine.ts:493-624 | the whole new disk and outcome of a rollback, as specified |
| FileEngine.RolledBackExactlyWhen | apps/daemon/src/config-file-engine.ts:493-562 | a rollback succeeds exactly when every lock is free and asked for once, every target is at its expected hash and every payload is there unaltered; a refusal carries the code of the first of these that fails and leaves the whole disk as it was |
| FileEngine.RollbackRestores | apps/daemon/src/config-file-engine.ts:493-624 | every target returns to its snapshot content, absence included, and no other file changes, even when pruning deletes the payloads before they are written back |
| FileEngine.RoundTrip | apps/daemon/src/config-file-engine.ts:369-624 | apply then rollback restores the files, and rolling that back restores the applied state, for any retention of at least one |
| FileEngine.PruningKeepsNewest | apps/daemon/src/config-file-engine.ts:258-301 | exactly as many snapshots are kept as the retention count allows, nothing kept is older than something deleted, and payloads go with their snapshots |
| FileEngine.RetainsUnique | apps/daemon/src/config-file-engine.ts:258-301 | the retained set is determined by the snapshots, the current one and the count |
| DriftScan.Repository.ScanDrift | apps/daemon/src/config-control-service.ts:1212-1275 | all records after a scan; it completes exactly when no record it must write is out of sight |
| DriftScan.ExactlyTheDrifting | apps/daemon/src/config-control-service.ts:1219-1273 | a completed scan leaves a record exactly for each managed target whose observed hash differs, if and only if the earlier records fitted one list call; each such record has the target's owner and hashes in any case, and the earlier detection time or that of the scan |
| DriftScan.FirstDetectionKept | apps/daemon/src/config-control-service.ts:1238-1238 | a record that persists through a completed scan keeps its first detection time |
| DriftScan.RescanChangesNothing | apps/daemon/src/config-control-service.ts:1212-1275 | of two completed scans of one state, at any times, the second changes no record if and only if its listing shows none but those of drifting targets |
| DriftScan.RestMeans | apps/daemon/src/config-control-service.ts:1212-1275 | once a completed scan changes nothing the records are exactly those of the drifting targets, unless exactly as many drift as one list call returns |
| DriftScan.NextScanExactlyWhen | packages/redis/src/control-plane-repository.ts:171-184 | the next scan completes exactly when fewer than a thousand records sort before that of each drifting target; after a table that fitted, exactly when the records fit again |
| GraphSearch.GraphPath | apps/daemon/src/intelligence-service.ts:1873-1936 | a found path is real and has the fewest edges, not found means none within the depth, no answer within it cut off and the visit budget kept, a budget error has its reason; it ends on every graph |
| GraphSearch.BudgetMeans | apps/daemon/src/intelligence-service.ts:1898-1910 | the budget is spent exactly when an answer within the depth was cut off or the answers examined more than ten thousand edges together |
| GraphSearch.GraphSubgraph | apps/daemon/src/intelligence-service.ts:1937-1987 | a tree rooted at the start within depth and node limit; not truncated, exactly when no limit was reached and no answer was cut off, means exactly what is reachable |
| GraphSearch.NoShorterPath | apps/daemon/src/intelligence-service.ts:1873-1936 | every path to a node outside a level has more edges than the level |
| ProjectionCoalescing.CoalescedAndServed | apps/daemon/src/intelligence-service.ts:1344-1379 | at most one reprojection at a time and never more than requests, and every request that was not turned away is followed by one that began after it, unless one threw or the stop signal came in between |
| ProjectionCoalescing.EveryRequestServed | apps/daemon/src/intelligence-service.ts:1344-1379 | over actions: between such a request and the next rest a reprojection starts, or one throws, or the stop signal is given |
| ProjectionCoalescing.OneFollowUpServesAll | apps/daemon/src/intelligence-service.ts:1344-1379 | all requests during a run are served by one follow-up, which starts when that run ends |
| ProjectionCoalescing.OverlapNeedsLateStart | apps/daemon/src/intelligence-service.ts:1344-1379 | two runs overlap only after a drain was started late |
| ProjectionCoalescing.LateStartOverlaps | apps/daemon/src/intelligence-service.ts:1344-1379 | and the first late start does overlap |
| ProjectionCoalescing.StopIsHeeded | apps/daemon/src/intelligence-service.ts:1344-1379 | no reprojection starts under the stop signal, and a drain that ends leaves nothing pending |
| ProjectionCoalescing.NothingAfterStop | apps/daemon/src/intelligence-service.ts:1344-1379 | after the stop signal no reprojection starts until it is taken back |
| ProjectionCoalescing.HeardAtOnce | apps/daemon/src/intelligence-service.ts:1344-1379 | a request is always heard, and an accepted one starts a reprojection when none is running |
| FileChanges.Aggregate | apps/daemon/src/intelligence-service.ts:1442-1463 | one group per key in order of first appearance, with its times and the tool of the first newest change |
| FileChanges.FirstsInOrder | apps/daemon/src/intelligence-service.ts:1442-1463 | of two groups the one that comes first has a change before every change of the other |
| FileChanges.Repository.ProjectSessionFileChanges | apps/daemon/src/intelligence-service.ts:1437-1496 | the whole new store; the result is the number of records that changed |
| FileChanges.RecordMeans | apps/daemon/src/intelligence-service.ts:1464-1496 | the record of a key after a batch: unchanged without a change of that key; otherwise counted up by the changes after its last time, its last time the latest ever, its first time the earliest of the first batch, its tool that of the first newest change unless none was new |
| FileChanges.ReplayWritesNothing | apps/daemon/src/intelligence-service.ts:1469-1474 | reading a batch again leaves the store as it is |
| FileChanges.PrefixThenWhole | apps/daemon/src/intelligence-service.ts:1469-1488 | a prefix and then the whole leave what the whole alone leaves exactly when later changes are strictly newer, from any stored state |
| InboxBridges.StartedAtMostOnce | apps/cli/src/native-bridge.ts:191-268 | with crashes, restarts, redelivery and lost replies anywhere, the executor or prompt starts at most once per message while no two bridges hold one that nobody has begun |
| InboxBridges.OverlapCanStartTwice | packages/redis/src/function-library.ts:1220-1222 | every run in which two bridges hold such a message can be continued to one that starts it twice |
| InboxBridges.LoneBridgeStartsOnce | apps/cli/src/native-bridge.ts:270-292 | one live bridge at a time is enough |
| InboxBridgesWitness.TwoBridgesStartTwice | packages/redis/src/function-library.ts:1220-1222 | a concrete run in which two live bridges both start one message |
| InboxBridges.ReturnedMeansTerminal | apps/cli/src/native-bridge.ts:191-268 | when `processRequest` returns normally after reaching processing the message is terminal, a stopping DeepSeek bridge excepted |
| InboxBridges.NativeOnlyFails | apps/cli/src/native-bridge.ts:168-183 | whatever a native bridge itself completes, it completes as failed |
| InboxBridges.RespondsExactlyWhen | apps/cli/src/deepseek-bridge.ts:78-114 | a bridge asks for `responded` exactly after a prompt that ended its turn with text |
| InboxBridges.UndisturbedServes | apps/cli/src/native-bridge.ts:191-268 | a bridge that nobody disturbs starts a waiting message once and ends it: failed by a native bridge, responded, rejected or failed by a DeepSeek bridge |
| InboxBridges.UndisturbedFailsOrphan | apps/cli/src/native-bridge.ts:191-268 | a message left in processing is failed and not started again |
| InboxBridges.ThrowsExactlyWhen | apps/cli/src/native-bridge.ts:168-268 | `processRequest` throws exactly where a call throws uncaught, where a completion threw and the message is not terminal, or after a run that threw |
| InboxBridges.LostReplyIsNoticed | apps/cli/src/native-bridge.ts:168-183 | a completion whose reply was lost is noticed: the message is terminal, and the bridge ends normally |
| InboxBridges.UndisturbedRethrows | apps/cli/src/native-bridge.ts:241-268 | a run that throws fails the message, marks the session idle and throws on |
| InboxBridges.AllowedMeans | packages/redis/src/function-library.ts:1220-1233 | the daemon's transition table, row by row |
| DeepSeekLifecycle.NeverClosedTwice | apps/cli/src/deepseek-bridge.ts:126-153 | in every interleaving, no session is closed twice or without having been acquired |
| DeepSeekLifecycle.SettledMeansClosed | apps/cli/src/deepseek-bridge.ts:271-280 | once a failed start or a later stop has settled, every acquired session has had exactly one close attempt |
| DeepSeekLifecycle.EarlyStopFindsNothing | apps/cli/src/deepseek-bridge.ts:317-331 | a stop made before any start settles with nothing to close |
| DeepSeekLifecycle.StopBeforeStart | apps/cli/src/deepseek-bridge.ts:232-240 | `start` forgets an earlier stop that has run its course; one whose continuation is still to come cancels it after its first call |
| DeepSeekLifecycle.RunningKeepsBoth | apps/cli/src/deepseek-bridge.ts:232-283 | a started bridge keeps both sessions until it is stopped |
| DeepSeekLifecycle.StopCancelsStart | apps/cli/src/deepseek-bridge.ts:246-269 | a stop before the last look at the flag keeps the bridge from ever starting |
| DeepSeekLifecycle.StartsStepByStep | apps/cli/src/deepseek-bridge.ts:232-269 | a start whose calls all succeed acquires the daemon session, then the ACP session, and is started |
| DeepSeekLifecycle.FailedStartCleansUp | apps/cli/src/deepseek-bridge.ts:271-283 | a call that fails closes what had been acquired, each session once, and rejects the start with its error |
| DeepSeekLifecycle.StopDuringStart | apps/cli/src/deepseek-bridge.ts:246-280 | a stop during one of the first three calls makes the start close what there is and end cancelled; the stop then succeeds |
| DeepSeekLifecycle.StopCloses | apps/cli/src/deepseek-bridge.ts:126-153 | stopping a started bridge closes both sessions, and succeeds exactly when both closes did |
| RecoveryCoordinator.NoLostWakeUp | apps/daemon/src/daemon-ownership-recovery.ts:78-114 | over actions: between an allowed request or re-entry and any later rest a recovery starts, or a failure is handled or recovery disallowed |
| RecoveryCoordinator.OwedIsServed | apps/daemon/src/daemon-ownership-recovery.ts:78-114 | while a request has been neither served nor excused, the next normal completion or `finally` starts a recovery |
| RecoveryCoordinator.StartsOnlyWhenAllowed | apps/daemon/src/daemon-ownership-recovery.ts:78-114 | no recovery starts while recovery is disallowed |
| RecoveryCoordinator.NoMoreStartsThanRequests | apps/daemon/src/daemon-ownership-recovery.ts:78-114 | never more recoveries than requests, and none without one |
| RecoveryCoordinator.FailureDropsRequests | apps/daemon/src/daemon-ownership-recovery.ts:78-114 | after a handled failure no recovery starts until a new request |
| RecoveryCoordinator.OverlapExactlyWhen | apps/daemon/src/daemon-ownership-recovery.ts:78-114 | two recoveries overlap in a run exactly when one calls `request` before `active` is assigned |
| RecoveryCycle.RecoverDaemonOwnership | apps/daemon/src/daemon-ownership-recovery.ts:9-21 | the exact questions asked and announcements made, for either answer and for an exception at either question |
| RecoveryCycle.RunDaemonRecoveryCycle | apps/daemon/src/daemon-ownership-recovery.ts:32-62 | the whole history for each outcome; ready only after ownership, the runtime state, ownership again, still allowed and no request pending, in that order |
| RecoveryCycle.CycleLaw | apps/daemon/src/daemon-ownership-recovery.ts:9-62 | event by event what follows what, and how the cycle ended by its last event |
| Framing.ReadStream | apps/cli/src/deepseek-acp-client.ts:104-150 | any chunking gives what splitting and decoding the whole byte sequence gives, messages and failure alike |
| Framing.Reader.Feed | apps/cli/src/deepseek-acp-client.ts:104-150 | between reads the buffer holds no newline and at most the frame limit |
| Framing.Reader.Finish | apps/cli/src/deepseek-acp-client.ts:104-150 | the end of input decodes a last line without newline |
| Framing.LinesAreExact | apps/cli/src/deepseek-acp-client.ts:104-150 | splitting loses nothing |
| Framing.LinesHoldNoNewline | apps/cli/src/deepseek-acp-client.ts:104-150 | no line holds a newline |
| Framing.DecodeMeans | apps/cli/src/deepseek-acp-client.ts:104-150 | the outcome names the first line that is too long or malformed and has the messages before it, or all messages when there is none |
| Framing.MessagesInOrder | apps/cli/src/deepseek-acp-client.ts:104-150 | each message stands after as many messages as lines before it hold one |
| CanonicalReconcile.Repository.ReconcileCanonicalState | apps/daemon/src/control-plane-service.ts:1414-1550 | the whole new projection, when it ends with an exception, and both counts as numbers of differing and stale entries |
| CanonicalReconcile.Table.Rebuild | apps/daemon/src/control-plane-service.ts:1420-1435 | every canonical row in place, no other touched, only differing ones written |
| CanonicalReconcile.IndexedTable.Reconcile | apps/daemon/src/control-plane-service.ts:1468-1508 | canonical capability bindings in place and stale visible ones gone; it fails exactly when one that exists is out of sight |
| CanonicalReconcile.ProjectTable.Reconcile | apps/daemon/src/control-plane-service.ts:1509-1548 | canonical project bindings in place, and of the others exactly those gone that one of the listings, run in order, shows |
| RepositoryListing.ListIds | packages/redis/src/control-plane-repository.ts:171-177 | exactly the ids with fewer than a thousand before them: a thousand or all, none left out before one listed |
| CanonicalReconcile.NextRunExactlyWhen | apps/daemon/src/control-plane-service.ts:1468-1508 | a run that ends well leaves exactly the canonical capability bindings if and only if all fitted one list call; the next one ends well exactly when it sees all canonical ones, and finds nothing to do exactly when it sees no others |
| CanonicalReconcile.TrackedExactly | apps/daemon/src/control-plane-service.ts:1509-1548 | the rows that name a project are exactly its canonical bindings, if and only if the run's listings showed every other row of it |
| CanonicalReconcile.FitsSweepsAll | apps/daemon/src/control-plane-service.ts:1531-1548 | which they do for every tracked project when each tracked index fits one list call |
| CanonicalReconcile.SecondRunQuiet | apps/daemon/src/control-plane-service.ts:1509-1548 | a second run writes no project binding, and removes none if and only if no listing shows a stale one |
| CanonicalReconcile.ComesToRest | apps/daemon/src/control-plane-service.ts:1509-1548 | after as many further runs as the first left stale rows, no listing shows one and nothing changes any more |
| CanonicalReconcile.HiddenForGood | apps/daemon/src/control-plane-service.ts:1531-1548 | a stale row with a full list of canonical ids before it wherever a tracked project has it survives every number of runs |
| CanonicalReconcile.ListedExactlyWhen | packages/redis/src/control-plane-repository.ts:270-298 | the rows in a project's index are exactly its canonical bindings, precisely when none of another project sat in it and every stale one was shown |
| KnowledgeGraph.CountDegrees | apps/daemon/src/graphify-knowledge.ts:156-161 | each known id's degree is the number of link ends at it |
| KnowledgeGraph.DegreeCounts | apps/daemon/src/graphify-knowledge.ts:156-161 | a degree is the number of positions at which a link begins or ends there |
| KnowledgeGraph.DegreesAddUp | apps/daemon/src/graphify-knowledge.ts:156-161 | the degrees add up to the known link ends |
| KnowledgeGraph.GodsOutrank | apps/daemon/src/graphify-knowledge.ts:168-168 | every god has at least the degree of every other node |
| KnowledgeGraph.GodsExactly | apps/daemon/src/graphify-knowledge.ts:162-168 | a node is a god exactly when fewer nodes than the count come before it by degree and id |
| KnowledgeGraph.FindHubs | apps/daemon/src/graphify-knowledge.ts:169-177 | the hubs are the leaders of their communities among the nodes that are no gods |
| KnowledgeGraph.OneHubEach | apps/daemon/src/graphify-knowledge.ts:169-177 | each such community has exactly one hub, of maximal degree |
| KnowledgeGraph.HubsExactly | apps/daemon/src/graphify-knowledge.ts:169-177 | a node is a hub exactly when it is no god, has a community, and no other node of it that is no god comes before it |
| KnowledgeGraph.Backbone | apps/daemon/src/graphify-knowledge.ts:183-191 | the two passes keep the special nodes by rank, then the rest by rank, up to the cap |
| KnowledgeGraph.SpecialsKept | apps/daemon/src/graphify-knowledge.ts:183-191 | the cap is met exactly, and all gods and hubs are kept when they fit |
| KnowledgeGraph.DroppedIsBehind | apps/daemon/src/graphify-knowledge.ts:183-191 | no dropped node outranks a kept one of its kind, and no symbol displaces a god or hub |
| KnowledgeGraph.EdgesExactly | apps/daemon/src/graphify-knowledge.ts:203-209 | there is an edge exactly where a link joins two kept nodes, and it is flagged an import exactly for the four import relations |
| KnowledgeGraph.LabelMeans | apps/daemon/src/graphify-knowledge.ts:120-128 | a label is never empty nor over the limit: cut from the last non-empty segment of the id, or from the id when it has none |
| KnowledgeGraph.ListCommunities | apps/daemon/src/graphify-knowledge.ts:211-234 | the largest communities in order, each with its number of nodes and the last name that is not blank; none left out is larger |
| KnowledgeGraph.SizesAddUp | apps/daemon/src/graphify-knowledge.ts:211-231 | the sizes of all communities add up to the nodes that have one |
| KnowledgeGraph.SizeCounts | apps/daemon/src/graphify-knowledge.ts:211-231 | a size is the number of nodes of the community |
| KnowledgeGraph.TitleMeans | apps/daemon/src/graphify-knowledge.ts:211-231 | a title is the name of the last node of the community that has one that is not blank, or else made of its number |
| KnowledgeGraph.ProjectKnowledgeGraph | apps/daemon/src/graphify-knowledge.ts:144-249 | all of these hold of one view, field by field: every kept node's id, file, community and name, its degree as the number of link ends at it, god exactly for the gods and hub exactly for the hubs, and the summary; truncated exactly when there are more nodes than the cap |
| GraphifyObserver.Observe | apps/daemon/src/graphify-observer.ts:206-327 | nodes and links are conserved, truncated exactly when the files exceed the cap, the files exactly those admitted with their symbols, communities and names, one import per pair with the strongest confidence, between two reported files |
| GraphifyObserver.AdmittedMeans | apps/daemon/src/graphify-observer.ts:224-235 | a file is admitted exactly when fewer files than the cap were named before one of its nodes |
| GraphifyObserver.SymbolsMean | apps/daemon/src/graphify-observer.ts:236-236 | a file's symbols are the positions of its nodes |
| GraphifyObserver.NameMeans | apps/daemon/src/graphify-observer.ts:237-246 | a file is called by the first name of one to 256 characters that a node with a community gives it |
| GraphifyObserver.FiledMeans | apps/daemon/src/graphify-observer.ts:217-248 | an id is filed as the last of its nodes that counts says |
| GraphifyObserver.JudgeMeans | apps/daemon/src/graphify-observer.ts:254-288 | what becomes of a link from its own text: EXTRACTED is medium, INFERRED low, the four import relations, the two ends |
| GraphifyObserver.StrongestMeans | apps/daemon/src/graphify-observer.ts:281-297 | an import is medium exactly when one of its accepted links is EXTRACTED, and has the line of the first link with its confidence |
| GraphifyObserver.CountersMean | apps/daemon/src/graphify-observer.ts:254-280 | each counter is the number of links that came to that |
| GraphifyObserver.LinksConserved | apps/daemon/src/graphify-observer.ts:254-297 | every link entry is accounted for exactly once |
| GraphifyObserver.ReadNodes | apps/daemon/src/graphify-observer.ts:206-248 | files, node filing, truncation and the skipped count after any nodes; skipped nodes and symbols add up to the nodes |
| GraphifyObserver.ReadLinks | apps/daemon/src/graphify-observer.ts:250-297 | each pair has the strongest accepted confidence with the line of the first link that has it, and every counter counts its own links |
| GraphifyObserver.TruncatedExactlyWhen | apps/daemon/src/graphify-observer.ts:224-231 | the cap shuts a file out exactly when there are more files than it allows |
| GraphifyObserver.CommunityExactlyWhen | apps/daemon/src/graphify-observer.ts:305-313 | when a file reports a community |

## Left out

- The receipts are listed in one step, and the plan and the operation record of a receipt are read in one step, where `reconcile` reads them one by one.
- The file engine's lock files inside the configuration machine, which keeps the in-process target locks; `FileLocks` has the lock files themselves.
- Managed-target writes that are still under way after one of them failed; a failed write is taken to end the group.
- Failure codes that `reconcile` does not read: an exception's own code is the default one of its branch.
- Hash computation: content is identified with its hash, and hashes are taken to be injective.
- File permissions: a failing `chmod` before the rollback's commit count is raised is not modelled.
- Precondition hashes are read in one step, where the engine reads them one after another.
- ConfigApply.ApplyPlan: whether adapter, snapshot and artifact are refused is one parameter; the artifact comparison is `ArtifactCheck`. A token stands for its hash.
- ConfigCrash.CrashOutcome: speaks of targets nobody edited and operations no pass has touched.
- Adapters, and the render, import and optimization plan builders; `Approve` and `Retire` stand for their effect on a plan.
- The search for secrets in imported settings: its answer is a parameter.
- Snapshot ids and creation times are natural numbers in sort order; a sort followed by a slice is modelled as repeated selection.
- The repository's answers to graph queries: neighbours are given in full, and the graph does not change during a query.
- Equal instants written as different time strings in the file-change aggregate.
- Late requests of a dead bridge are moves of the environment, which may make any allowed transition at any time.
- The session-status, heartbeat and polling calls of the bridges beyond their possible failure; `requireStarted`.
- Exceptions of the synchronous callbacks of a recovery cycle.
- JSON decoding is a parameter of the framing model; the writable half of the stream is not modelled.
- Secondary Redis indexes that `reconcileCanonicalState` never reads, and runtime events.
- The empty view of a missing graphify document, and the commit and time that a view passes through. Node ids of one document are distinct.
- The sorted order of both graph reductions' output.
- The tracker of `background-work.ts`: that it starts an operation at once is the model's `Request` action, and an assumption of the theorems about it.
- `lease-service.ts`, `message-service.ts` beyond the transition table, process spawning, ports, routing and option parsing.
