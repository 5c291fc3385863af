# Verified models of gonex

gonex is a Go framework with a job scheduler, cookie sessions, a server lifecycle and a code generator (gx).
This project models the parts of it where several steps, callers or failures have to fit together, and proves
what those parts are for: that a reconcile or a publication happens completely or not at all, what becomes of
every accepted trigger and every original file, that a revoked session stays revoked, that phases of a server's
life do not overlap. Where the code keeps such a promise only sometimes, the exact condition is proved.

| module | what it models |
|---|---|
| `Gate` | the overlap gate of a scheduled job: skip, allow and queue-one policies that may change while executions are in flight |
| `Manager` | the in-process scheduler: generations of a job, engine handles, Add / Replace / Remove / Start under any pattern of engine failures |
| `Generations` | what triggers can see of those operations while they hold the lock: both looks of a trigger and its entry into the gate, interleaved with every single step |
| `Reconcile` | `Loader.Sync`: three phases over maps in arbitrary order, with an undo stack |
| `FileTree`, `Paths` | a project directory as a map from component sequences to nodes, the operations on it, and the cleaning of path strings |
| `Transaction` | staged file writes and deletes published together, with backup and rollback |
| `Directories` | a set of staged directories swapped in together; a rename carries a whole subtree |
| `Pipeline` | generated directories and go.mod / go.sum published together |
| `Tokens`, `Revocation` | signed cookies, and the revocation store that forgets expired entries against a log that never does |
| `MemorySessions` | the process-local session store that sweeps expired entries against a map that never does |
| `Sessions` | cookie-backed session handles: rotation, logout, many handles of one family whose store calls interleave |
| `Lifecycle`, `Tasks` | startup, shutdown and stop hooks with re-entrant and concurrent callers; the background task barrier |
| `StructTags` | the repair of quotes in generated gorm struct tags, and the scanner that validates them |
| `PersistentRun` | one run of a persistent job: lock, handler, unlock, record, on every way out |

Objects of the source that change in place are classes here. Each of their locked sections is a method whose
contract equates the new state with a function of the old one, and what holds over whole runs is proved about
those functions, for every interleaving of the sections. Operations on the engine, the stores and the file system may fail at
any call; a failure has no effect unless the operation itself can stop half way (creating parents, removing
a tree, writing a file). Such failures are counted where they happen, and contracts say how many there were: so an
operation that reports one has met one, and one that met none has done all it promises, undoing included.

## What turned out to need a condition

* A trigger accepted by the gate can be lost: `Gate.OverlapAcrossGenerationsLosesATrigger` is such a run, and
  `Gate.LostExactlyAtLossSteps` says exactly when it happens.
* A trigger that has found its generation active can enter the gate after that generation was replaced or removed:
  `Generations.RetiredGenerationCanEnter`. Its generation was the registered one at its look
  (`Generations.EntrantWasRegisteredAtItsLook`), and still is exactly if no Replace or Remove of that name has
  committed since (`Generations.HoldsExactlyUntilReassigned`).
* A `Sync` that fails takes everything back, whatever its order and wherever it fails, if and only if every job it is
  to replace or remove runs as the loader has it on record (`Reconcile.RollbackRestoresExactlyIf`). Over any
  sequence of Syncs that is so if equal ID and version mean equal definition
  (`Reconcile.RolledBackSyncChangesNothing`); `Reconcile.EditWithoutNewVersionIsNotRestored` edits a job without a
  new version.
* An undo is refused when the job it is to put back is no longer valid, such as a job to run once at a time that has
  passed in the meantime. Without outside faults all undos succeed exactly if every such job is still valid when
  its undo comes (`Reconcile.Loader.Rollback`).
* After a failed Commit, the Rollback that callers make removes the backup, with every original in it that could not
  be moved back: `Transaction.OriginalCanBeLost` is such a run. Nothing is lost exactly if each original left there
  is at its place anyway (`Transaction.FileTransaction.CommitOrDiscard`, `Transaction.CleanupLosesExactly`).
* The revocation store answers like its log while the times passed to it do not go back;
  `Revocation.ClockGoingBackForgets` is a run in which they do, and in which it does not.
* A change can succeed after a logout of its family has, with a cookie that is refused for good
  (`Sessions.ChangeInFlightYieldsARefusedCookie`). The cookie of a successful change is found exactly unless its family
  was ended since the cookie was registered (`Sessions.NewCookieIsFoundExactlyUnless`).
* A rotated cookie is found once more if its expiry falls between the two clock readings of one `Get`
  (`Sessions.RotatedCookieFoundAtItsExpiry`); `Sessions.DeadIsRefusedExactlyUnless` says exactly when.
* Logging out with a cookie that has already expired revokes nothing (`Sessions.ExpiredLogoutRevokesNothing`).
* A shutdown hook that returns a phase-in-progress error keeps the stop hooks from ever running
  (`Lifecycle.PhaseErrorFromShutdownBlocksStop`, `Lifecycle.StopCanBeBlocked`); otherwise Stop runs them
  (`Lifecycle.StopRunsExactlyIf`).
* The lock of a persistent run is not given back when the handler ends its goroutine, and its end is not recorded
  then, nor when asking the handler's error for its text panics (`PersistentRun.LockIsGivenBackExactlyUnless`,
  `PersistentRun.FinishIsRecordedExactlyUnless`).

## Model

| member | source | states |
|---|---|---|
| Gate.OverlapGate.Enter | scheduler/overlap.go:19-54 | the locked admission: run, queue the one trigger with the handler it needs, or skip |
| Gate.OverlapGate.Leave | scheduler/overlap.go:61-98 | one completion: stop, or resume with the queued trigger and the handler that stands for it |
| Gate.OverlapGate.SetPolicy | scheduler/overlap.go:109-119 | only the policy changes; executions in flight and the queued trigger stay |
| Gate.OverlapGate.ExecuteAccepted | scheduler/overlap.go:61-98 | the drain loop runs its own handler and then each trigger it is handed, until told to stop |
| Gate.StepKeepsInv | scheduler/overlap.go:19-119 | conservation, at-most-once and agreement of `active` with the goroutines inside survive every trigger, completion and policy change |
| Gate.AcceptedExactlyWhen | scheduler/overlap.go:19-54 | in every reachable state a trigger is accepted exactly if overlap is allowed, nothing runs, or QueueOne has none waiting; it runs or waits accordingly, with its own handler unless one of its generation is in flight |
| Gate.LastOneOutRunsTheHeld | scheduler/overlap.go:61-98 | the last execution out runs the waiting trigger, under its generation and its own handler if it has one, unless it is lost; any other just leaves |
| Gate.AcceptedWorkIsConserved | scheduler/overlap.go:19-98 | in every reachable state accepted triggers = completed + in flight + queued + discarded; `active` counts those in flight; queued implies active |
| Gate.DrainedWorkRanOnce | scheduler/overlap.go:61-98 | once the gate is idle, an accepted trigger ran exactly once or, if lost, not at all |
| Gate.LostExactlyAtLossSteps | scheduler/overlap.go:79-91 | a trigger is lost exactly when it was queued without a handler and the last execution out carries another token |
| Gate.NothingLostIffNoLossStep | scheduler/overlap.go:79-91 | nothing is discarded exactly in runs without such a step |
| Gate.SharedGenerationLosesNothing | scheduler/overlap.go:33-45 | runs whose concurrent executions share a token lose nothing, whatever setPolicy does |
| Gate.NoNewOverlap | scheduler/overlap.go:24-45 | while overlap is not allowed, concurrency never rises above the larger of 1 and what it was |
| Gate.WithoutOverlapNothingIsLost | scheduler/overlap.go:24-98 | without AllowOverlap at any time, one execution at a time and no trigger lost |
| Gate.GateDrains | scheduler/overlap.go:61-98 | without new triggers, each completion lowers active + queued, so the gate reaches idle |
| Gate.OverlapAcrossGenerationsLosesATrigger | scheduler/overlap.go:79-91 | a concrete run that loses an accepted trigger |
| Manager.RemovalIsExact | scheduler/scheduler.go:351-381 | removing engine jobs drops from record and engine the same handles and no others; exactly the stuck stale ones stay, and with them the primary one |
| Manager.ReplaceCommitsExactlyWhen | scheduler/scheduler.go:280-337 | Replace commits if and only if the job is valid and there, and neither NewJob nor removing the old handle fails |
| Manager.RefusalsAreExplained | scheduler/scheduler.go:241-337 | which error Add and Replace give for which reason, the first in order |
| Manager.CommittedReplaceHandsOverTheGate | scheduler/scheduler.go:303-337 | the new generation is active under the old gate with its queued work and new policy; the old one is retired |
| Manager.FailedReplaceKeepsTheOld | scheduler/scheduler.go:280-337 | a failed Replace keeps the registered generation, its primary handle and the gate policy |
| Manager.RemoveSucceedsExactlyWhen | scheduler/scheduler.go:401-420 | Remove succeeds if and only if the job is there and none of its engine jobs is stuck |
| Manager.RemoveDeletesOrKeeps | scheduler/scheduler.go:401-420 | it deletes exactly the named job, or keeps it active with its primary handle |
| Manager.AddRegistersOrNot | scheduler/scheduler.go:241-274 | Add registers under a free name with a gate of its own, or registers nothing |
| Manager.StepIsSound | scheduler/scheduler.go:241-420 | table, ownership and generation invariants survive every operation with every pattern of failures |
| Manager.HistoryIsSound | scheduler/scheduler.go:140-420 | so they hold in every reachable state |
| Manager.SettledWheneverUnlocked | scheduler/scheduler.go:71-123 | when the lock is free every record is ready, active if and only if it is the registered one, and gate policies follow the registered definitions |
| Manager.EveryHandleHasOneOwner | scheduler/scheduler.go:262-273 | in every reachable started state a live engine handle has exactly one registered owner, as its primary or among its stale handles |
| Manager.FailedSwapKeepsOwned | scheduler/scheduler.go:303-336 | the handle of a replacement that is not committed is removed or joins the old record's stale ones |
| Manager.Scheduler.RemoveHandles | scheduler/scheduler.go:351-381 | the removal loop computes that exact removal |
| Manager.Scheduler.StartAll | scheduler/scheduler.go:140-177 | Start installs every registered job in any order, exactly if the engine can be made and takes them all, or gives up at the first it refuses |
| Manager.Scheduler.AddJob | scheduler/scheduler.go:241-274 | the method computes the specified Add, by the specified steps that triggers can see |
| Manager.Scheduler.ReplaceJob | scheduler/scheduler.go:280-337 | the method computes the specified Replace, by the specified steps |
| Manager.Scheduler.RemoveByName | scheduler/scheduler.go:401-420 | the method computes the specified Remove, by the specified steps |
| Generations.ScriptSettles | scheduler/scheduler.go:241-420 | the steps of every operation are legal one by one, and lead to the flags, names and gates that the operation is specified to leave |
| Generations.ApplyMovesStage | scheduler/scheduler.go:82-102 | a step takes a generation at most one stage on, and never changes its name or its gate |
| Generations.NextKeepsInv | scheduler/execution.go:10-16 | every step of an operation and of a trigger keeps: the rest of the operation leads to its result, and only generations that have been active and registered have triggers past their look |
| Generations.RunKeepsInv | scheduler/scheduler.go:71-123 | so it holds in every run |
| Generations.StagesMoveAlong | scheduler/scheduler.go:82-102 | in every run each generation goes from pending to active to retired, or from pending to aborted |
| Generations.AbortedGenerationNeverRuns | scheduler/scheduler.go:104-123 | no trigger of a generation that is ever aborted gets past its look, before or after |
| Generations.NobodyWaitsForever | scheduler/scheduler.go:117-119 | whenever the lock is free a trigger that waits can look again |
| Generations.PassingIsRegistered | scheduler/scheduler.go:104-110 | a trigger passes its look only while its generation is active and registered under its name |
| Generations.LookPassesExactlyTheHolder | scheduler/scheduler.go:104-123 | with the lock free, a look passes exactly if the generation is the one registered under its name; otherwise the trigger waits, or is turned away |
| Generations.EntrantWasRegisteredAtItsLook | scheduler/execution.go:10-16 | whatever enters a gate was active and registered when its trigger looked |
| Generations.HoldsExactlyUntilReassigned | scheduler/scheduler.go:330-336 | and it still is the registered one if and only if no Replace or Remove of its name has committed since |
| Generations.GateIsShared | scheduler/scheduler.go:297-303 | until the name is removed, its holder and the generation that looked have the same gate |
| Generations.RetiredGenerationCanEnter | scheduler/execution.go:10-16 | a run in which a retired generation enters the gate, its trigger having looked before the Replace |
| Reconcile.PrepareDefinitions | scheduler/reconcile.go:124-167 | accepts exactly the definition lists without a fault, reports the first fault, and yields unique identifiers and names |
| Reconcile.TrimIs | scheduler/reconcile.go:130-132 | trimming takes the white space around a string and nothing else |
| Reconcile.AcceptedExactlyIf | scheduler/reconcile.go:128-165 | a list is accepted exactly if trimmed IDs and names are there and differ, and every enabled definition has a usable mode, a registered handler and a valid job |
| Reconcile.FaultIsTheFirstWrong | scheduler/reconcile.go:133-161 | the error reported is right, and the first in the order of the checks |
| Reconcile.UndosLeaveOtherNames | scheduler/reconcile.go:49-58 | undoing touches only the names that were worked on |
| Reconcile.ReplaceLeadsBack | scheduler/reconcile.go:62-78 | after a replacement, undoing leads back to where it began, and never meets a missing or duplicate job |
| Reconcile.RemoveLeadsBack | scheduler/reconcile.go:82-98 | after a removal, undoing leads back to where it began |
| Reconcile.AddLeadsBack | scheduler/reconcile.go:100-113 | after an addition, undoing leads back to where it began |
| Reconcile.ConflictIsForeign | scheduler/reconcile.go:100-113 | an addition that collides does so with a job the loader does not own, rename cycles included |
| Reconcile.OthersAreLeftAlone | scheduler/reconcile.go:62-113 | jobs the loader does not own are never touched |
| Reconcile.FinishedIsReconciled | scheduler/reconcile.go:62-122 | after the three phases the loader-owned jobs are exactly the prepared ones |
| Reconcile.Loader.Rollback | scheduler/reconcile.go:49-58 | tries every undo, newest first; the jobs are what the accepted ones lead to, as many fail as scheduler calls failed from outside, and without such failures all succeed exactly if each job to put back is valid when its undo comes |
| Reconcile.Loader.ReplacePhase | scheduler/reconcile.go:62-78 | first phase, in any order of the map, stopped at any point |
| Reconcile.Loader.RemovePhase | scheduler/reconcile.go:82-98 | second phase, in any order, stopped at any point |
| Reconcile.Loader.AddPhase | scheduler/reconcile.go:100-113 | third phase, in any order, stopped at any point |
| Reconcile.Loader.Sync | scheduler/reconcile.go:21-122 | the prepared jobs and the new bookkeeping, or the old bookkeeping and what undoing leads to; it is refused or rolled back only for a stated reason, and with no failure after that reason everything still valid is put back: the very jobs from before if those to be changed ran as recorded |
| Reconcile.SyncedJobsArePrepared | scheduler/reconcile.go:115-122 | after success each prepared definition has its job with its identifier, name and version |
| Reconcile.SyncedJobsAreNoOthers | scheduler/reconcile.go:115-122 | and the loader owns no other job |
| Reconcile.UnchangedJobStays | scheduler/reconcile.go:62-78 | a job whose version and name did not change is left as it is |
| Reconcile.InStepExactlyIfVersionsTell | scheduler/reconcile.go:62-122 | the jobs equal the prepared definitions if and only if versions tell edits apart |
| Reconcile.ExecutionIsUndoable | scheduler/reconcile.go:47-122 | after any order of operations and any failure, undoing never meets a missing or duplicate job and leads back but for the jobs that come back as recorded |
| Reconcile.RollbackRestoresExactlyIf | scheduler/reconcile.go:47-122 | every rollback restores every job, whatever the order and wherever it failed, if and only if each job to be replaced or removed runs as recorded |
| Reconcile.OutOfStepIsNotRestored | scheduler/reconcile.go:62-98 | each one that does not has an order and a point of failure from which it does not come back |
| Reconcile.InStepIsRestored | scheduler/reconcile.go:47-122 | if they all do, any rollback ends with the very jobs it began with |
| Reconcile.HistoryStaysInStep | scheduler/reconcile.go:21-122 | from an empty loader on, if equal ID and version mean equal definition, the jobs run as recorded after any sequence of Syncs and changes by others |
| Reconcile.RolledBackSyncChangesNothing | scheduler/reconcile.go:21-122 | so every rolled-back Sync in such a history changes nothing |
| Reconcile.RollbackKeepsOwnership | scheduler/reconcile.go:49-58 | it always restores which names the loader owns |
| Reconcile.EditWithoutNewVersionIsNotRestored | scheduler/reconcile.go:169-182 | three Syncs, one of them after an edit without a new version, after which the rollback of the last puts the edited job in the place of the other |
| FileTree.MoveAt | gx/internal/gen/fs/transaction.go:224-224 | a rename carries everything at and below its source, and nothing else |
| FileTree.Root.Validate | gx/internal/gen/fs/path.go:50-74 | passes exactly the paths with no link on them and no file above them |
| FileTree.Root.MkdirTemp | gx/internal/gen/fs/path.go:88-105 | a fresh directory that nothing in the tree has for a prefix, or nothing |
| Paths.AcceptedStaysInside | gx/internal/gen/fs/path.go:12-18 | a path is accepted if and only if it is relative and walking it stays inside the project and ends below its root |
| Paths.CleanIsIdempotent | gx/internal/gen/fs/path.go:12-18 | cleaning what was accepted changes nothing |
| Paths.OverlapIsPrefix | gx/internal/gen/fs/path.go:107-110 | accepted paths overlap if and only if one component sequence is a prefix of the other |
| Paths.OverlapOfPlaces | gx/internal/gen/fs/path.go:107-110 | the same about the places in the tree that the paths name |
| Transaction.FileTransaction.Delete | gx/internal/gen/fs/transaction.go:33-61 | stages a removal exactly if the path is free of links, directories and overlaps; keeps the staged paths an antichain |
| Transaction.FileTransaction.Write | gx/internal/gen/fs/transaction.go:88-138 | stages the content, keeps what was staged, leaves the project unchanged and the staged paths an antichain |
| Transaction.SaveKeepsBetween | gx/internal/gen/fs/transaction.go:196-210 | moving an original to the backup keeps the description of the tree during a Commit |
| Transaction.InstallKeepsBetween | gx/internal/gen/fs/transaction.go:214-227 | so does moving a staged file into place |
| Transaction.CanUninstall | gx/internal/gen/fs/transaction.go:164-173 | an installed file can always be taken away again |
| Transaction.CanRestore | gx/internal/gen/fs/transaction.go:174-187 | a saved file can always be moved back: its place is free and its parents are there |
| Transaction.CanBackUp | gx/internal/gen/fs/transaction.go:200-209 | the backup always has a place for one more original |
| Transaction.StaysAdmissible | gx/internal/gen/fs/transaction.go:192-199 | what is admissible when a Commit begins is admissible until it is installed |
| Transaction.UninstallKeepsBetween | gx/internal/gen/fs/transaction.go:164-173 | taking it away keeps the description |
| Transaction.RestoreKeepsBetween | gx/internal/gen/fs/transaction.go:174-187 | moving it back keeps the description |
| Transaction.BetweenLosesNothing | gx/internal/gen/fs/transaction.go:162-252 | at every moment each original file is at its place or in the backup |
| Transaction.FileTransaction.Unwind | gx/internal/gen/fs/transaction.go:162-189 | undoes newest first, going on past failures; it leaves no more files behind than operations failed from outside, and reports exactly as many |
| Transaction.FileTransaction.PublishAll | gx/internal/gen/fs/transaction.go:192-228 | publishes staged files in any order until one cannot be |
| Transaction.FileTransaction.RetireAll | gx/internal/gen/fs/transaction.go:230-252 | moves what is to be deleted to the backup |
| Transaction.CommitSettles | gx/internal/gen/fs/transaction.go:144-254 | the two ends: every write shows its staged content and every delete is gone, or every project file is as before |
| Transaction.CleaningSettles | gx/internal/gen/fs/transaction.go:264-287 | cleanup, done or failed, does not take a publication back |
| Transaction.FileTransaction.Commit | gx/internal/gen/fs/transaction.go:144-254 | ends in one of those two ways wherever a failure occurs; with nothing failing from outside it publishes exactly if every staged path is ready, and with nothing failing after the cause every project file is as before; else every original is at its place or in the backup |
| Transaction.FileTransaction.Rollback | gx/internal/gen/fs/transaction.go:257-287 | discards what is staged, and the backup, and leaves the project unchanged |
| Transaction.CleanupLosesExactly | gx/internal/gen/fs/transaction.go:264-287 | once the backup is removed, nothing is lost if and only if each original left in it is at its place anyway |
| Transaction.OriginalCanBeLost | gx/internal/gen/service/pipeline.go:60-67 | a run that loses an original: moved to the backup, not moved back, and the backup removed |
| Transaction.FileTransaction.CommitOrDiscard | gx/internal/gen/service/pipeline.go:51-69 | published, or every project file as before if nothing failed after the cause, or that exact condition for nothing being lost |
| Directories.MoveCarries | gx/internal/gen/fs/directories.go:146-146 | a directory rename carries its subtree |
| Directories.MoveApart | gx/internal/gen/fs/directories.go:167-167 | and leaves every subtree away from both ends alone |
| Directories.ItemsAreApart | gx/internal/gen/fs/directories.go:71-118 | the overlap checks keep target, stage and backup of one swap away from those of every other |
| Directories.BackUpKeepsBetween | gx/internal/gen/fs/directories.go:133-154 | moving an old target away concerns one swap only |
| Directories.InstallKeepsBetween | gx/internal/gen/fs/directories.go:156-171 | so does installing a stage |
| Directories.CanRestore | gx/internal/gen/fs/directories.go:202-212 | what was moved away can always be moved back once its parent is there |
| Directories.CanMoveAway | gx/internal/gen/fs/directories.go:133-154 | an old target that is a directory can be moved to its slot in the backup |
| Directories.CanInstall | gx/internal/gen/fs/directories.go:156-171 | a staged directory can be moved to its target once that has given way and its parent is there |
| Directories.TargetIsClear | gx/internal/gen/fs/directories.go:190-194 | a target passes validation at every moment of an undo |
| Directories.RemovalKeepsBetween | gx/internal/gen/fs/directories.go:195-201 | removing an installed directory, even half way, leaves every other swap and backup alone |
| Directories.CheckGraph | gx/internal/gen/fs/directories.go:101-118 | accepts exactly the disjoint publication graphs |
| Directories.PrepareTargets | gx/internal/gen/fs/directories.go:61-94 | accepts exactly the acceptable swaps |
| Directories.UndoSettles | gx/internal/gen/fs/directories.go:178-226 | an undo without failures restores every path except stages and new parents; in any case every old target is in place or in a backup that is kept |
| Directories.DirectoryTransaction.Rollback | gx/internal/gen/fs/directories.go:178-226 | the method does that, from any moment of the swap or after it; it leaves no more targets unrestored than operations failed from outside |
| Directories.DirectoryTransaction.Commit | gx/internal/gen/fs/directories.go:229-246 | marks publication before cleanup and changes nothing outside the backup |
| Directories.Begin | gx/internal/gen/fs/directories.go:45-173 | every staged subtree at its target with the old ones in the backup, or an undo; with nothing failing from outside, exactly if the swaps are acceptable and old targets are directories |
| Pipeline.Workspace.RestoreModuleFiles | gx/internal/gen/dao/module.go:106-122 | each module file is as in the snapshot unless its own restore failed |
| Pipeline.Workspace.RollbackFailedStage | gx/internal/gen/dao/pipeline_runtime.go:68-73 | undoes directories and module files, or nothing once publication is committed |
| Pipeline.Workspace.Stage | gx/internal/gen/dao/pipeline_runtime.go:151-168 | hands over a swapped transaction or has undone the swap |
| Pipeline.Workspace.Publish | gx/internal/gen/dao/pipeline_runtime.go:46-61 | directories and module files end both old or both new; with nothing failing from outside, new exactly if the swaps are acceptable and old targets are directories |
| Pipeline.CleanUndoIsOld | gx/internal/gen/dao/pipeline_runtime.go:46-73 | if the undos succeed, every project path and both module files are as before, except new parent directories |
| Pipeline.CommitKeepsSwapped | gx/internal/gen/dao/pipeline_runtime.go:190-194 | committing keeps every installed subtree |
| Revocation.ThroughHasReason | session/storage.go:150-155 | the log calls revoked only what some event revoked |
| Revocation.CallRefines | session/storage.go:176-246 | one call, at a time not before the last: the store answers as its log and still agrees with it |
| Revocation.StoreAnswersAsItsLog | session/storage.go:176-246 | over every run with monotone times the store that forgets answers as the log that does not |
| Revocation.FamilyLogoutIsComplete | session/storage.go:186-228 | after RevokeFamily every token registered before is reported revoked, and no token can be registered, before that token's expiry |
| Revocation.RevocationLasts | session/storage.go:202-228 | a revocation lasts through the expiry it was given |
| Revocation.RevocationHasReason | session/storage.go:176-184 | nothing is reported revoked that no call revoked beyond that time, by its own expiry or by that of a token registered before |
| Revocation.RefusalHasReason | session/storage.go:186-200 | and no registration is refused without such a call |
| Revocation.QuestionCleansUp | session/storage.go:230-246 | a question leaves exactly what has not expired |
| Revocation.ClockGoingBackForgets | session/storage.go:230-246 | a run with a time that goes back, in which the store forgets |
| Revocation.DropExpired | session/storage.go:230-246 | the cleanup loop drops exactly the expired entries |
| Revocation.MemoryCookieRevocationStore.IsRevoked | session/storage.go:176-184 | answers as the log |
| Revocation.MemoryCookieRevocationStore.RegisterFamilyToken | session/storage.go:186-200 | refuses exactly while the family is revoked, and logs the expiry |
| Revocation.MemoryCookieRevocationStore.RevokeToken | session/storage.go:202-212 | logs the revocation |
| Revocation.MemoryCookieRevocationStore.RevokeFamily | session/storage.go:214-228 | logs a revocation through the greatest expiry registered for the family |
| MemorySessions.StepFollows | session/storage.go:70-138 | each locked section answers as the map that is never swept |
| MemorySessions.SweepingNeverShows | session/storage.go:70-131 | so does every interleaving of sections with monotone times |
| MemorySessions.ReadsWhatWasLastSet | session/storage.go:70-119 | a read finds the values last set and not deleted since, through the ttl after that or for ever without one, and nothing else |
| MemorySessions.DroppedWhenSeen | session/storage.go:84-97 | the second look drops an expired entry and no other; a write sweeps nothing before a sweep is due |
| MemorySessions.SweptIsFresh | session/storage.go:121-131 | a sweep leaves nothing that has expired |
| MemorySessions.MemoryStorage.LookAgain | session/storage.go:84-97 | the second section of a read, after which an expired entry is gone |
| MemorySessions.MemoryStorage.CleanupExpired | session/storage.go:121-131 | the sweep loop keeps exactly what has not expired, when it is due |
| Sessions.DeadIsRefusedExactlyUnless | session/storage.go:289-302 | a dead cookie is refused exactly unless its expiry falls between the two clock readings |
| Sessions.DeadIsRefusedAtOnce | session/storage.go:289-302 | read and asked in the same second, it is refused |
| Sessions.RotatedCookieFoundAtItsExpiry | session/storage.go:289-302 | a rotated cookie that is found all the same |
| Sessions.CookiesLiveTheirTtl | session/storage.go:377-380 | every cookie of every run was put together in some step, and decodes until exactly the ttl after it, or for ever without a ttl |
| Sessions.CookiesExpire | session/storage.go:377-380 | so with a ttl no cookie handed out is found from then on, whatever the store says |
| Sessions.StepKeepsInv | ghttp/session.go:129-337 | every store call of every handle keeps: cookies left behind are dead, current ones carry their handle's values, every cookie, also one on its way, is covered by its registration |
| Sessions.RunKeepsInv | ghttp/session.go:129-337 | so it holds however the store calls of all handles interleave |
| Sessions.RunMovesOn | session/storage.go:186-228 | and over any run the log only grows and the time does not go back |
| Sessions.EarlierCookiesStayRefused | ghttp/session.go:242-310 | in any interleaving, a cookie that a handle has moved on from is refused for good |
| Sessions.NewCookieIsFoundExactlyUnless | ghttp/session.go:129-151 | a change that succeeds leaves a cookie with the handle's values and family; until it expires it is found if and only if its family was not ended since its registration |
| Sessions.FailureChangesNothing | ghttp/session.go:254-262 | a change or a logout that fails leaves its handle as it was when it began, whatever others did meanwhile |
| Sessions.FailedMovesAcceptTheSame | ghttp/session.go:142-147 | and nothing it did before, such as registering a cookie, changed the acceptance of any cookie |
| Sessions.FailedRotationChangesNothing | ghttp/session.go:129-154 | the same about the contract of a method that rotates |
| Sessions.LogoutRefusesTheFamily | ghttp/session.go:312-337 | after logging out with a cookie that has not expired, every cookie of the family handed out before or minted by changes in flight is refused for good |
| Sessions.LogoutStopsTheFamily | session/storage.go:386-393 | and no handle of the family can have a new cookie registered while one of those would not have expired |
| Sessions.ChangeInFlightYieldsARefusedCookie | ghttp/session.go:129-151 | a run in which one handle mints, another ends the family, and the change of the first succeeds with a cookie refused for good |
| Sessions.ExpiredLogoutRevokesNothing | session/storage.go:330-334 | logging out with an expired cookie revokes nothing |
| Sessions.CookieStorage.Get | session/storage.go:289-302 | finds a cookie's values only if it decodes at one time and is not revoked at a later one; not found means refused at present |
| Sessions.CookieStorage.EncodeWithFamily | session/storage.go:359-395 | mints a cookie with its own nonce that lives exactly its ttl, registered in a family that is not revoked; fails only if something failed from outside or the family was revoked |
| Sessions.CookieStorage.RevokeToken | session/storage.go:344-350 | revokes through the cookie's expiry, or the cookie has expired |
| Sessions.CookieStorage.Delete | session/storage.go:330-340 | revokes the family through every registered expiry, or the cookie has expired |
| Sessions.ManagedSession.Persist | ghttp/session.go:129-154 | mints, then revokes, then moves over, with other handles calling in between; exactly one of the move sequences of a rotation that succeeds or fails |
| Sessions.ManagedSession.Set | ghttp/session.go:242-263 | rotates to the changed values, or restores the old ones; fails only if something failed from outside, the family was revoked, the value has no normal form or the handle was logged out |
| Sessions.ManagedSession.Delete | ghttp/session.go:265-280 | the same for a key taken away |
| Sessions.ManagedSession.Clear | ghttp/session.go:282-295 | the same for no values at all |
| Sessions.ManagedSession.Regenerate | ghttp/session.go:303-310 | the same for the same values |
| Sessions.ManagedSession.Logout | ghttp/session.go:312-337 | ends the handle once its family is ended or its cookie has expired, or nothing |
| Sessions.OpenSession | ghttp/session.go:74-127 | takes up a cookie that is found, or starts a session in a family of its own only if the cookie was missing or refused |
| Lifecycle.RunKeepsInv | lifecycle/lifecycle.go:80-324 | flags, batches under way and results agree after every interleaving of invocations |
| Lifecycle.BatchesNeverOverlap | lifecycle/lifecycle.go:90-134 | no two batches of hooks are ever under way together |
| Lifecycle.PhasesHappenOnce | lifecycle/lifecycle.go:222-323 | shutdown and stop hooks run at most once each; startup succeeds at most once |
| Lifecycle.StopFollowsShutdown | lifecycle/lifecycle.go:287-303 | stop hooks begin only after shutdown hooks have ended |
| Lifecycle.RunSettles | lifecycle/lifecycle.go:95-98 | no startup begins once shutdown is intended, and results are final |
| Lifecycle.IntendedExactlyOnceCalled | lifecycle/lifecycle.go:236-243 | shutdown is intended exactly once somebody has called for it, even if startup was in the way |
| Lifecycle.StartupIsAnswered | lifecycle/lifecycle.go:90-107 | in every run a startup call returns at once after success, is canceled once shutdown was called for, refused while under way, and otherwise runs the hooks |
| Lifecycle.ShutdownIsAnswered | lifecycle/lifecycle.go:222-246 | in every run a shutdown call runs the hooks exactly if none have begun and no startup is under way |
| Lifecycle.BatchEndsWith | lifecycle/lifecycle.go:124-134 | what a batch of hooks comes to: what they did, canceled for startup that shutdown overtook, shutdown's error for stop |
| Lifecycle.LaterCallsReturnTheResult | lifecycle/lifecycle.go:227-234 | later calls are answered with the stored results |
| Lifecycle.StopReportsShutdownFirst | lifecycle/lifecycle.go:310-315 | stop reports shutdown's error when there was one |
| Lifecycle.StopRunsExactlyIf | lifecycle/lifecycle.go:279-303 | after shutdown a new Stop runs the stop hooks if and only if shutdown's error is not a phase error and none has begun |
| Lifecycle.PhaseErrorFromShutdownBlocksStop | lifecycle/lifecycle.go:279-282 | a shutdown result that is a phase error keeps stop hooks from ever running |
| Lifecycle.StopCanBeBlocked | lifecycle/lifecycle.go:222-282 | one shutdown hook that returns what a re-entrant call gave it does that |
| Lifecycle.OthersOnlyIntend | lifecycle/lifecycle.go:236-243 | while a batch is under way, other invocations change nothing but the intent to shut down |
| Lifecycle.StartupComesToItsFirstFailure | lifecycle/lifecycle.go:109-122 | startup comes to the failure at the least index that has one, a hook's own before its context's, and to none exactly if there is none |
| Lifecycle.ShutdownComesToItsFirstError | lifecycle/lifecycle.go:251-256 | shutdown comes to the error at the least index that has one, and to none exactly if there is none |
| Lifecycle.ServerLifecycle.RunUntilFailure | lifecycle/lifecycle.go:109-122 | the startup loop runs the hooks up to the first that fails, and none after it, and returns that failure |
| Lifecycle.ServerLifecycle.RunAll | lifecycle/lifecycle.go:251-256 | the shutdown loop runs every hook once, in order, and returns the first error |
| Lifecycle.ServerLifecycle.BeginStart | lifecycle/lifecycle.go:80-135 | enter, run the hooks up to the first failure, leave, with others calling and starting and finishing tasks in between |
| Lifecycle.ServerLifecycle.FinishStart | lifecycle/lifecycle.go:152-197 | the same for the hooks after the listener is bound |
| Lifecycle.ServerLifecycle.BeginShutdown | lifecycle/lifecycle.go:212-268 | the same for shutdown, deferred while startup is under way |
| Lifecycle.ServerLifecycle.FinishStop | lifecycle/lifecycle.go:287-324 | the same for stop |
| Lifecycle.ServerLifecycle.Go | lifecycle/lifecycle.go:328-351 | a task is counted, on a new channel if it is the first, unless shutdown is intended |
| Lifecycle.ServerLifecycle.TaskFinished | lifecycle/lifecycle.go:353-363 | the last task closes the channel, which was open |
| Tasks.CountAndChannelTellTheTruth | lifecycle/lifecycle.go:328-363 | the count is the number of live tasks, the channel is closed exactly when there are none, and none is closed twice |
| Tasks.WaitMeansFinished | lifecycle/lifecycle.go:368-388 | Wait returns only when every task alive when it sampled has finished |
| Tasks.WaitReturnsExactlyOnceIdle | lifecycle/lifecycle.go:368-388 | a wait returns exactly once there has been a moment without tasks since it sampled |
| Tasks.StartedExactlyUnlessIntended | lifecycle/lifecycle.go:328-351 | a task is started exactly unless shutdown has been intended |
| Tasks.WaitReturnsWhenIdle | lifecycle/lifecycle.go:368-388 | and it can return as soon as none is alive |
| Tasks.WaitAfterIntentIsFinal | lifecycle/lifecycle.go:333-336 | after shutdown is intended, its return means that no task is alive or ever will be |
| StructTags.ParityIsReading | gx/internal/gen/dao/output.go:173-179 | counting backslashes back from a quote and reading from the left agree on what is escaped |
| StructTags.EscapeLeavesNoneBare | gx/internal/gen/dao/output.go:160-166 | the repair loop leaves no quote that is not escaped |
| StructTags.EscapeKeepsTheSigns | gx/internal/gen/dao/output.go:160-166 | and every other sign is read as before |
| StructTags.RepairTouchesOnlyTheValue | gx/internal/gen/dao/output.go:137-171 | the text before the value and from its closing quote on is unchanged, and that quote still closes it |
| StructTags.RepairIsIdempotent | gx/internal/gen/dao/output.go:137-171 | repairing again changes nothing |
| StructTags.ValidatorFindsTheSameQuote | gx/internal/gen/dao/output.go:231-241 | the validator's scan from the gorm value ends at the repair's closing quote |
| StructTags.ValidExactlyIfSpelled | gx/internal/gen/dao/output.go:213-254 | a tag is valid exactly if it is made of pairs set apart by spaces: keys of allowed characters, values in quotes with no bare quote inside that can be unquoted and found |
| StructTags.BoundaryExactlyIf | gx/internal/gen/dao/output.go:181-193 | what may follow a value: nothing, or a gap and then nothing or a valid tag |
| StructTags.RepairExactlyWhen | gx/internal/gen/dao/output.go:137-171 | the repair complains exactly if no quote closes the gorm value, and changes the tag exactly if a bare quote stands before the first that does |
| StructTags.FoundIsTagged | gx/internal/gen/dao/output.go:139-157 | what the repair takes apart makes up the tag again |
| StructTags.IsEscapedAt | gx/internal/gen/dao/output.go:173-179 | the loop computes the parity |
| StructTags.ScanQuoted | gx/internal/gen/dao/output.go:231-238 | the loop finds the first quote that is not escaped |
| StructTags.ValidateStructTag | gx/internal/gen/dao/output.go:213-254 | the loop accepts exactly the valid tags |
| StructTags.FindClosingQuote | gx/internal/gen/dao/output.go:144-153 | the loop finds the first quote that can close the value |
| StructTags.EscapeValue | gx/internal/gen/dao/output.go:158-166 | the loop escapes the value and says whether it changed |
| StructTags.SanitizeGormStructTag | gx/internal/gen/dao/output.go:137-171 | the repair as a whole |
| PersistentRun.Run.Finish | scheduler/persistent_execution.go:42-71 | gives the lock back and records the end, once |
| PersistentRun.Run.Execute | scheduler/persistent_execution.go:14-117 | every scenario, panics and a handler that ends its goroutine included, makes exactly the calls it should, in order, and ends without an error exactly for runs that succeeded or were skipped and could be recorded |
| PersistentRun.LockIsGivenBackExactlyUnless | scheduler/persistent_execution.go:48-57 | a lock that was taken is given back exactly once, unless the handler ends its goroutine; another never |
| PersistentRun.FinishIsRecordedExactlyUnless | scheduler/persistent_execution.go:59-70 | the end is recorded exactly once, unless the handler ends its goroutine or its error cannot be read |
| PersistentRun.SuccessIsRecordedExactlyIf | scheduler/persistent_execution.go:53-55 | success is recorded if and only if handler and unlock succeeded in time |
| PersistentRun.StatusIsRecordedExactlyIf | scheduler/persistent_execution.go:81-116 | which status is recorded for which run: exactly one fits; past the deadline comes before canceled |
| PersistentRun.CallsAreInOrder | scheduler/persistent_execution.go:81-116 | lock before handler, handler before unlock, record last |

## Hypotheses

* Where a result asks for operations to succeed it says so: no outside fault among them, by the ghost count. In `Reconcile` an outside fault is a
  failing engine or a scheduler stopped meanwhile, and jobs that are no longer valid are accounted for apart. That
  an undo is not refused for a missing or duplicate job, or a place that is taken, is proved, not assumed.
* Times do not go back between calls on the revocation store and the session store.
* Nobody else changes the project directory during a transaction; temporary names collide with no name in
  the project.
* Signatures cannot be forged, digests do not collide, random identifiers are unique.

## Left out

- Manager.Scheduler.AddJob: job records are values in the manager's maps, so aliasing of a record between the manager and a running trigger is modelled by the flags that triggers look at in `Generations` only.
- Manager.Scheduler.RemoveHandles: the stale handles of a record are a set, so the order in which they are tried is arbitrary.
- Manager.Scheduler.ReplaceJob: validation of a definition and cron parsing is one given answer per call.
- Manager.Scheduler.StartAll: after a failed Start the abandoned engine is out of the model; Stop's wait for running jobs is a step of its own.
- Generations.StagesMoveAlong: a step of an operation and each look of a trigger are atomic; what the engine does to a trigger before its first look is not modelled, so a trigger of an installed generation may arrive at any time.
- Reconcile.RolledBackSyncChangesNothing: in a history every rollback's undos are accepted; what one with refused undos leaves is said by the contract of `Reconcile.Loader.Sync` only.
- Reconcile.Loader.Sync: undo closures are values that name the job they put back; the store's query is a given list.
- FileTree.Root.Validate: symbolic links are nodes that are refused, not followed; permissions, device boundaries and fsync are not modelled.
- Paths.AcceptedStaysInside: paths are Unix paths; Windows separators and volume names are not modelled.
- Transaction.FileTransaction.Write: the staged path is kept as its component sequence instead of as its cleaned string, which `Paths.OverlapOfPlaces` shows to overlap alike.
- Transaction.FileTransaction.Commit: staged files are published in arbitrary order instead of in sorted order.
- Directories.Begin: a stage is given by its path below the root instead of by an absolute path.
- Pipeline.Workspace.Publish: discovery, generation, rendering and validation come before and are not modelled; go.mod and go.sum are apart from the swapped directories.
- Revocation.MemoryCookieRevocationStore.IsRevoked: the digests of tokens and families are the tokens and families themselves.
- Sessions.CookieStorage.EncodeWithFamily: a ttl is a whole number of seconds, and values that have no JSON form count as a failure from outside.
- Sessions.CookieStorage.Delete: every signed cookie has a family; cookies signed before families existed are not modelled.
- Sessions.ManagedSession.Regenerate: the branch for stores that are not cookies is not modelled; HTTP cookie publication is one step that may fail beforehand.
- Sessions.StepKeepsInv: a handle is one request's view of a session, and its own mutex lets it make one change at a time; times come from one clock.
- Lifecycle.ServerLifecycle.BeginStart: hooks do not panic; the context's error is given for each hook.
- StructTags.ValidateStructTag: what strconv.Unquote accepts and what reflect finds in a tag are given predicates; tags are sequences of characters instead of bytes.
- PersistentRun.Run.Execute: the texts of errors and the times of a record are not modelled.
- Middleware wrapping, timeouts of a job's context and logging in scheduler/execution.go: library plumbing.
- gocron timing, HTTP serving, rendering templates, database introspection, OpenAPI generation: foreign calls or tables.
