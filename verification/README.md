# Hypeman in Dafny

A model of the parts of Hypeman, a manager of virtual machines, whose correctness rests on
concurrency, crashes or arithmetic, with proofs of what they promise. Each component is
given twice where the source changes state in place: as functions or relations on values,
about which the theorems are proved over all runs, and as classes and methods with the
source's own loops and branches, proved to do what the functions say.

| files | component |
|---|---|
| `ConnectionClassifier`, `StandbyState`, `StandbyWorld`, `StandbyGrounds`, `StandbyFlight`, `StandbyOverlap`, `StandbyTracking`, `StandbyCountdown`, `StandbyController`, `RuntimePersistence` | auto-standby: an event loop that drops its lock around a conntrack snapshot, holds placed by API calls, standby workers, and the persistence of idle times |
| `BuildQueue`, `BuildFairness`, `BuildScheduler` | the build queue with per-key exclusion, and how long a build can wait |
| `BuilderHost`, `BuilderManager` | persistent builders: leases, disks, crash recovery, the idle reaper |
| `BuildExecution`, `BuildNesting`, `BuildReaperRuns`, `BuildRunner` | how a build nests its VM, its lease and its key, against a reaper that clears disks without the lock |
| `VFHealthFile`, `VFHealth`, `VFHealthStore`, `VendorVFIO` | the quarantine of unhealthy virtual functions |
| `SharedExtents` | the charge for shared disk extents |
| `BalloonPlanner`, `BalloonControl`, `BalloonController` | memory reclaim from guests |
| `SparseCopy` | copying files without their holes |
| `DiskUsageCache` | the generation-checked cache of disk usage totals |

`dafny verify dfyconfig.toml` checks everything.

Concurrent code is modelled as a machine whose steps are the locked sections and the calls
between them; a theorem about all runs quantifies over every sequence of enabled steps.
Clocks, snapshots, file system and hypervisor answers are parameters or arbitrary choices,
and every call that can fail may fail.

## What does not hold

Some properties one might expect are false of the source. Each has a concrete
counterexample or a failing family, and the exact condition under which the property
does hold where there is one.

- A planned reclaim can be negative, and the plan can miss its total, because a product of
  two int64 numbers in `lib/guestmemory/planner.go` line 35 is not range-checked
  (`BalloonPlanner.ProductOverflowBreaksThePlan`, `BalloonPlanner.ExactIff`).
- Two StandbyInstance calls can overlap on one state when an instance is deleted and made
  again during a standby: the old worker clears the mark of the new state
  (`StandbyOverlap.OverlapIsReachable`). An instance is safe from it exactly as long as no
  worker does that to a state of its own (`StandbyFlight.UsurpingUnmarks`).
- A refresh of an instance whose address does not parse can leave it with a policy and
  nothing to bring it up again (`StandbyTracking.NextTracks`), until a refresh finds an
  address that parses or the instance is no longer eligible
  (`StandbyTracking.RefreshFindsAgain`).
- Such a refresh also takes over a new timeout without moving the deadline or dropping the
  request, so a standby can start before the timeout in force has passed
  (`StandbyOverlap.EarlyStartIsReachable`, `StandbyCountdown.RefreshDueIff`).
- The VM of a build can outlive its lease, because the error of its deletion is dropped
  (`BuildNesting.VMInLeaseIff`). The next acquisition removes it
  (`BuildNesting.AcquireRemovesStrays`).
- The reaper clears attachments without the lock. A builder deleted and made again in
  between can lose a running build's VM, or have two VMs on its disk
  (`BuildReaperRuns.RecreatedBuilderIsCleared`, `BuildReaperRuns.TwoVMsOnOneDisk`); a builder
  not made again in between cannot (`BuildNesting.ReaperSparesBuilds`).
- A build without a key can wait for ever behind keys handed over to later builds
  (`BuildFairness.StarvationIsReachable`); these are all it can wait for beyond its turn
  (`BuildFairness.BoundedWait`).
- An initialisation of the VF store while a rename is not yet durable forgets the latched
  error, and reads return the visible rather than the durable set
  (`VFHealth.BadReadIsReachable`, `VFHealth.InitReads`).
- Instance IDs with a NUL byte make different assignments collide
  (`VFHealthFile.NulMakesKeysCollide`).
- An extent whose end wraps around 2^64 is charged but never held
  (`SharedExtents.WrappedExtentIsNeverHeld`).
- The sparse copy does not end if and only if its loop comes to a position that SEEK_DATA and
  SEEK_HOLE both answer with itself (`SparseCopy.RunsForeverIff`).
- Disk usage totals stay loaded and stale after an image writer whose scan fails, because
  its refresh starts no new generation (`DiskUsageCache.FailedRefreshLeavesStale`,
  `DiskUsageCache.StaleIff`).

The branch of `ReleaseBuild` for a builder deleted while held cannot be reached
(`BuilderManager.Manager.ReleaseBuild`): a held builder always has its metadata.

## Model

| member | source | states |
|---|---|---|
| `ConnectionClassifier.MatchesForEvent` | lib/autostandby/controller.go:1232-1252 | true exactly for a flow to the instance's parsed address, on a port and from a source its policy does not ignore |
| `ConnectionClassifier.MatchesInbound` | lib/autostandby/classifier.go:35-57 | the snapshot classifier: the same flows, and only in a live TCP state |
| `ConnectionClassifier.MatchingConnections` | lib/autostandby/controller.go:1217-1230 | exactly the keys of the flows of a snapshot that keep the instance awake; an error exactly when the address does not parse |
| `ConnectionClassifier.Matching` | lib/autostandby/controller.go:1223-1229 | contains the key of every matching flow and no other |
| `ConnectionClassifier.ActiveInboundCount` | lib/autostandby/classifier.go:20-32 | counts zero exactly when no flow of the snapshot keeps the instance awake |
| `ConnectionClassifier.SnapshotIsIndex` | lib/autostandby/controller.go:1217-1230 | a snapshot of the conntrack table yields the matching part of the table |
| `ConnectionClassifier.IndexFollowsTable` | lib/autostandby/controller.go:690-755 | event by event the active set stays the matching part of the table, for every history |
| `ConnectionClassifier.EventIndexRefinesSnapshot` | lib/autostandby/controller.go:690-755 | seeded from a snapshot and fed every event since, the active set equals what a fresh snapshot would give |
| `StandbyState.RefreshHeld` | lib/autostandby/controller.go:590-671 | a refresh never leaves a deadline before the hold, a request before the hold, or a deadline without a policy |
| `StandbyState.RefreshTracks` | lib/autostandby/controller.go:590-671 | a refresh keeps the instance tracked if and only if it does not install a policy on a state without one for an unparsable address |
| `StandbyState.OnEventHeld` | lib/autostandby/controller.go:690-755 | a connection event respects the hold |
| `StandbyState.OnEventTracks` | lib/autostandby/controller.go:690-755 | a connection event leaves the instance active with a reconcile timer or counting down |
| `StandbyState.ConfirmedHeld` | lib/autostandby/controller.go:769-818 | the confirmation respects the hold on all four of its outcomes |
| `StandbyState.ConfirmedTracks` | lib/autostandby/controller.go:769-818 | so it does for tracking: unconfirmed and busy instances get a deadline or a reconcile timer |
| `StandbyState.RequestHeld` | lib/autostandby/controller.go:855-870 | a request is made only after the deadline and so after the hold |
| `StandbyState.WorkerHeld` | lib/autostandby/controller.go:905-979 | claim, failure and success respect the hold; a claim comes after it |
| `StandbyState.WorkerTracks` | lib/autostandby/controller.go:905-979 | claim, failure and success lose no instance |
| `StandbyState.ReconcileHeld` | lib/autostandby/controller.go:981-1034 | a reconcile respects the hold |
| `StandbyState.ReconcileTracks` | lib/autostandby/controller.go:981-1034 | a reconcile loses no instance |
| `StandbyState.HoldHeld` | lib/autostandby/controller.go:487-492 | placing a hold moves the deadline to or past it and cancels the request |
| `StandbyState.HoldTracks` | lib/autostandby/controller.go:487-492 | placing a hold loses no instance |
| `StandbyWorld.StatesAre` | lib/autostandby/controller.go:452-1034 | each step changes every instance's state as its own locked section does, and no other instance's |
| `StandbyWorld.LocalHeld` | lib/autostandby/controller.go:452-1034 | every step of every goroutine respects the hold of every instance |
| `StandbyWorld.NextHeld` | lib/autostandby/controller.go:452-1034 | the hold invariant is kept by every step, clock ticks and holds timed before the lock included |
| `StandbyWorld.RunHeld` | lib/autostandby/controller.go:452-1034 | the hold invariant holds in every state of every run |
| `StandbyWorld.HoldStays` | lib/autostandby/controller.go:452-497 | only a newer hold, or a step that clears or removes the state, ends a hold |
| `StandbyWorld.HoldIsPlaced` | lib/autostandby/controller.go:452-497 | a successful HoldStandby holds until its own time of call plus the timeout and cancels a queued request |
| `StandbyWorld.HoldGuarantee` | lib/autostandby/controller.go:445-497 | in every run, once a hold until h is in place no worker starts standby before h, unless the hold is replaced or its state cleared or removed |
| `StandbyGrounds.RequestComesFrom` | lib/autostandby/controller.go:690-734 | a request survives no matching live event and arises only in the timer handler's last section |
| `StandbyGrounds.LoopGrounded` | lib/autostandby/controller.go:838-872 | while the loop is inside the unlocked confirmation no connection event is applied |
| `StandbyGrounds.RunGrounded` | lib/autostandby/controller.go:838-887 | in every state of every run a confirmation and a request have a quiet snapshot behind them |
| `StandbyGrounds.JustifiedStandby` | lib/autostandby/controller.go:763-927 | in every run each start of StandbyInstance is preceded by a snapshot, taken for that timer, without a matching live flow, and by no matching live event since |
| `StandbyFlight.LocalMarks` | lib/autostandby/controller.go:905-927 | only a claim sets and only a worker's end clears the executing mark; states made anew are unmarked |
| `StandbyFlight.NextMarked` | lib/autostandby/controller.go:905-927 | the mark of an instance's state says whether a worker is busy on it after every step that does not unmark a state that is not the worker's own |
| `StandbyFlight.NextHonest` | lib/autostandby/controller.go:905-927 | at most one worker is busy on it, and the mark tells, after every such step |
| `StandbyFlight.UsurpingUnmarks` | lib/autostandby/controller.go:920-927 | a step keeps this for an instance if and only if it is not such an unmarking of that instance's state |
| `StandbyFlight.SingleFlight` | lib/autostandby/controller.go:905-929 | in every run, as long as no worker has unmarked another's state of that instance, a call for it starts only when no other is in flight on the same state; other instances do not matter |
| `StandbyFlight.SecondFlight` | lib/autostandby/controller.go:920-927 | after such a step a worker left over from a cancelled request starts a second call on a state whose call is still in flight |
| `StandbyFlight.NextAttended` | lib/autostandby/controller.go:838-979 | every step leaves every requested state attended: a worker is on its way, or in its call on that very state |
| `StandbyFlight.RequestHasWorker` | lib/autostandby/controller.go:838-979 | in every run, until shutdown, a requested state has a worker on its way or one in its call on it, without exception |
| `StandbyFlight.RequestHasPending` | lib/autostandby/controller.go:838-913 | and one on its way if it is not executing, as long as nobody has unmarked another's state of the instance |
| `StandbyOverlap.TimerRuns` | lib/autostandby/controller.go:838-887 | a due timer with an empty snapshot leads to a worker ready to claim |
| `StandbyOverlap.OverlapIsReachable` | lib/autostandby/controller.go:889-979 | a run from a fresh controller in which two calls overlap on one state, the instance having been deleted and made again meanwhile |
| `StandbyOverlap.EarlyStartIsReachable` | lib/autostandby/controller.go:596-619 | a run from a fresh controller in which a standby starts one unit after the instance fell idle under a timeout of ten, a refresh with a longer timeout and an unparsable address having left the request standing |
| `StandbyTracking.LocalTracks` | lib/autostandby/controller.go:452-1034 | every step of every goroutine keeps an instance tracked unless it is the forgetting refresh of it |
| `StandbyTracking.NextTracks` | lib/autostandby/controller.go:590-671 | a step of the controller keeps an instance tracked if and only if it is not the forgetting refresh of it |
| `StandbyTracking.NoForgottenInstance` | lib/autostandby/controller.go:590-1034 | in every run without a forgetting refresh of that instance, until shutdown a state with a policy is active with its reconcile timer set, has a deadline not before the hold, or has a request |
| `StandbyTracking.RefreshFindsAgain` | lib/autostandby/controller.go:590-671 | a later refresh finds a forgotten instance again if and only if its address parses and its policy compiles, or it is no longer eligible |
| `StandbyCountdown.RefreshDueIff` | lib/autostandby/controller.go:590-671 | a refresh keeps deadline and request exactly due if and only if it does not retime a countdown, held or not, or a request, that it then leaves standing |
| `StandbyCountdown.NextDue` | lib/autostandby/controller.go:452-1034 | a step of any goroutine keeps an instance's deadline exact and its request a full timeout after its idle start if and only if it is not such a refresh of it |
| `StandbyCountdown.FullCountdown` | lib/autostandby/controller.go:820-872 | in every run without such a refresh of the instance, whenever a worker starts its standby the idle time began at least one idle timeout ago, and every deadline is the later of idle start plus timeout and the hold |
| `StandbyCountdown.RestartResumes` | lib/autostandby/controller.go:641-670 | seeded from the persisted runtime and a quiet snapshot, a new state has the old idle start, activity time and deadline |
| `StandbyCountdown.RestartFindsTraffic` | lib/autostandby/controller.go:626-639 | seeded from a snapshot with live flows, it has no countdown but the reconcile loop |
| `StandbyController.ControllerState.constructor` | lib/autostandby/controller.go:1068-1075 | a fresh state |
| `StandbyController.ControllerState.ArmTimerLocked` | lib/autostandby/controller.go:1099-1123 | the deadline is the later of idle start plus timeout and the hold, and the timer's delay reaches it |
| `StandbyController.ControllerState.CancelTimerLocked` | lib/autostandby/controller.go:1125-1132 | no deadline is left |
| `StandbyController.ControllerState.ArmReconcileLocked` | lib/autostandby/controller.go:1134-1147 | the reconcile timer is set exactly when there are active flows |
| `StandbyController.ControllerState.CancelReconcileLocked` | lib/autostandby/controller.go:1149-1154 | the reconcile timer is off |
| `StandbyController.ControllerState.ClearStateLocked` | lib/autostandby/controller.go:1086-1097 | policy, flows, times, hold, request and timers are gone; the executing mark and the revision stay |
| `StandbyController.ControllerState.StageLocked` | lib/autostandby/controller.go:1165-1175 | the write carries the next revision |
| `StandbyController.ControllerState.RefreshInstanceLocked` | lib/autostandby/controller.go:590-624 | does what Refresh says; a write is staged exactly when the revision moves and mirrors the state |
| `StandbyController.ControllerState.RefreshActive` | lib/autostandby/controller.go:627-639 | the active branch, with the newer of the stored and the known activity time |
| `StandbyController.ControllerState.RefreshQuiet` | lib/autostandby/controller.go:641-670 | the idle branch: a stored idle start is resumed unless it is stale |
| `StandbyController.ControllerState.StartCountdown` | lib/autostandby/controller.go:710-719 | the countdown starts and its start is staged |
| `StandbyController.ControllerState.HandleConnectionEvent` | lib/autostandby/controller.go:690-755 | does what OnEvent says for this state, and stages a mirror of it |
| `StandbyController.ControllerState.HoldStandby` | lib/autostandby/controller.go:487-492 | does what Hold says and returns the time held until |
| `StandbyController.ControllerState.DeadlineElapsedLocked` | lib/autostandby/controller.go:825-832 | tells whether the deadline has passed, re-arming otherwise |
| `StandbyController.ControllerState.ConfirmIdle` | lib/autostandby/controller.go:769-818 | true exactly when the snapshot is readable and quiet; otherwise the state is re-armed or handed to the reconcile loop |
| `StandbyController.ControllerState.RequestStandby` | lib/autostandby/controller.go:855-870 | requests exactly when the guard holds and the deadline has passed |
| `StandbyController.ControllerState.ClaimStandby` | lib/autostandby/controller.go:905-916 | claims exactly a requested, quiet, unmarked state |
| `StandbyController.ControllerState.RecoverFromFailure` | lib/autostandby/controller.go:947-961 | a failed call restarts the countdown unless flows arrived |
| `StandbyController.ControllerState.ClearAfterStandby` | lib/autostandby/controller.go:970-976 | a successful call clears the state and stages the clear |
| `StandbyController.ControllerState.ReconcileActive` | lib/autostandby/controller.go:995-1030 | does what Reconcile says |
| `StandbyController.Controller.HandleConnectionEvent` | lib/autostandby/controller.go:688-756 | every instance's state sees the event once, whatever the map order, and each staged write mirrors its state |
| `RuntimePersistence.NextNewest` | lib/autostandby/controller.go:1177-1192 | a writer past its check is newer than every call made |
| `RuntimePersistence.NextAccounted` | lib/autostandby/controller.go:1165-1199 | while its state is attached a finished writer either called or was superseded |
| `RuntimePersistence.RunKeeps` | lib/autostandby/controller.go:1165-1199 | these hold in every interleaving of stages, lock, check, call and removal |
| `RuntimePersistence.PersistenceOrder` | lib/autostandby/controller.go:1165-1199 | SetRuntime calls of one state object come in strictly increasing revision order, and once drained without removal or error the store holds the runtime staged last |
| `BuildQueue.FirstFree` | lib/builds/queue.go:156-172 | the first pending build whose key is free, none before it being so |
| `BuildQueue.TakeBase` | lib/builds/queue.go:109-117 | starting a build whose key is free keeps exclusion, the limit, conservation and order |
| `BuildQueue.StartPendingInv` | lib/builds/queue.go:156-172 | the start loop restores saturation and keeps everything else |
| `BuildQueue.NewInv` | lib/builds/queue.go:38-48 | an empty queue is in order, whatever limit was asked for |
| `BuildQueue.EnqueueInv` | lib/builds/queue.go:60-98 | enqueue keeps the queue invariant, also for an ID already active or pending |
| `BuildQueue.CompleteInv` | lib/builds/queue.go:120-131 | completion keeps it, also for an unknown ID |
| `BuildQueue.ReleaseInv` | lib/builds/queue.go:136-152 | releasing a key keeps it, although the successor starts beyond the limit |
| `BuildQueue.CancelInv` | lib/builds/queue.go:216-234 | cancelling keeps it |
| `BuildQueue.RunInv` | lib/builds/queue.go:60-234 | after every sequence of operations: no two active builds hold one key, builds that released none stay within the limit, work waits only for a slot or a held key, every enqueue is in exactly one place, and starts follow enqueue order per key and among keyless builds |
| `BuildQueue.RunHistoryGrows` | lib/builds/queue.go:60-234 | what has started, finished or been cancelled stays so |
| `BuildQueue.PendingImpliesActive` | lib/builds/queue.go:156-185 | pending work implies active work |
| `BuildQueue.CompleteShrinks` | lib/builds/queue.go:120-131 | each completion takes exactly one build out |
| `BuildQueue.DrainTerminates` | lib/builds/queue.go:120-131 | completing active builds one by one empties the queue after exactly as many steps as it held builds, never getting stuck before |
| `BuildFairness.WaitIsFull` | lib/builds/queue.go:156-172 | a build without a key, or first for a free key, waits only when every slot is taken |
| `BuildFairness.ApplyEffect` | lib/builds/queue.go:60-234 | under every operation but its own cancellation it starts, or goes on waiting with one completion less ahead per completion and one more per key handed past it |
| `BuildFairness.OvertakenIff` | lib/builds/queue.go:136-152 | a build that waits for a slot is overtaken by a later build in an operation if and only if that operation hands a key past it |
| `BuildFairness.CompletionStartsHead` | lib/builds/queue.go:120-131 | a completion starts the head of the queue, its key being free, exactly when no build runs beyond the limit |
| `BuildFairness.BoundedWait` | lib/builds/queue.go:60-234 | over every run: a build that waits for a slot has started once there have been more completions than builds ahead of it and keys handed past it together |
| `BuildFairness.TurnIff` | lib/builds/queue.go:109-117 | a waiting build waits for a slot only if and only if no build with its key holds the key or was enqueued before it |
| `BuildFairness.PredecessorsShrink` | lib/builds/queue.go:60-234 | over every run: a waiting build that is not cancelled starts, or waits behind some of the builds with its key that it waited behind at first and no other |
| `BuildFairness.HolderLeaves` | lib/builds/queue.go:120-152 | when the only such build releases its key the waiting build starts at once; when it completes with it, the build starts or waits for a slot only |
| `BuildFairness.EveryBuildStarts` | lib/builds/queue.go:60-234 | bounded wait of any build, keyed or not: once nobody goes before it in its key, it has started after more completions than builds ahead of it and keys handed past it |
| `BuildFairness.OvertakenAgain` | lib/builds/queue.go:136-152 | a keyless build at the head of a full queue can be overtaken in one round with one completion and one key handed past it |
| `BuildFairness.StarvationRun` | lib/builds/queue.go:136-152 | and so for any number of rounds, with exactly that many completions and hand-overs |
| `BuildFairness.StarvationIsReachable` | lib/builds/queue.go:60-234 | from an empty queue, for every number of rounds, a run with exactly that many completions and keys handed past it after which the second build enqueued still waits: there is no bound on the wait, and the bound in completions and hand-overs is tight |
| `BuildScheduler.Scheduler.constructor` | lib/builds/queue.go:38-48 | the fields mirror an empty queue |
| `BuildScheduler.Scheduler.StartAt` | lib/builds/queue.go:158-169 | starts the pending build at a position and closes the gap |
| `BuildScheduler.Scheduler.StartPendingLocked` | lib/builds/queue.go:156-172 | the loop over slots and positions does what the start function says |
| `BuildScheduler.Scheduler.FirstStartable` | lib/builds/queue.go:158-166 | finds the first pending build whose key is free |
| `BuildScheduler.Scheduler.PositionOf` | lib/builds/queue.go:203-211 | finds a pending build's position |
| `BuildScheduler.Scheduler.EnqueueSerial` | lib/builds/queue.go:60-98 | mirrors enqueue and returns the queue position, zero when started |
| `BuildScheduler.Scheduler.MarkComplete` | lib/builds/queue.go:120-131 | mirrors completion |
| `BuildScheduler.Scheduler.ReleaseSerialKey` | lib/builds/queue.go:136-152 | mirrors the release and the hand-over beyond the limit |
| `BuildScheduler.Scheduler.CancelBuild` | lib/builds/queue.go:216-234 | mirrors cancellation and tells whether a pending build was removed |
| `BuildScheduler.Scheduler.HasSerialKey` | lib/builds/queue.go:267-285 | true exactly when an active or pending build uses the key |
| `BuilderManager.Manager.constructor` | lib/builders/manager.go:100-133 | a manager starting on whatever a crash left behind holds nothing and is crash safe |
| `BuilderManager.Manager.CreateBuilder` | lib/builders/manager.go:189-243 | at every crash point an existing disk has owning metadata; success leaves a ready builder with its disk |
| `BuilderManager.Manager.AbandonCreate` | lib/builders/manager.go:216-240 | a failed creation is undone or left for reconcile, crash safe at every point |
| `BuilderManager.Manager.EnsureDisk` | lib/builders/manager.go:486-499 | the disk exists after success and nothing else changes |
| `BuilderManager.Manager.ClearStaleAttachments` | lib/builders/manager.go:565-612 | after success the disk is unattached; only instances with a record on it are deleted |
| `BuilderManager.Manager.DeleteBuilder` | lib/builders/manager.go:288-328 | success removes metadata and disk, never of a held or busy builder, crash safe at every point |
| `BuilderManager.Manager.AcquireForBuild` | lib/builders/manager.go:331-368 | success holds a ready builder with an unattached disk; a held builder is refused and untouched |
| `BuilderManager.Manager.ReleaseBuild` | lib/builders/manager.go:371-401 | only the holder releases; a failed stamp keeps the hold |
| `BuilderManager.Manager.ResetDisk` | lib/builders/manager.go:404-450 | accepts a reset only of an idle ready builder and leaves it pruning |
| `BuilderManager.Manager.RunReset` | lib/builders/manager.go:456-482 | a reset ends ready on a fresh unattached disk, or pruning for the next reconcile |
| `BuilderManager.Manager.ReconcileOne` | lib/builders/manager.go:516-558 | one builder is settled, and no settled builder is unsettled |
| `BuilderManager.Manager.Reconcile` | lib/builders/manager.go:516-558 | an error-free reconcile ends with no deleting or pruning builder and every remaining one owning an unattached disk |
| `BuilderManager.Manager.MarkIdleBuilderDeleting` | lib/builders/manager.go:660-692 | unless the metadata cannot be read or written, marks the builder if and only if it is reapable, and touches nothing else |
| `BuilderManager.Manager.ReapOne` | lib/builders/manager.go:632-658 | a builder that is not reapable is left alone, one reported reaped was reapable and its metadata and disk are gone; every crash point is safe |
| `BuilderManager.RecoverFrom` | lib/builders/manager.go:516-558 | from any persistent state of any run, an interrupted reconcile included, a restart is crash safe and an error-free reconcile settles every builder |
| `BuildExecution.ApplyInv` | lib/builds/manager.go:617-619 | every event of builds, builders, reaper and VMs, failed deletions and half-done clearings included, keeps key window, leases and VMs in order |
| `BuildExecution.RunInv` | lib/builds/manager.go:688-712 | so it is in every state of every run from a fresh start |
| `BuildNesting.NestedWindows` | lib/builds/manager.go:877-948 | in every run: from acquiring to releasing its builder a build holds the lease and the key, and no other build does |
| `BuildNesting.AcquireMeetsOnlyLeaks` | lib/builders/manager.go:331-368 | in every run: a build about to acquire finds its builder held if and only if an earlier release was given up |
| `BuildNesting.VMInLeaseIff` | lib/builds/manager.go:945-948 | in every run: a VM on a builder's disk is inside its build's lease if and only if its deletion has not failed |
| `BuildNesting.KilledOnlyByReaper` | lib/builders/manager.go:565-612 | in every run: a running build's VM is deleted as stale if and only if the reaper visits it, and only on a builder made again in the course of the same pass of the reaper |
| `BuildNesting.NextListed` | lib/instances/delete.go:36-215 | every VM running on a disk keeps its record there, unless and only unless the reaper detaches the record of a running VM |
| `BuildNesting.OneVMPerDisk` | lib/builders/manager.go:565-612 | in every run without such a detachment on a builder no two VMs run on its disk, and a build that has acquired it finds none, strays of failed deletions included |
| `BuildNesting.AcquireRemovesStrays` | lib/builders/manager.go:331-368 | an acquisition removes every stray from the disk, or fails and leaves the lease alone |
| `BuildNesting.NextUndisturbed` | lib/builders/manager.go:632-658 | while the reaper is at a builder nothing boots on it and the reaper knows every VM there, unless the builder is made again meanwhile |
| `BuildNesting.ReaperSparesBuilds` | lib/builders/manager.go:632-692 | in every run in which a builder is not made again while the reaper is still at its predecessor, no build on it loses its VM and no two VMs ever run on its disk |
| `BuildReaperRuns.RecreatedBuilderIsCleared` | lib/builders/manager.go:632-658 | a run from a fresh start in which a builder made again between the reaper's two sections loses the VM of a running build |
| `BuildReaperRuns.TwoVMsOnOneDisk` | lib/builders/manager.go:632-658 | a run from a fresh start to two VMs on one builder disk, one of them a stray whose record the reaper detached |
| `BuildRunner.OthersLeave` | lib/builds/manager.go:688-712 | other builds, the reaper and the API leave a running build where it is |
| `BuildRunner.Runner.Acquire` | lib/builds/manager.go:877-881 | takes the lease only of a ready builder that nobody holds; a failure takes none, however far the clearing got |
| `BuildRunner.Runner.CreateInstance` | lib/builds/manager.go:901-937 | leaves the build with its VM, or past it |
| `BuildRunner.Runner.DeleteInstance` | lib/builds/manager.go:945-948 | the VM is gone, or on record as a stray when deleting it failed |
| `BuildRunner.Runner.ReleaseBuilder` | lib/builds/manager.go:882-897 | after at most five attempts the build has returned, and holds its builder only if the last one failed |
| `BuildRunner.Runner.ExecuteBuild` | lib/builds/manager.go:811-956 | on every path the VM is gone, or a stray if deleting it failed, before the builder is released, each step being one the machine allows |
| `BuildRunner.Runner.RunBuild` | lib/builds/manager.go:688-712 | a started build runs to its end through a run of the machine: builder, then key, then slot given back, a builder kept only through a leak, a VM left only by a failed deletion |
| `VFHealthFile.SortedRecords` | lib/devices/vf_health.go:380-387 | lists every record once, in address order |
| `VFHealthFile.CheckRecord` | lib/devices/vf_health.go:191-215 | accepts exactly the valid records |
| `VFHealthFile.LoadRecords` | lib/devices/vf_health.go:189-222 | accepts exactly lists of valid records with distinct addresses and returns their table |
| `VFHealthFile.LoadFile` | lib/devices/vf_health.go:168-222 | a missing file is an empty table; a file of another version, without records or malformed is refused |
| `VFHealthFile.KeyNamesAssignment` | lib/devices/vf_health.go:203-215 | two failures share a key exactly when they are of the same assignment, for instance IDs without NUL |
| `VFHealthFile.NulMakesKeysCollide` | lib/devices/vf_health.go:209-213 | with a NUL in the instance ID two different assignments share a key |
| `VFHealth.WrittenLoadsBack` | lib/devices/vf_health.go:518-563 | every written file passes load validation and loads back as the table it was written from |
| `VFHealth.ReloadUnchanged` | lib/devices/vf_health.go:160-224 | a load under the same threshold changes nothing and writes nothing |
| `VFHealth.NextInv` | lib/devices/vf_health.go:127-563 | every report, load, retry and crash, with every write failing before or after the rename, keeps memory at least as quarantined as the visible file |
| `VFHealth.CheckedIsVisible` | lib/devices/vf_health.go:233-252 | a successful read is exactly the visible file's quarantine set |
| `VFHealth.NextSynced` | lib/devices/vf_health.go:127-563 | without a latched error the visible and the durable file quarantine the same VFs, after every step if and only if it is not an initialisation that reads, and does not rewrite, a file that differs |
| `VFHealth.FailsClosed` | lib/devices/vf_health.go:142-252 | along every run without such an initialisation a successful read returns exactly the durably stored quarantine set |
| `VFHealth.InitReads` | lib/devices/vf_health.go:127-133 | after every initialisation a successful read agrees with the durable file if and only if the visible file did before or the initialisation rewrote the file |
| `VFHealth.BadReadIsReachable` | lib/devices/vf_health.go:127-133 | a run from an empty directory to a successful read of a quarantine that is not durable |
| `VFHealth.QuarantineSticks` | lib/devices/vf_health.go:389-441 | a report that quarantines has made the quarantine durable |
| `VFHealth.NextStuck` | lib/devices/vf_health.go:447-496 | only a success matching the newest recorded failure lifts a quarantine |
| `VFHealth.StaysQuarantined` | lib/devices/vf_health.go:226-496 | so over whole runs, through reloads, crashes and threshold changes |
| `VFHealthStore.HealthStore.WriteStateLocked` | lib/devices/vf_health.go:518-563 | the file is replaced at the rename or not at all, and durable only on success |
| `VFHealthStore.HealthStore.PersistLocked` | lib/devices/vf_health.go:509-516 | latches or clears the write error |
| `VFHealthStore.HealthStore.MarkOverdue` | lib/devices/vf_health.go:142-158 | quarantines exactly the records whose tally meets the threshold |
| `VFHealthStore.HealthStore.LoadLocked` | lib/devices/vf_health.go:160-224 | loads and requarantines, or empties memory and latches the load error |
| `VFHealthStore.HealthStore.Init` | lib/devices/vf_health.go:127-133 | is the initialisation step of the store under a new threshold; reads that succeed afterwards agree with the durable file if and only if the visible file did before or this call rewrote it |
| `VFHealthStore.HealthStore.EnsureLoadedLocked` | lib/devices/vf_health.go:226-231 | reloads only after a failed load |
| `VFHealthStore.HealthStore.RetryPersistLocked` | lib/devices/vf_health.go:498-504 | retries only a latched write |
| `VFHealthStore.HealthStore.CheckedAddresses` | lib/devices/vf_health.go:233-252 | answers exactly when nothing is latched, with the quarantine set of memory and file |
| `VFHealthStore.HealthStore.CommitLocked` | lib/devices/vf_health.go:428-439 | a failure before the rename is rolled back in memory, one after it is not |
| `VFHealthStore.HealthStore.ReportFailure` | lib/devices/vf_health.go:389-441 | tallies a new assignment once, quarantines at the threshold, and a reported quarantine is durable |
| `VFHealthStore.HealthStore.ReportSuccess` | lib/devices/vf_health.go:447-496 | clears the matched failure and older ones; rescinds exactly when it matched the newest |
| `VendorVFIO.Device.constructor` | lib/devices/vendor_vfio_linux.go:153-214 | starts from VFs of any types |
| `VendorVFIO.Device.Reset` | lib/devices/vendor_vfio_linux.go:179-201 | clears a type only of a device not in use and verifies it |
| `VendorVFIO.Device.Configure` | lib/devices/vendor_vfio_linux.go:153-214 | never writes a profile type to a VF quarantined, or of unknown health, at that moment; success is read back |
| `SharedExtents.Search` | lib/diskutilization/diskutilization_reflink_linux.go:143-145 | binary search for the first range that ends at or after the start |
| `SharedExtents.AddedExactly` | lib/diskutilization/diskutilization_reflink_linux.go:149-160 | what the merge loop charges is the growth of the union, without unsigned underflow |
| `SharedExtents.SplicedCovers` | lib/diskutilization/diskutilization_reflink_linux.go:162-171 | the merged range replaces what it touched: the union is the old one plus the extent |
| `SharedExtents.SharedExtentTracker.Add` | lib/diskutilization/diskutilization_reflink_linux.go:137-173 | keeps the ranges sorted, non-empty and separated, makes the union the old one plus the extent, and returns exactly its growth |
| `SharedExtents.SharedExtentTracker.MergeTouching` | lib/diskutilization/diskutilization_reflink_linux.go:146-171 | the merge loop and the splice |
| `SharedExtents.WrappedExtentIsNeverHeld` | lib/diskutilization/diskutilization_reflink_linux.go:142-173 | for an extent whose end wraps no table can meet that contract: it is met exactly when the end does not wrap |
| `SharedExtents.ChargeExtent` | lib/diskutilization/diskutilization_reflink_linux.go:111-121 | one extent: private length, or the growth of the shared union |
| `SharedExtents.AccountExtents` | lib/diskutilization/diskutilization_reflink_linux.go:111-121 | over any list of extents the shared charge is the size of the union of the shared ones beyond what was already held |
| `SharedExtents.ChargeIsOrderFree` | lib/diskutilization/diskutilization_reflink_linux.go:111-121 | whatever the order |
| `BalloonPlanner.RemainingClosed` | lib/guestmemory/planner.go:43-55 | the repair loop hands out what is left until the headroom of those before is used up |
| `BalloonPlanner.ExactIff` | lib/guestmemory/planner.go:13-58 | the plan is within every headroom and adds up to the clamped total if and only if the shares, as the wrapping product gives them, do not exceed the total and what is left makes up for a negative one |
| `BalloonPlanner.PlanIsExact` | lib/guestmemory/planner.go:13-58 | without overflow at the product every plan is exact |
| `BalloonPlanner.SmallHostsFit` | lib/guestmemory/planner.go:33-40 | below about 2.8 GiB of headroom in all nothing can overflow |
| `BalloonPlanner.ProductOverflowBreaksThePlan` | lib/guestmemory/planner.go:35-39 | three VMs of 3 GiB headroom and a request for 3 GiB: the third is planned more memory than it was assigned |
| `BalloonPlanner.ShareOut` | lib/guestmemory/planner.go:33-41 | the proportional loop |
| `BalloonPlanner.HandOut` | lib/guestmemory/planner.go:43-55 | the repair loop |
| `BalloonPlanner.PlanGuestTargets` | lib/guestmemory/planner.go:13-58 | with distinct IDs every VM's target is its size less its planned reclaim; without candidates, headroom or total, its size |
| `BalloonControl.NormalizeRepairs` | lib/guestmemory/active_ballooning.go:52-88 | every configuration becomes sane, and exactly the sane ones are left alone |
| `BalloonControl.Hysteresis` | lib/guestmemory/planner.go:65-82 | after any history the pressure state is that of the latest sample outside the band between the watermarks |
| `BalloonControl.QuietHistory` | lib/guestmemory/planner.go:65-82 | samples inside the band never change it |
| `BalloonControl.AutomaticTargetCloses` | lib/guestmemory/planner.go:84-97 | the automatic target closes the gap to the low watermark |
| `BalloonControl.HoldStands` | lib/guestmemory/controller.go:104-133 | a manual hold stands through every later poll or dry run exactly until it expires |
| `BalloonControl.AppliedApproaches` | lib/guestmemory/controller.go:242-260 | the applied target lies between floor and size, moves towards the plan by at most a step without overshooting, and stays exactly when near enough or cooling down |
| `BalloonControl.RoundsShrink` | lib/guestmemory/controller.go:242-260 | after n forced rounds the distance to the plan has shrunk by n steps, or is below the minimum adjustment |
| `BalloonControl.ConvergesExactly` | lib/guestmemory/controller.go:242-260 | a VM is within the minimum adjustment of its plan after n rounds, and then stays, if and only if n steps leave less than that |
| `BalloonControl.Converges` | lib/guestmemory/controller.go:242-260 | also from below the floor, within the distance divided by the step |
| `BalloonControl.FleetConverges` | lib/guestmemory/controller.go:214-306 | for a whole host: every VM near its plan, and the memory given up within the minimum adjustment per VM of the requested total |
| `BalloonController.ForcedRound` | lib/guestmemory/controller.go:236-306 | a forced round without errors is one step of that argument |
| `BalloonController.ForcedTotalIsTotal` | lib/guestmemory/controller.go:188-213 | for a forced request on an unstressed host the total does not depend on the clock, the hold or the balloons |
| `BalloonController.ForceOnce` | lib/guestmemory/controller.go:80-351 | a forced reconcile in which every hypervisor answers and obeys moves the hypervisors' targets by one such round |
| `BalloonController.ForceRepeatedly` | lib/guestmemory/controller.go:80-351 | n forced reconciles with every hypervisor answering and obeying leave every hypervisor's target within the minimum adjustment of its plan, and their sum within that much per VM of the total, once n steps cross a VM's memory; the total is the same every time unless the host is stressed |
| `BalloonController.Controller.constructor` | lib/guestmemory/active_ballooning.go:198-228 | starts healthy, without a hold, on a sane configuration |
| `BalloonController.Controller.Gather` | lib/guestmemory/controller.go:148-187 | every listed VM is a candidate at its clamped target or skipped, in order, and the current reclaim is their sum |
| `BalloonController.Controller.UpdateHold` | lib/guestmemory/controller.go:104-133 | an expired hold goes, a forced request sets or clears it |
| `BalloonController.Controller.Steer` | lib/guestmemory/controller.go:237-306 | one VM: what is reported, what is written, when its cooldown starts |
| `BalloonController.Controller.SteerAll` | lib/guestmemory/controller.go:236-306 | every VM is reported against the plan, every write lies within floor and size, a dry run writes nothing |
| `BalloonController.Controller.Prune` | lib/guestmemory/controller.go:321-330 | forgets exactly the VMs no longer tracked |
| `BalloonController.Controller.Reconcile` | lib/guestmemory/controller.go:80-351 | on success the planned reclaim is the larger of automatic and manual target clamped to the headroom, whenever the plan is exact; a failed sample changes nothing, a failed listing at most the hold |
| `SparseCopy.Destination.CopyExtent` | lib/forkvm/copy_sparse_unix.go:103-140 | either the whole extent is copied or the copy fails, and only positions of the extent are written, under any short reads and writes |
| `SparseCopy.Destination.WriteChunk` | lib/forkvm/copy_sparse_unix.go:123-133 | repeats short writes until the chunk is out |
| `SparseCopy.CopyNext` | lib/forkvm/copy_sparse_unix.go:59-98 | one iteration passes over everything up to the data start and copies the extent |
| `SparseCopy.CopyRegularFileSparse` | lib/forkvm/copy_sparse_unix.go:46-101 | success writes exactly the positions no seek passed over, so the copy equals the source if and only if everything passed over is zero there; after a failure every byte is zero or the source's and nothing passed over is written |
| `SparseCopy.MovesOn` | lib/forkvm/copy_sparse_unix.go:58-98 | until the loop visits a position that is both a data start and a hole every iteration moves on, so within as many iterations as the file has bytes it ends |
| `SparseCopy.RunsForeverIff` | lib/forkvm/copy_sparse_unix.go:58-98 | the loop runs for ever if and only if it visits such a position |
| `SparseCopy.AllocationKept` | lib/forkvm/copy_sparse_unix.go:58-98 | for a file system that reports its allocation the loop ends and a finished copy has written exactly the allocated positions, so it is as sparse as the source |
| `DiskUsageCache.BytesOf` | lib/images/disk_usage.go:223-237 | the totals do not depend on the order of the walk |
| `DiskUsageCache.ApplyKeeps` | lib/images/disk_usage.go:138-221 | every step of readers, refreshers, writers and builds keeps the cache coherent |
| `DiskUsageCache.RunKeeps` | lib/images/disk_usage.go:138-221 | so does every interleaving of them |
| `DiskUsageCache.CacheCoherence` | lib/images/layer_artifact.go:331-348 | in every reachable state loaded totals mean no build is active and a scan begun in this generation; they are what a plain scan finds if nothing changed since that scan began, so once every layer writer has invalidated and no image writer or pull has changed the tree since |
| `DiskUsageCache.StaleIff` | lib/images/manager.go:536-601 | over every run: loaded totals may be stale if and only if some change, or the storing of a scan disturbed by one, has been followed by no new generation and no stored scan begun after the latest change |
| `DiskUsageCache.StoredRefresh` | lib/images/disk_usage.go:204-221 | a stored refresh leaves exact totals if nothing changed since its scan began; for an image writer holding createMu, if every layer writer has invalidated and no pull has written since |
| `DiskUsageCache.FailedRefreshLeavesStale` | lib/images/disk_usage.go:204-213 | from any state with loaded totals, an image writer whose scan fails leaves them loaded over a tree they do not describe |
| `DiskUsageCache.StaleIsReachable` | lib/images/disk_usage.go:204-213 | such a state is reached from a fresh store, with nothing running |
| `DiskUsageCache.ReaderAnswers` | lib/images/disk_usage.go:138-179 | a reader's answer comes from a scan of the current generation and is what a plain scan finds if nothing changed since it began |
| `DiskUsageCache.LayerStore.Invalidate` | lib/images/disk_usage.go:181-186 | a new generation, nothing loaded |
| `DiskUsageCache.LayerStore.BeginLayerBuild` | lib/images/disk_usage.go:188-194 | the same, with one more build |
| `DiskUsageCache.LayerStore.EndLayerBuild` | lib/images/disk_usage.go:196-202 | the same, with one build less |
| `DiskUsageCache.LayerStore.LookAt` | lib/images/disk_usage.go:143-151 | the read-locked section |
| `DiskUsageCache.LayerStore.SettleAt` | lib/images/disk_usage.go:158-175 | the write-locked section: retried, refused, cached or answered uncached |
| `DiskUsageCache.LayerStore.GetDiskUsageTotals` | lib/images/disk_usage.go:138-179 | with other threads running between its sections the reader ends within three scans, and its answer is exact if nothing changed since the scan behind it began |
| `DiskUsageCache.LayerStore.StoreTotals` | lib/images/disk_usage.go:214-221 | the write-locked section of a refresh: stores exactly in an unchanged generation without builds |
| `DiskUsageCache.LayerStore.RefreshDiskUsageTotals` | lib/images/disk_usage.go:204-221 | a scan that completes in an unchanged generation without builds is stored, and is exact if nothing changed since it began, or for an image writer if no layer writer owes an invalidation and no pull has written since; a failed scan stores nothing |
| `DiskUsageCache.LayerStore.ChangeImages` | lib/images/manager.go:536-601 | change then refresh under createMu: a completed refresh in an unchanged generation leaves exact totals under the same condition |

## Left out

- Logging, metrics, tracing, HTTP, gRPC and command-line plumbing: no effect on the decisions modelled.
- JSON text, policy text (durations and CIDR notation), netlink messages, sysfs and /proc parsing: values stand for parsed text, with a case for text that does not parse.
- The volume, instance, image and hypervisor managers: small contracts with arbitrary failures.
- Image push, image retention, egress proxy, ingress, Dockerfile parsing and build status metadata: easy members, or guarantees that rest on code that is not part of this model.
- Auto-standby timers as objects: a stale or late timer is covered by letting a timer fire at any moment; that a full channel drops a firing is not told apart from a timer that never fires.
- The bound on concurrent standbys: the slots are not counted, a queued worker may become ready at any moment.
- The clock of auto-standby is taken not to run backwards.
- Writes of an earlier state object of the same instance: the persistence order is proved for one state object, as long as it is not removed.
- BuildRunner.Runner.RunBuild: the methods step the machine of BuildExecution, not the builder manager's and the queue's own objects.
- BuildExecution.ApplyInv: the race of creating a build with deleting its builder before the enqueue is not modelled, and a VM whose start failed leaves no process behind.
- BuilderManager.Manager.CreateBuilder: validation of the request and the disk size are left out; the quota check is kept.
- VFHealthStore.HealthStore.Init: the memory-only mode with an empty path is left out, and so is initialisation concurrent with a configure.
- VFHealthStore.HealthStore.CheckedAddresses: the store's own lock makes each call one step; the list of free VFs computed from the result is left out.
- BalloonPlanner.PlanGuestTargets: only the product is wrapped to 64 bits; sums of sizes are taken as mathematical integers.
- BalloonController.Controller.Reconcile: the percentages are real numbers instead of floating point, and instance IDs are taken as distinct, as the instance store's keys are.
- SharedExtents.AccountExtents: the paging of the extent ioctl is left out.
- SparseCopy.CopyRegularFileSparse: seek answers are required not to lie before the offset they were given, and the loop not to come to a position where it would run for ever; the source file does not change during the copy, and the fallback of the caller is left out.
- DiskUsageCache.LayerStore.ChangeImages: what finalizing, deleting and retagging an image do to the tree is one change to an arbitrary tree.
- DiskUsageCache.LayerStore.GetDiskUsageTotals: how one file contributes to the totals (metadata, hard links, fallbacks) is abstracted to a pair of byte counts per path, and the generation counter does not wrap.
