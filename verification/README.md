# Verified model of the sandbox service

This project models, in Dafny, the stateful parts of the sandbox service and proves what they keep:
the chain of jobs behind an allocation or cleanup request, NetBird provisioning and teardown, pool
capacity and sandbox locks, the topology definition cache, and the routing of a sandbox.
`dafny verify dfyconfig.toml` checks everything.

Each part has the same shape.  Plain functions on values say what one operation does; classes and
methods with the source's own loops, early returns and field updates are proved equal to those
functions; lemmas then prove properties of the functions over all inputs and all runs.

## The job chain

`StageChain` is one request as a step system: three stage rows, the queue jobs, the sandbox, and what
was reported to the request group.  Positions are chain positions, so that an allocation (stack,
networking, user) and a cleanup (user, networking, stack) are the same chain.  The queue is abstract: a
job may begin when it is registered and all its dependencies have succeeded; deleting a job deletes
its dependents.  A run interleaves allocation, starts, ends, exception handlers, cancel passes (any of
whose stages may raise, before or after its job was deleted), restarts, deletion of the sandbox and
cleanup.  A stage can end well, fail, end well behind a row that was replaced, or report its end and then
fail because removing its container raises.

`ChainSafety` proves the failure closure and that a restart rebuilds exactly the failed suffix,
`ChainReady` that a ready sandbox has three good stages, `ChainFinish` exactly when a sandbox is ready and that a
good allocation gets there, `ChainEffects` what single steps change and how stages are listed, `ChainProgress` that some job can always run
and that workers finish in boundedly many steps, `ChainReports` what a unit tells its group and exactly when
it can still tell something, `ChainRestart` the effect of accepted and of rejected restarts, and
`ChainStalePass` what a cancel pass that works on old rows does.
`RequestGroups` lifts the reports of many units to the counters and mails of their group, and says
exactly when the summary of a batch can still be sent.  `ChainHandlers` has the handlers as classes.

## NetBird

`NetbirdWorld` is what the provisioning code lives in: the objects in the cloud with the groups they
refer to, the rows that name them, the clock, and the trace of issued calls.  A `Script` says, for each
operation of a run, how it ends, how long it takes, what the server answers, and whether the sandbox is
deleted just before it, so that a statement for all scripts is a statement about every pattern of
failures and every moment of a concurrent deletion.  A failed create makes nothing, deleting what is
not there succeeds, and a `strict` server refuses to delete a group that is still in use.

`NetbirdProvision` and `NetbirdTeardown` are the two directions.  `NetbirdWiring` says which object
refers to which group when provisioning reports success, `NetbirdCompletion` exactly what comes about when some calls
fail.  `NetbirdLeftovers` has the residue of a round
trip and of a sandbox deleted in the middle, `NetbirdNames` the exact condition under which a round trip
without failures is the identity, `NetbirdPeers` what becomes of the peers of a group that is deleted, `NetbirdRecords` which
rows a teardown takes away, `NetbirdTracking` what is known between any two operations,
`NetbirdDeadline` the time bound, `NetbirdOverrun` for which rows the documented bound is true,
`NetbirdCrashes` which rows can lose the order of the deletes to a crash, and `NetbirdService` the
functions of the service on row objects.  The proof of the residue goes through the order of the
deletes: everything a sandbox names is one fixed list, in which users of a group stand before the group,
and a teardown issues deletes for a prefix of it.

## Pools, locks, cache, routing

`Pools` splits the cleanup finalizer into its commits.  `SandboxLocks` hands out sandboxes.
`TopologyCache` and `CacheKeys` prove the cache transparent where its keys are commits; `CacheStaleness`
says how stale it can be where they are branches, exactly when a forced refresh bounds that, and which
imports are current.  `Routing` proves what the descending sort and the overwriting loop compute.
`StackNames` and `Text` prove that name shortening undoes padding.

## Where the code and its promises differ

The model follows the code.

- `destroy_netbird_for_sandbox` documents an overrun of one call; a listing of peers right behind a slow
  deletion of a setup key makes it two.  The documented bound is true exactly for records without a key
  or without a group (`NetbirdOverrun.DocumentedBoundIff`).
- A crash of one call can have the access group deleted before host groups, unless every row names at most
  one object and no group (`NetbirdCrashes.CrashesKeepOrderIff`).
- A rejected restart has already replaced the sandbox, which no finalizer then waits for
  (`ChainRestart.RestartAwaitedIff`, `ChainRestart.RejectedRestartStrands`).
- The summary of a batch is meant for the moment all units have finished.  A unit whose next job was deleted
  while queued, or whose stack or networking stage was cancelled and restarted while it ran and went well all the
  same, never reports and blocks it (`RequestGroups.SummaryCanComeIff`); a unit whose container removal raises
  behind its report is counted twice and brings it forward (`RequestGroups.SummaryComesEarly`), and what then ends
  well has failed (`RequestGroups.EndAfterSummaryFails`).
- Two finalizers that empty a pool, or a locked pool, can leave it behind (`Pools.TryDeletesIff`).
- Locking a sandbox directly can give a user two, at once or later (`SandboxLocks.LockDirectlyKeepsIff`).
- A forced refresh does not keep a slower get from putting old content back
  (`CacheStaleness.LateStoreBreaksBound`, `CacheStaleness.RefreshBoundsIff`).
- In AGGRESSIVE mode importing a GitHub definition can yield what its branch held long ago
  (`CacheStaleness.ImportsAreCurrentIff`).
- Cache keys of different repositories can be equal (`CacheKeys.ReadOtherwiseIff`).
- Route ids of an interrupted route loop are lost (`NetbirdLeftovers.ProvisionThenDestroy`).

## Model

| member | source | states |
|---|---|---|
| ChainSafety.EnqueueShape | crczp/sandbox_instance_app/lib/request_handlers.py:102-138 | the enqueued jobs in full: each stage job depends on the one before it, the last stage also on provisioning, the finalizer on the last stage job; old jobs are untouched |
| ChainSafety.StepInv | crczp/sandbox_instance_app/lib/request_handlers.py:76-138 | every step, with late saves of running workers and cancel passes cut short, keeps rows and jobs consistent |
| ChainSafety.FailureClosure | crczp/sandbox_instance_app/lib/request_handlers.py:383-393 | over all runs, a finished request has only failed stages after a failed one; the cleanup chain keeps the mirrored law |
| ChainSafety.FinishedIsClosed | crczp/sandbox_instance_app/lib/stage_handlers.py:66-136 | the step behind it: finished rows that agree with their jobs are closed upward |
| ChainSafety.RestartRebuildsSuffixIff | crczp/sandbox_instance_app/lib/request_handlers.py:350-380 | the restart tests, the second reading a row the first may have replaced, rebuild exactly the failed suffix if and only if a failed stack stage comes with a failed networking stage |
| ChainSafety.RestartKeepsPrefix | crczp/sandbox_instance_app/lib/request_handlers.py:338-380 | in every reachable state an accepted restart keeps the rows before the first failed stage, whose last job has succeeded |
| ChainReady.FinalizerSeesAllOk | crczp/sandbox_instance_app/lib/request_handlers.py:395-403 | a finalizer that can begin, for the sandbox that is there, sees three stages that went well |
| ChainReady.StepReady | crczp/sandbox_instance_app/lib/request_handlers.py:176-209 | every step keeps the readiness invariant, through failures, cancels and restarts |
| ChainReady.ReadySafety | crczp/sandbox_instance_app/lib/request_handlers.py:395-403 | in every reachable state a ready sandbox has all three stages finished and none failed |
| ChainFinish.FinalizerMakesReady | crczp/sandbox_instance_app/lib/request_handlers.py:395-403 | a finalizer that begins makes the sandbox it names the ready one, if that or none is there, and changes neither rows nor reports; with another one there it fails |
| ChainFinish.ReadyIff | crczp/sandbox_instance_app/lib/request_handlers.py:395-403 | in every reachable state, restarts and cleanup included: the sandbox that is there is ready if and only if a finalizer of its id has succeeded |
| ChainFinish.GoodAllocationGetsReady | crczp/sandbox_instance_app/lib/request_handlers.py:176-188 | at every moment of an allocation with three good stages and a registered finalizer of its sandbox, that is ready, or the finalizer can begin at once and makes it so |
| ChainProgress.SomeJobCanRun | crczp/sandbox_instance_app/lib/request_handlers.py:102-138 | while a stage is unfinished a worker can act: the dependency graph never blocks |
| ChainProgress.WorkersDecrease | crczp/sandbox_instance_app/lib/stage_handlers.py:66-89 | every action of a worker lowers a natural-number measure |
| ChainProgress.StepProgress | crczp/sandbox_instance_app/lib/request_handlers.py:190-223 | every step keeps what progress needs |
| ChainProgress.NewRowWaits | crczp/sandbox_instance_app/lib/request_handlers.py:120-138 | what each newly enqueued stage job depends on, with and without provisioning |
| ChainProgress.AllStagesFinish | crczp/sandbox_instance_app/lib/request_handlers.py:513-537 | after any run the workers take boundedly many steps, and when none can act all stages are finished |
| ChainReports.CanReportIff | crczp/sandbox_instance_app/lib/stage_handlers.py:66-89 | at every moment of an allocation: the group has heard from the unit exactly when a grouped stage raised or its user stage went well, and can still hear from it, by some continuation, exactly when a job of the first attempt is running, or registered with all stages before it done |
| ChainReports.NeverReportsIff | crczp/sandbox_instance_app/lib/stage_handlers.py:138-149 | a unit with a group is silent for good exactly when its next job was deleted before it began, or ended well behind a row that was gone |
| ChainReports.ReportsTwiceIff | crczp/sandbox_instance_app/lib/stage_handlers.py:405-419 | over all runs, restarts included, a unit tells its group at most one thing, or an end and a failure, and the latter exactly when removing the container of its first user stage raised |
| ChainReports.TwiceIsReached | crczp/sandbox_instance_app/lib/stage_handlers.py:412-419 | a run does that |
| ChainReports.StepReports | crczp/sandbox_instance_app/lib/stage_handlers.py:405-419 | every step keeps the exact relation of the reports to the jobs of the first attempt |
| ChainReports.ReportsGrow | crczp/sandbox_instance_app/lib/stage_handlers.py:66-89 | a unit that has reported reports no more, and one step tells two things exactly when it is such a removal |
| ChainReports.SettledStays | crczp/sandbox_instance_app/lib/stage_handlers.py:138-149 | a unit that cannot report stays one, and its reports stay as they are |
| ChainReports.QueuedUnitIsSilenced | crczp/sandbox_instance_app/lib/request_handlers.py:76-88 | cancelling a unit right after it was enqueued silences it |
| ChainRestart.AcceptedRestart | crczp/sandbox_instance_app/lib/request_handlers.py:266-285 | an accepted restart rebuilds the failed suffix: kept rows, fresh rows, their jobs in chain order, a finalizer for the new sandbox |
| ChainRestart.RestartRebuildsFailedSuffix | crczp/sandbox_instance_app/lib/request_handlers.py:338-380 | the same after every run |
| ChainRestart.RestartAwaitedIff | crczp/sandbox_instance_app/lib/request_handlers.py:266-285 | at every moment with a sandbox, cleanup included: after a restart some registered finalizer names the sandbox that is there if and only if the restart was accepted |
| ChainRestart.RejectedRestartStrands | crczp/sandbox_instance_app/lib/request_handlers.py:338-348 | after any rejected restart, in progress or finished well, the sandbox is not ready and not awaited until a later restart is accepted or the sandbox is dropped |
| ChainRestart.RejectedRestartNeverReadyAgain | crczp/sandbox_instance_app/lib/request_handlers.py:269-285 | once all stages have gone well behind a rejected restart, that is for good |
| ChainRestart.FinishedAllocationListing | crczp/sandbox_instance_app/lib/requests.py:185-196 | a finished allocation lists good stages and then failed ones, nothing else |
| ChainRestart.FinishedCleanupListing | crczp/sandbox_instance_app/lib/requests.py:199-227 | a finished cleanup, whose listing runs against the chain, lists failed stages and then good ones |
| ChainEffects.ListingShowsJobs | crczp/sandbox_instance_app/lib/requests.py:213-227 | in every reachable state a stage is listed as finished exactly when its job succeeded, as failed after its job failed, and otherwise, unless cancelled, as running or queued exactly as its job is |
| ChainEffects.StagesEndAsTheyWent | crczp/sandbox_instance_app/lib/stage_handlers.py:66-89 | a stage that begins is listed as running, and then as it ended; a handler runs for it exactly when it failed |
| ChainEffects.ReplacedStagesFail | crczp/sandbox_instance_app/lib/stage_handlers.py:75-88 | a stage whose row was replaced leaves all rows alone, and its job fails |
| ChainEffects.OtherJobsSucceed | crczp/sandbox_instance_app/lib/request_handlers.py:489-511 | provisioning succeeds whatever it meets, and so does the deletion of the unit; only their own jobs change |
| ChainEffects.CancelPassIs | crczp/sandbox_instance_app/lib/request_handlers.py:76-88 | exactly which rows a cancel pass marks, from the last stage to the first that raises, which jobs it deletes with their dependents, and that nothing else changes |
| ChainEffects.FailureCancelsIff | crczp/sandbox_instance_app/lib/request_handlers.py:513-537 | a failure has the effect of a cancel pass if and only if a stage row records the failed job |
| ChainEffects.RejectedRestartIs | crczp/sandbox_instance_app/lib/request_handlers.py:266-285 | a rejected restart replaces the sandbox, if there is one, and changes nothing else |
| ChainEffects.AllocationBegins | crczp/sandbox_instance_app/lib/request_handlers.py:190-223 | a new allocation has a sandbox that is not ready, three queued stages in order, the provisioning job before the last of them and the finalizer behind it |
| ChainEffects.CleanupBegins | crczp/sandbox_instance_app/lib/request_handlers.py:417-477 | a cleanup has three new stages in chain order, without provisioning and without a group, and the deletion of the unit behind them |
| ChainStalePass.LoadedIsReached | crczp/sandbox_instance_app/lib/stage_handlers.py:66-89 | a run reaches the state that `ChainStalePass.StaleCancelBreaksClosure` starts from |
| ChainStalePass.StaleCancelBreaksClosure | crczp/sandbox_instance_app/lib/request_handlers.py:87-88 | saves of a worker between the loads and the writes of a cancel pass break the failure closure |
| ChainStalePass.FreshPassKeepsClosure | crczp/sandbox_instance_app/lib/request_handlers.py:76-88 | a pass whose rows are as they were loaded keeps it, at every reachable moment |
| ChainStalePass.StalePassHarmlessIff | crczp/sandbox_instance_app/lib/request_handlers.py:76-88 | a pass that loads at one moment of any run and writes at a later one, no row rebuilt in between, keeps the closure for good, through all that may follow, if and only if no stage that ended well meanwhile is followed by one that is running, or that was thought finished and ended well too |
| ChainHandlers.StageHandler.Execute | crczp/sandbox_instance_app/lib/stage_handlers.py:66-89 | execution, with its saves and reports on every path, a failing container removal included, is the start and the end step |
| ChainHandlers.StageHandler.Cancel | crczp/sandbox_instance_app/lib/stage_handlers.py:114-149 | cancelling a stage is the cancel step, whether or not it raises |
| ChainHandlers.RequestHandler.CancelRequest | crczp/sandbox_instance_app/lib/request_handlers.py:76-88 | the cancel loop, last stage first, ended by an exception, is the cancel pass |
| ChainHandlers.RequestHandler.HandleException | crczp/sandbox_instance_app/lib/request_handlers.py:513-537 | the exception handler cancels exactly when a row records the failed job |
| ChainHandlers.RequestHandler.EnqueueStages | crczp/sandbox_instance_app/lib/request_handlers.py:120-136 | the enqueue loop is the recursive specification |
| ChainHandlers.RequestHandler.EnqueueRequest | crczp/sandbox_instance_app/lib/request_handlers.py:190-223 | provisioning job, stage chain and finalizer are enqueued as specified |
| ChainHandlers.RequestHandler.RestartStageHandlers | crczp/sandbox_instance_app/lib/request_handlers.py:338-380 | validation and rebuilding of the rows as specified |
| ChainHandlers.RequestHandler.CreateRestartJobs | crczp/sandbox_instance_app/lib/request_handlers.py:266-285 | the sandbox is replaced before the request is validated |
| ChainHandlers.RequestHandler.MarkSandboxAsReady | crczp/sandbox_instance_app/lib/request_handlers.py:395-403 | the finalizer is a plain save of a ready sandbox, which puts a deleted one back and leaves another one alone |
| RequestGroups.SandboxRequestGroup.OnAllocationFail | crczp/sandbox_instance_app/models.py:579-591 | counters and mails after a failure, the first-failure mail only once |
| RequestGroups.SandboxRequestGroup.OnAllocationEnd | crczp/sandbox_instance_app/models.py:593-601 | counters and mails after an end; the summary deletes the group |
| RequestGroups.BatchAccounting | crczp/sandbox_instance_app/models.py:579-631 | over every interleaving of the units: the group was told once for each unit in which a stage raised or the user stage went well, and once more for each whose container removal raised; the counters, the mails and the deletion of the group follow from these numbers |
| RequestGroups.OrderlyAccounting | crczp/sandbox_instance_app/models.py:579-601 | when no removal raises: finished and failed are the numbers of units that ended and that had a stage raise, one failure mail at the first failure, and the summary exactly when all units have ended |
| RequestGroups.SummaryCanComeIff | crczp/sandbox_instance_app/models.py:593-601 | at every moment of such a batch: the summary was sent or some continuation sends it if and only if every unit has ended or can report |
| RequestGroups.CancelledUnitBlocksSummary | crczp/sandbox_instance_app/models.py:599-601 | a unit that has not ended and cannot report never ends, and then the summary is never sent and the group never deleted |
| RequestGroups.SummaryComesEarly | crczp/sandbox_instance_app/models.py:599-601 | a removal that raises can bring the summary forward to before another unit has begun |
| RequestGroups.EndAfterSummaryFails | crczp/sandbox_instance_app/models.py:593-601 | a user stage that goes well when its group is gone has failed all the same, row and job |
| Pools.CreateKeepsSizeLawIff | crczp/sandbox_instance_app/lib/pools.py:186-203 | an accepted creation keeps the size law if and only if its effective count is not negative |
| Pools.CreationOutcome | crczp/sandbox_instance_app/lib/pools.py:186-203 | for every count, given or not: the units and the size grow by it when there is room and the hardware allows it, a missing count fills the pool, and a rejection changes nothing |
| Pools.StepInv | crczp/sandbox_instance_app/lib/request_handlers.py:495-511 | creations and each commit of the finalizers keep the size law |
| Pools.PoolConservation | crczp/sandbox_instance_app/lib/pools.py:186-203 | over all runs: units = size + finalizers between their commits, and 0 <= size <= max_size |
| Pools.ExactlyOneSeesEmpty | crczp/sandbox_instance_app/lib/request_handlers.py:495-504 | of the finalizers that empty a pool exactly the last one to lower the size sees zero |
| Pools.TriedAtMostOnce | crczp/sandbox_instance_app/lib/request_handlers.py:504-511 | whatever each finalizer is told, without creations the pool deletion is tried at most once |
| Pools.OnlyZeroTries | crczp/sandbox_instance_app/lib/request_handlers.py:500-511 | a finalizer tries to delete the pool exactly when it is told to and saw size zero; otherwise it leaves the pool, its units and the tries alone |
| Pools.OrdinaryCleanupKeepsPool | crczp/sandbox_instance_app/lib/request_handlers.py:504-511 | over all runs in which no finalizer is told to, the pool is there as before and nothing was tried |
| Pools.LockedPoolStays | crczp/sandbox_instance_app/lib/pools.py:117-135 | over all runs a locked pool stays until it is unlocked |
| Pools.TriedExactlyOnce | crczp/sandbox_instance_app/lib/request_handlers.py:495-511 | when all finalizers are to delete the pool and the last of them is through, exactly one has tried |
| Pools.TryDeletesIff | crczp/sandbox_instance_app/lib/pools.py:117-135 | a try by a finalizer that saw size zero deletes the pool if and only if no new units have come, no other finalizer is between its commits, and the pool is not locked |
| Pools.EmptiedPoolCanStay | crczp/sandbox_instance_app/lib/request_handlers.py:500-511 | two finalizers can end with an empty pool that nobody deletes any more |
| Pools.TwoUnitsAreReached | crczp/sandbox_instance_app/lib/pools.py:175-203 | a new pool gets to where that begins |
| Pools.PoolStore.CreateAllocations | crczp/sandbox_instance_app/lib/requests.py:43-67 | the creation loop makes as many new units as the count says |
| Pools.PoolStore.CreateSandboxesInPool | crczp/sandbox_instance_app/lib/pools.py:175-203 | default count, check, units and size, as specified |
| Pools.PoolStore.LowerPoolSize | crczp/sandbox_instance_app/lib/request_handlers.py:495-498 | the first commit of the finalizer |
| SandboxLocks.SandboxTable.HasLockedSandbox | crczp/sandbox_instance_app/lib/pools.py:230-234 | whether the pool has a ready sandbox locked by that named user; never for an anonymous one |
| SandboxLocks.SandboxTable.GetUnlockedSandbox | crczp/sandbox_instance_app/lib/pools.py:206-227 | refusal, none free, or a lock, as specified |
| SandboxLocks.GivenIsLeastFree | crczp/sandbox_instance_app/lib/pools.py:210-227 | refused, with nothing changed, exactly when the named user holds a ready one; none only when every ready sandbox is locked; otherwise the free one with the least id, now locked for the caller, and no other sandbox changes |
| SandboxLocks.EachUserHoldsAtMostOne | crczp/sandbox_instance_app/lib/pools.py:218-227 | over all runs of gets, unlocks, additions, deletions and harmless direct locks a named user holds at most one ready sandbox |
| SandboxLocks.LocksLast | crczp/sandbox_instance_app/lib/pools.py:222-227 | over all runs without an unlock a lock lasts: nobody else is given the sandbox, and it is not deleted |
| SandboxLocks.UnlockedIsGivenAgain | crczp/sandbox_instance_app/lib/pools.py:222-227 | a ready sandbox that was unlocked is given again: a caller who is not refused gets it or one before it |
| SandboxLocks.LawfulIffSafe | crczp/sandbox_instance_app/lib/pools.py:206-234 | from a pool the law holds for good, without direct locks, if and only if it holds now and no sandbox that is not ready is locked by a named user |
| SandboxLocks.LockDirectlyKeepsIff | crczp/sandbox_instance_app/lib/sandboxes.py:97-103 | locking a given sandbox keeps the law for good if and only if the lock is anonymous, or the sandbox is ready and the user holds none |
| Text.SplitOfJoin | crczp/sandbox_instance_app/models.py:549-555 | splitting a comma-joined list gives the list back |
| NetbirdWorld.ListRoundTripIff | crczp/sandbox_instance_app/models.py:549-563 | a stored list reads back as it was if and only if no item is empty or has a comma |
| NetbirdService.ResourceRow.SetRouteIdList | crczp/sandbox_instance_app/models.py:554-555 | the stored ids read back, when they are plain |
| NetbirdService.ResourceRow.GetRouteIdList | crczp/sandbox_instance_app/models.py:549-552 | the ids of the column, without empty ones |
| NetbirdService.Attempt | crczp/sandbox_instance_app/lib/netbird.py:451-456 | a delete that tolerates API errors but not crashes |
| NetbirdService.DeleteGroupPeers | crczp/sandbox_instance_app/lib/netbird.py:418-436 | listing the peers of a group and deleting them one by one, with the deadline checks where they are |
| NetbirdService.DeleteRoutes | crczp/sandbox_instance_app/lib/netbird.py:458-465 | the route loop of a teardown |
| NetbirdService.DestroyEntrypoint | crczp/sandbox_instance_app/lib/netbird.py:439-490 | the teardown of one entrypoint with its early returns |
| NetbirdService.DestroyAccess | crczp/sandbox_instance_app/lib/netbird.py:493-544 | the teardown of the shared objects |
| NetbirdService.DestroyRows | crczp/sandbox_instance_app/lib/netbird.py:589-603 | the entrypoint loop of a teardown, ended by expiry |
| NetbirdService.DestroyAll | crczp/sandbox_instance_app/lib/netbird.py:215-244 | entrypoints first, shared objects last |
| NetbirdService.Destroy | crczp/sandbox_instance_app/lib/netbird.py:547-617 | loads, deadline and teardown |
| NetbirdService.ProvisionAccess | crczp/sandbox_instance_app/lib/netbird.py:103-126 | access group and key, the handle updated before each save |
| NetbirdService.ProvisionDns | crczp/sandbox_instance_app/lib/netbird.py:129-160 | the nameserver group, when there are servers and an access group |
| NetbirdService.CreateRoutes | crczp/sandbox_instance_app/lib/netbird.py:190-199 | the route loop with the ids it collected when it stops |
| NetbirdService.ProvisionEntrypoint | crczp/sandbox_instance_app/lib/netbird.py:163-188 | row, host group and host key of one entrypoint |
| NetbirdService.Link | crczp/sandbox_instance_app/lib/netbird.py:190-212 | its routes and its policy |
| NetbirdService.ProvisionShared | crczp/sandbox_instance_app/lib/netbird.py:331-367 | the shared objects, whatever fails |
| NetbirdService.ProvisionOne | crczp/sandbox_instance_app/lib/netbird.py:374-406 | one round with the partial row picked up after a failure |
| NetbirdService.ProvisionEach | crczp/sandbox_instance_app/lib/netbird.py:369-406 | the entrypoint loop and the list it records |
| NetbirdService.EndGuard | crczp/sandbox_instance_app/lib/netbird.py:408-415 | teardown exactly when the sandbox is gone |
| NetbirdService.Provision | crczp/sandbox_instance_app/lib/netbird.py:268-415 | provisioning between its two guards |
| NetbirdTeardown.DeletesFollowTheList | crczp/sandbox_instance_app/lib/netbird.py:439-617 | when calls fail only with API errors, the issued deletes are a prefix of the fixed list of everything the rows name, and all of it unless the budget ran out |
| NetbirdTeardown.AccessGroupComesLast | crczp/sandbox_instance_app/lib/netbird.py:496-502 | a delete of the access group is issued only after one for everything else |
| NetbirdTeardown.HostGroupComesAfterItsUsers | crczp/sandbox_instance_app/lib/netbird.py:451-487 | a delete of a host group is issued only after one for its policy, its routes and its key |
| NetbirdPeers.OnlyListedPeersAreDeleted | crczp/sandbox_instance_app/lib/netbird.py:418-436 | whatever fails, crashes or runs out of time: peers are listed only for groups the rows name, deleted only when listed, in the order of the listing, and a group only directly behind its own peers |
| NetbirdPeers.EveryPeerIsDeleted | crczp/sandbox_instance_app/lib/netbird.py:451-487 | without crashes and in time, every group the rows name is listed, then each of its listed peers is deleted, then the group |
| NetbirdRecords.RecordsGoLast | crczp/sandbox_instance_app/lib/netbird.py:439-544 | whatever fails, crashes or runs out of time: a row goes only behind deletes of everything it names, and so does the shared record |
| NetbirdCrashes.CrashesKeepOrderIff | crczp/sandbox_instance_app/lib/netbird.py:595-603 | whatever crashes, the access group goes last if and only if every row names at most one object, and no group |
| NetbirdTeardown.AllPiece | crczp/sandbox_instance_app/lib/netbird.py:587-617 | the same for given rows, and no row is left when time did not run out |
| NetbirdDeadline.TeardownIsBounded | crczp/sandbox_instance_app/lib/netbird.py:418-617 | all calls but possibly the last start by the deadline, a late one is the listing behind a key deletion, and the end comes within two timeouts of the deadline |
| NetbirdDeadline.EntrypointBounded | crczp/sandbox_instance_app/lib/netbird.py:442-445 | the same for one entrypoint, without a late call when it lacks a key or a group |
| NetbirdOverrun.DocumentedBoundIff | crczp/sandbox_instance_app/lib/netbird.py:561-566 | the documented overrun of one call is true of every teardown of given rows if and only if none of them, and not the access record, has both a setup key and a group |
| NetbirdDeadline.TeardownEnds | crczp/sandbox_instance_app/lib/netbird.py:547-617 | the teardown ends, its database queries included, within two timeouts and one query of the deadline, or with its loads |
| NetbirdDeadline.NoCallIff | crczp/sandbox_instance_app/lib/netbird.py:439-603 | a teardown with something to delete issues no call if and only if its time is over behind the leading rows that name nothing |
| NetbirdDeadline.BudgetDisablesIff | crczp/sandbox_instance_app/lib/netbird.py:30-47 | so when the first thing loaded names something, it issues no call if and only if the load of the rows takes longer than the budget |
| NetbirdProvision.EntrypointMine | crczp/sandbox_instance_app/lib/netbird.py:163-212 | whatever fails, the stored row names exactly what was made for the entrypoint, except lost routes |
| NetbirdProvision.CreateGrows | crczp/sandbox_common_lib/netbird_client.py:78-81 | a created object is new, with the references it was given; a failed create makes nothing |
| NetbirdWiring.ProvisionedIsWired | crczp/sandbox_instance_app/lib/netbird.py:163-212 | a provisioned entrypoint is complete and stored: its group, a key into the group, one route per range and a policy, each with exactly the references it must have |
| NetbirdWiring.SharedIsWired | crczp/sandbox_instance_app/lib/netbird.py:103-160 | the shared key and the nameservers refer to exactly the access group, and nameservers are there only for given servers |
| NetbirdCompletion.SharedObjectsIff | crczp/sandbox_instance_app/lib/netbird.py:103-160 | for every sandbox, script and earlier record, exactly when each shared object is made and recorded, and that the record keeps the rest: nameservers, for given servers, if and only if there is a group and their call succeeds, whatever became of the key |
| NetbirdCompletion.RowsAreRefilled | crczp/sandbox_instance_app/lib/netbird.py:163-212 | an entrypoint that has a row already is provisioned into that row, which keeps an entry wherever it had one, whatever fails |
| NetbirdCompletion.LaterEntrypointsAreWired | crczp/sandbox_instance_app/lib/netbird.py:369-406 | whatever failed before, an entrypoint and all behind it are provisioned completely when nothing fails from its round on |
| NetbirdCompletion.EntrypointsNeedOnlyTheGroup | crczp/sandbox_instance_app/lib/netbird.py:348-406 | with an access group all entrypoints are provisioned, whatever became of the shared key and the nameservers |
| NetbirdCompletion.QuietProvisionIsComplete | crczp/sandbox_instance_app/lib/netbird.py:268-415 | without failures everything is there and stored: shared group and key, nameservers for given servers, every entrypoint with all its objects |
| NetbirdResidue.LoopHolds | crczp/sandbox_instance_app/lib/netbird.py:369-406 | through the entrypoint loop everything made is named by a recorded row, lost, or made in the round in which the sandbox disappeared |
| NetbirdResidue.ProvisionSharedMine | crczp/sandbox_instance_app/lib/netbird.py:331-367 | the handle names every shared object, even when its save failed |
| NetbirdResidue.RemoveAllLeaves | crczp/sandbox_instance_app/lib/netbird.py:496-502 | deletes in reference order remove exactly what they name, except groups a strict server keeps for users outside the list |
| NetbirdLeftovers.ProvisionThenDestroy | crczp/sandbox_instance_app/lib/netbird.py:268-415 | provisioning with any failures, then a successful teardown in time: no rows, and in the cloud what was there before plus the routes of interrupted route loops (and, on a strict server, the groups these use) |
| NetbirdLeftovers.QuietRoundTripIsIdentity | crczp/sandbox_instance_app/lib/netbird.py:547-617 | without failures the round trip is the identity on the cloud, also on a strict server |
| NetbirdLeftovers.RacingDelete | crczp/sandbox_instance_app/lib/netbird.py:307-415 | the sandbox deleted anywhere between the guards: what survives was made in that one round or is a lost route (or pinned by them); no access key or nameserver group survives, and no access group unless a strict server keeps it |
| NetbirdLeftovers.StraysAreOfOneRound | crczp/sandbox_instance_app/lib/netbird.py:386-406 | those objects come from the single round that began with the sandbox and ended without it |
| NetbirdNames.SharedNameLeavesGroup | crczp/sandbox_instance_app/lib/netbird.py:173-179 | two entrypoints of one name leave a host group behind even without failures |
| NetbirdNames.QuietRoundTripIff | crczp/sandbox_instance_app/models.py:544-546 | without failures the round trip is the identity if and only if the names are distinct |
| NetbirdTracking.AllComplete | crczp/sandbox_instance_app/lib/netbird.py:331-406 | the listed moments of a run leave out no operation |
| NetbirdTracking.EveryMomentIsTracked | crczp/sandbox_instance_app/lib/netbird.py:115-212 | behind every operation each object made is named by a row, the result of the call just returned, a route of the loop in progress, or lost |
| StackNames.ShorteningUndoesPadding | crczp/sandbox_instance_app/lib/netbird.py:82-94 | for every prefix and all ids the short name is the prefix with the plain numbers |
| StackNames.ShortNamesAreDistinct | crczp/sandbox_instance_app/models.py:106-108 | short names of different units differ |
| StackNames.PaddedIsTenDigits | crczp/sandbox_instance_app/models.py:106-108 | a padded number has its value and exactly ten digits, or more only when the number itself has more |
| StackNames.OtherNamesStay | crczp/sandbox_instance_app/lib/netbird.py:82-94 | a name that does not end like a stack name stays as it is |
| Routing.GetNetworkToRouterMapping | crczp/sandbox_ansible_app/lib/inventory.py:265-280 | sorting in descending order and overwriting gives every network its alphabetically first router |
| Routing.FirstRoutersIsUnique | crczp/sandbox_ansible_app/lib/inventory.py:267-271 | only one mapping does that |
| Routing.SetSandboxRouting | crczp/sandbox_ansible_app/lib/inventory.py:232-263 | the management interface gets the routes of all router links and the management host no default gateway, and each router gets its own |
| Routing.RoutesPerNetwork | crczp/sandbox_ansible_app/lib/inventory.py:240-258 | the routes to a network are those through its first router, and none for an unmapped network |
| Routing.ExactlyOneRouteIff | crczp/sandbox_ansible_app/lib/inventory.py:240-258 | there is exactly one if and only if that router is mapped to the network once |
| CacheKeys.KeyIsInjective | crczp/sandbox_definition_app/lib/definitions.py:128 | equal keys have equal repository and rev, when the revs cannot be read as part of a key |
| CacheKeys.ReadOtherwiseIff | crczp/sandbox_definition_app/lib/definitions.py:128 | a repository with a longer address has the same key under some rev if and only if the rev is not clean |
| CacheKeys.AcceptedAddressesCollide | crczp/sandbox_definition_app/lib/definitions.py:128 | every address of the accepted form shares a key with another one |
| CacheKeys.DashedRevsCanCollide | crczp/sandbox_definition_app/lib/definitions.py:128 | the collision behind it, for any url and branch |
| CacheKeys.TypesNeverCollide | crczp/sandbox_common_lib/git_config.py:26-34 | a commit key of a GitLab repository is never the key of a GitHub one |
| TopologyCache.GitlabRevSha | crczp/sandbox_definition_app/lib/definition_providers.py:104-113 | the first ref of that name, branches before tags, else the commit |
| TopologyCache.RevsByMode | crczp/sandbox_definition_app/lib/definition_providers.py:174-193 | what a rev is resolved to and which commit is then read, in every mode and for both kinds of repository |
| TopologyCache.DefinitionCache.GetDefinition | crczp/sandbox_definition_app/lib/definitions.py:113-144 | cache read, fetch, validation and cache write as specified: an error or a hit leaves the cache alone, a forced call never hits, and what was fetched is valid and stored |
| TopologyCache.DefinitionForIsTheCall | crczp/sandbox_definition_app/lib/definitions.py:113-144 | a whole call has the effect and the answer of the four steps begin, look up, fetch and store of the interleaved machine, so that all results about that machine are about it |
| TopologyCache.AnswersAreStored | crczp/sandbox_definition_app/lib/definitions.py:127-144 | a forced call, or a miss, answers exactly when the commit it reads has a valid definition, with that definition, and stores it; a hit and an error leave the cache alone |
| TopologyCache.CacheTransparency | crczp/sandbox_definition_app/lib/definitions.py:125-144 | over every interleaving, a value returned for a repository keyed by commits is the definition of the commit the rev named when the call resolved it |
| TopologyCache.CacheIsChecked | crczp/sandbox_definition_app/lib/definitions.py:113-144 | over every interleaving and in every mode, all that is cached or returned passed validation |
| TopologyCache.CallsKeepTheirCommit | crczp/sandbox_definition_app/lib/definitions.py:127-135 | a call goes on with the commit it resolved |
| CacheStaleness.StaysFreshIff | crczp/sandbox_definition_app/lib/definitions.py:125-144 | at every moment of every run, with calls for all kinds of repositories interleaved: for a repository keyed by branches, later calls return only what the branch held since a given moment, for good, if and only if that is true of the cached entry and of everything that calls still have to store |
| CacheStaleness.RefreshBoundsIff | crczp/sandbox_definition_app/lib/definitions.py:47-51 | behind a forced refresh that returned this is so if and only if no other call for that repository and rev has older content in hand |
| CacheStaleness.StalenessBound | crczp/sandbox_definition_app/lib/definitions.py:47-51 | in mixed, interleaved runs: when no other call has something in hand as a forced refresh returns, every later answer is what the branch held at some moment since that refresh began |
| CacheStaleness.WholeCallsAreBounded | crczp/sandbox_definition_app/lib/definitions.py:113-144 | in mixed runs whose calls are not interrupted, every forced refresh that succeeds bounds all later answers |
| CacheStaleness.ForcedIsNew | crczp/sandbox_definition_app/lib/definitions.py:129-144 | a forced call never takes what is cached: it returns what the branch held after it began |
| CacheStaleness.ImportsAreCurrentIff | crczp/sandbox_definition_app/lib/definitions.py:39-51 | importing yields what the rev led to at some moment since the import began, in all runs, if and only if the repository is not a GitHub one in AGGRESSIVE mode |
| CacheStaleness.EveryAnswerWasHeld | crczp/sandbox_definition_app/lib/definitions.py:113-144 | whatever happens, an answer is something that the branch held at some moment |
| CacheStaleness.LateStoreBreaksBound | crczp/sandbox_definition_app/lib/definitions.py:129-144 | a slow get can store old content behind a forced refresh that returned the new one, and readers are given the old content again |
| CacheStaleness.CleanRevsOwnTheirKeys | crczp/sandbox_definition_app/lib/definitions.py:128 | when revs cannot be read as part of a key no other branch-keyed repository has the key, which these results ask for; commit-keyed ones never do |

## Left out

- NetBird HTTP details, containers, Terraform, mail transport, SSH: only success, failure and time of a call are modelled.
- REST views, serializers, URL routing, admin, migrations, settings, pagination: framework plumbing.
- Hardware usage, SSH configuration, topology visualisation, inventory groups, Docker files: straight mappings over library objects.
- Authentication, roles, key and certificate generation: foreign calls.
- Time stamps, log lines and error texts of stage rows: only whether start and end are set, and the flags.
- Loading the NetBird client and the VPN settings: provisioning without them does nothing, so the model starts behind them.
- Names and network ids of NetBird objects, apart from the short stack name: they have no part in what is deleted.
- Checks before a cleanup request is accepted: single conditions without a property beyond them; the model allows a cleanup in any state.
- Setup key values: only the ids of setup keys are stored in the model.
- Registered peers: they are listed and deleted, but not counted as objects of the sandbox.
- ChainSafety.FailureClosure: one cancel pass is one step; `ChainStalePass.StaleCancelBreaksClosure` shows why, `ChainStalePass.StalePassHarmlessIff` exactly when a longer one does no harm.
- ChainRestart.RestartAwaitedIff: a locked sandbox, which the database protects from deletion, is not modelled; restarting it raises before a row or a job of the request changes.
- ChainRestart.FinishedCleanupListing: the cleanup rows take the place of the allocation rows, which in the service live on beside them, so it excludes restarts after the cleanup.
- ChainSafety.EnqueueShape: enqueuing a chain is one step, although a job can begin before its row records it.
- ChainProgress.AllStagesFinish: assumes that cancelling a queued stage does not raise, and that provisioning never raises.
- ChainReady.ReadySafety: speaks of allocation requests; a finalizer still queued when cleanup deletes the sandbox can put the row back.
- RequestGroups.BatchAccounting: each counter call is one step, since the service takes no row lock.
- RequestGroups.SummaryCanComeIff: speaks of batches in which removing containers does not raise; `RequestGroups.SummaryComesEarly` shows what such a removal does.
- Pools.PoolConservation: a unit has at most one live cleanup chain, and the recount in the pool serializer is not a step.
- SandboxLocks.EachUserHoldsAtMostOne: each transaction is one step; a direct lock is taken only where `SandboxLocks.LockDirectlyKeepsIff` calls it harmless.
- NetbirdLeftovers.ProvisionThenDestroy: database operations fail only because the sandbox is gone; names of entrypoints are distinct, see `NetbirdNames.QuietRoundTripIff`; ids from the server are non-empty, comma-free and never reused.
- NetbirdLeftovers.RacingDelete: a guard query that itself fails is not modelled.
- TopologyCache.CacheTransparency: commit ids have no dash, and no branch is named like a commit.
- CacheStaleness.StalenessBound: no other branch-keyed call of the run has the same key (`CacheKeys.ReadOtherwiseIff` says when one can), and commit ids have no dash; reading a file from the server is one step.
- Routing.SetSandboxRouting: the topology library is taken to provide one WAN link per router and one link per router mapping.
- Routing.RoutesPerNetwork: routes carry the name of the network where the service writes its address range, so two networks with the same range, which the service does not tell apart, are two networks here.
- StackNames.ShorteningUndoesPadding: digits are the ten ASCII ones.
