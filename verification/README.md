# fire2: a verified model

fire2 runs Firecracker sandboxes on a fleet of worker hosts. An orchestrator keeps
what it knows in two Postgres tables, one of sandboxes and one of workers, and must
keep them true to what the hosts really run, through crashes, lost replies, retried
jobs and partitions. Each worker runs a manager with one actor per sandbox; each VM
has a shim process that outlives the worker; each sandbox's root drive is a volume in
a device-mapper thin pool.

This project models those parts in Dafny and proves what they keep. Check it with
`dafny verify dfyconfig.toml`.

## How it is built

**The orchestrator and the database.** `Tables` holds the rows, the pending jobs and
the inventories. `Transactions` gives, for each transaction, the table state it leaves,
as one function. `Repository` is the class whose methods issue the SQL statements one
after the other, loops included; each is proved to leave exactly the state its
function gives (`TransactionFacts` holds the composition lemmas). `Rules` says what each
of them decides in terms of the tables alone, ages, counts and lists, without going
through those functions, and proves that they decide exactly that. `Inventories` splits a
heartbeat's entries.

`Cluster` is the state machine: the tables, the clock, the hosted VMs, the messages in
flight, and every running attempt of a create or cleanup job with its place in the
code. One step is one transaction, one RPC or one job move; transactions are stamped
by one monotone clock, RPCs may be lost before or after they take effect, and jobs may
be interrupted and retried at any point; of a cleanup job one attempt is the last, and
none goes on beside or after it. `Lifecycle` says how a row may change, `Invariants`
proves what every step keeps, and `Safety`, `Fencing`, `Liveness`, `Capacity`,
`Confirmation`, `Convergence`, `Deadlines` (the reaper), `Restarts` (inventories) and
`Creations` and `Cleanups` (the two jobs) state the theorems over every run. `Counterexamples` holds
the runs that show where a promise ends.

`Registration` is the other side of fencing: the processes of one worker ID, which
register, learn their tokens and heartbeat, against a database the rest of the cluster
works on, and which may be lost.

**The scheduler.** `Scheduler` is the weighted draw, over reals, and the loop that
assigns, drops a worker that turns out full, and draws again.

**The worker host.** `Books` gives the manager's records and what each critical section
does to them; `SandboxManager` is the class with those sections. `Host` is the state
machine of a worker: actors, the calls that hand them commands over channels, the
audit, start-up recovery, and the disk. It may crash between any two steps.
`HostInvariants` and `HostTheorems` hold the ownership proof and its consequences,
`HostCapacity` how many sandboxes a host comes to hold, `HostOutcomes` and `HostWork` what
an answer of ok means and what the work behind it comes to, `HostStates` what is listed.

**The thin pool.** `Bytes`, `Chains` and `DeviceMapper` are the byte layout of
linux/dm-ioctl.h: target specs encoded into and decoded from buffers, in either byte
order. `Thin` and `Pool` are the pool's settings, its thin IDs and its volumes, and
`VolumeSteps` shows that creating and removing a volume there is a run of the steps
`Host` takes for it.

**The shim.** `ExitText` is the exit message and the exit file as text. `Shim` is the
exit protocol as a state machine, and the server's two critical sections as methods,
each proved to be a run of the machine's steps.

`Text` and `Decimals` are the string operations the rest needs, `Collections` the few
definitions all parts share.

## Where the code differs from what is said about it

- Remove is described as the only path that drops a tracked sandbox
  (`internal/packages/sandboxmgr/manager.go:191-192`). A create that fails drops its
  entry too, a DEAD one included: `HostTheorems.DeadDroppedByItsCreate` gives the
  steps, and `HostTheorems.StepDead` says exactly which steps drop a DEAD entry.
- Stopped is described as the worker having confirmed that the sandbox is gone
  (`internal/packages/orchestrator/cleanup_sandbox_worker.go:19-22`). A create's final
  failure can enqueue a second cleanup job
  (`internal/packages/orchestrator/create_sandbox_worker.go:319-327`); its last attempt
  may drop the link without the worker's word, after which the first job finds no link
  and stops the sandbox. `Counterexamples.StoppedUnconfirmed` gives such a run, and
  `Confirmation.StoppedMeansConfirmed` states that a second job is the only way to it:
  with one cleanup job, stopped does mean confirmed. "Ended" means confirmed by its own
  worker or abandoned by a last attempt, which is `Confirmation.EndsConfirmedOrAbandoned`.
- A cleanup that is cut short in its last attempt leaves its row in cleanup, with nothing
  left that would clean it up: `Counterexamples.CleanupCutShort` gives such a run.
  `Convergence.OneRoundConverges` says exactly which sandboxes a fault-free round does
  not settle: those of such a row whose VM is still alive.
- Register is described as never handing out a token that an older process of the worker
  held, even after the database lost tokens
  (`internal/packages/worker/repository.go:106-111`). A process that has just started
  presents none: `Registration.SharedToken` gives a run in which two processes hold the
  same token and are both accepted. `Registration.TokensRise` says exactly when tokens
  keep rising.
- A capacity of 0 is no limit to the worker's manager and full to AssignWorker. Both are
  modelled as they are.

## Model

| member | source | states |
|---|---|---|
| Repository.Postgres.UpdateStatus | internal/packages/sandbox/repository_postgres.go:140-166 | a guarded update moves exactly a row whose status is among the allowed ones, answers which, and refuses to work without a guard |
| Repository.Postgres.AssignWorker | internal/packages/sandbox/repository_postgres.go:177-231 | answers full exactly when worker and sandbox exist, the sandbox is scheduling and the rows linked to the worker in the four counted statuses number at least its capacity; moved exactly when it is not scheduling; missing and assigned likewise; and changes that one row exactly when assigned |
| Repository.Postgres.ClearWorker | internal/packages/sandbox/repository_postgres.go:233-237 | clearing the link of a row in cleanup frees its slot on every worker that counted it and no other; a row not in cleanup is left alone |
| Repository.Postgres.UpdateStatusFenced | internal/packages/sandbox/repository_reconcile.go:48-69 | an update counts only from the worker the row is linked to, under its current token |
| Repository.Postgres.ClaimTTLExpired | internal/packages/sandbox/repository_reconcile.go:78-100 | claims exactly the unlocked rows before cleanup whose age is at least their TTL, read as none when negative and as a hundred years above that; a second claim at the same time would find none |
| Repository.Postgres.ClaimLivenessExpired | internal/packages/sandbox/repository_reconcile.go:102-121 | claims exactly the unlocked hosted rows whose worker heartbeated on for longer than the liveness timeout past its last word of them and its registration, or is inactive for longer than the worker-lost timeout; refuses such a timeout that is not positive |
| Repository.Postgres.ClaimStalledCreation | internal/packages/sandbox/repository_reconcile.go:123-131 | claims exactly the unlocked rows not placed within a positive create timeout; a second claim at the same time would find none |
| Repository.Postgres.ReconcileInventory | internal/packages/sandbox/repository_reconcile.go:133-195 | its statements, in order, leave what one per-row decision leaves; lost are exactly the unlisted rows of a first inventory last heard of before the registration, dead exactly the hosted ones reported so, orphans exactly the listed ones not given to the worker; the three are disjoint |
| TransactionFacts.UpdateStatements | internal/packages/sandbox/repository_reconcile.go:133-184 | the four updates one after the other equal the per-row decision on the rows as they were |
| TransactionFacts.InventoryAnswers | internal/packages/sandbox/repository_reconcile.go:137-195 | lost, dead and orphaned are pairwise disjoint, and the updates do not change which are orphaned |
| TransactionFacts.ReplayedInventory | internal/packages/sandbox/repository_reconcile.go:133-195 | the same inventory sent again under the same token changes no status and enqueues nothing new |
| Rules.InventoryDecides | internal/packages/sandbox/repository_reconcile.go:133-184 | what one inventory does to one row: when it falls, when it turns running, when its presence is refreshed, and that nothing else changes |
| Restarts.InventorySettles | internal/packages/orchestrator/event_grpc.go:185-230 | in every reachable state an accepted inventory ends exactly the sandboxes reported dead and, if first under its token, those left behind, each by its first job, to fail; and has exactly the strays it lists removed |
| Restarts.PartialBeat | internal/packages/orchestrator/event_grpc.go:153-162 | a heartbeat without an inventory refreshes its worker's row and nothing else |
| Restarts.RestartFailsTheOld | internal/packages/sandbox/repository_reconcile.go:137-152 | from every reachable state, a sandbox last heard of before a new process of its worker registered and not listed by it is in cleanup after its first inventory |
| Repository.Postgres.ReconcileHeartbeat | internal/packages/orchestrator/event_grpc.go:185-230 | the whole heartbeat transaction: refused without effect under a stale token, otherwise one state change with its removal jobs |
| Inventories.FromEntries | internal/packages/orchestrator/event_grpc.go:300-325 | the nonblank IDs are partitioned over the four lists, each filed under the state of its first entry |
| Text.TrimSpaceTrims | internal/packages/orchestrator/event_grpc.go:304 | trimming removes white space, only it, and leaves none at either end |
| Repository.Postgres.Register | internal/packages/worker/repository.go:114-138 | a registration gets a token above the stored and the presented one, is stamped now, takes over what it reports and ends an inactivity |
| Repository.Postgres.ClaimInventory | internal/packages/worker/repository.go:144-152 | after it no inventory under the token is the first any more, so a second call answers false |
| Repository.Postgres.Update | internal/packages/worker/repository.go:169-207 | a heartbeat is accepted under the current token only, and then stamped and taken over; a refusal changes nothing and says whether the worker is unknown or fenced |
| Repository.Postgres.MarkStaleInactive | internal/packages/worker/repository.go:217-235 | exactly the active workers silent for longer than the timeout, fifteen seconds if none is set, turn inactive from now on |
| Repository.Postgres.ReapSandboxes | internal/packages/orchestrator/reap_sandbox.go:58-108 | the three claims and their job loops are one transaction: each claimed row changes and gets one job, under the target its list gives |
| TransactionFacts.ReapListsDisjoint | internal/packages/orchestrator/reap_sandbox.go:58-108 | the three lists of one reaper run are pairwise disjoint |
| TransactionFacts.ReapChangesItsLists | internal/packages/orchestrator/reap_sandbox.go:58-108 | a row changes in a reaper run exactly when it is on one of the lists, and a job is enqueued exactly then |
| Rules.ReapDecides | internal/packages/orchestrator/reap_sandbox.go:58-108 | which cleanup job a reaper run enqueues for a row, by its age, its worker's silence and the locks alone, and that the row is in cleanup exactly if there is one |
| Deadlines.ReapsExactly | internal/packages/orchestrator/reap_sandbox.go:58-108 | in every reachable state a reaper run puts into cleanup exactly the rows whose time has come, each by its first job, to stop or to fail |
| Deadlines.StopsOnTime | internal/packages/sandbox/repository_reconcile.go:78-84 | over every run, a sandbox nobody deletes keeps its creation time and TTL, and is stopped, or only to be stopped, after it lived that long |
| Deadlines.SilentWorkerIsReaped | internal/packages/sandbox/repository_reconcile.go:102-121 | from every reachable state, a worker silent for the heartbeat timeout is marked, and past the worker-lost timeout every sandbox it hosts is in cleanup |
| Repository.Postgres.DeleteSandbox | internal/packages/orchestrator/http.go:391-427 | a delete enqueues a cleanup exactly when it moved the row |
| Repository.Postgres.GiveUp | internal/packages/orchestrator/create_sandbox_worker.go:305-339 | a last failed create leaves the row past running and enqueues a cleanup, moved or not |
| Safety.RemovalsSpareTheActive | internal/packages/orchestrator/cleanup_sandbox_worker.go:33-77 | however late it is sent or arrives, a RemoveSandbox never names a sandbox that is or will be active |
| Invariants.OrphanDoomed | internal/packages/orchestrator/remove_orphan_worker.go:49-51 | a listed sandbox that the database does not attribute to its worker is past running or no sandbox at all |
| Safety.DoomedForever | internal/packages/orchestrator/remove_orphan_worker.go:49-51 | such a sandbox is never active again, in any run from there |
| Safety.LinkFollowsStatus | internal/packages/orchestrator/cleanup_sandbox_worker.go:53-74 | the worker link is absent early and at the end, present while active; rows only move forward, terminal rows not at all |
| Safety.FallsOnce | internal/packages/orchestrator/reap_sandbox.go:58-108 | no sandbox enters cleanup twice in a run |
| Safety.OneJobPerFall | internal/packages/orchestrator/http.go:391-427 | a row is past running exactly when a cleanup job was enqueued for it, the first by the step it fell in |
| Safety.CompletesOnlyRunning | internal/packages/orchestrator/create_sandbox_worker.go:94-158 | under any interference a create attempt completes only in a step that read or set the row running |
| Invariants.CreateCompletes | internal/packages/orchestrator/create_sandbox_worker.go:94-303 | an attempt completes only on reading its row as running, or on setting it so from starting |
| Safety.CreatesGoToOneWorker | internal/packages/orchestrator/create_sandbox_worker.go:176-281 | all CreateSandbox calls for a sandbox, over all attempts, go to the worker it was assigned to |
| Creations.AssignmentGoesOn | internal/packages/orchestrator/create_sandbox_worker.go:193-227 | an attempt chooses again exactly when the worker is full, reads the row again exactly when it left scheduling, and calls the worker exactly when it was given |
| Creations.TakesUp | internal/packages/orchestrator/create_sandbox_worker.go:94-158 | in every reachable state a new attempt takes up the work where the row says it was left, with the worker it was given to |
| Creations.StartedWasTaken | internal/packages/orchestrator/create_sandbox_worker.go:230-280 | over every run, a sandbox is starting or running only once the worker it was given to answered its create |
| Creations.CreateBringsUp | internal/packages/orchestrator/create_sandbox_worker.go:94-303 | from every reachable state, an undisturbed create given a worker with room ends complete, with the sandbox running on that worker and hosted by it |
| Creations.EndsAsTheRowDoes | internal/packages/orchestrator/create_sandbox_worker.go:268-303 | whatever others did to the row, an attempt whose worker took the sandbox, once undisturbed, is complete with it running or cancelled with it past that |
| Creations.GivesUp | internal/packages/orchestrator/create_sandbox_worker.go:305-339 | the failure path leaves the sandbox past running with one cleanup job more on the last attempt, and changes nothing before |
| Creations.FailsInOnePlace | internal/packages/orchestrator/create_sandbox_worker.go:159-303 | every call that fails after the first read leads to the failure path |
| Creations.OvertakenWhileScheduling | internal/packages/orchestrator/create_sandbox_worker.go:147-174 | an attempt that finds its row moved on reads it again, and ends as the row has, or on the failure path while it is still on its way |
| Cleanups.CleanupEnds | internal/packages/orchestrator/cleanup_sandbox_worker.go:33-77 | from every reachable state, an undisturbed cleanup has the worker remove the sandbox, drops the link and ends it in the status its job was enqueued with |
| Cleanups.UnansweredWaits | internal/packages/orchestrator/cleanup_sandbox_worker.go:53-65 | a removal that is not answered changes nothing, unless it is the last attempt's, which goes on to fail the sandbox |
| Creations.EventConfirms | internal/packages/orchestrator/event_grpc.go:253-289 | a running event counts exactly from the linked worker, under its current token, for a sandbox that is starting |
| Invariants.RunInv | internal/packages/orchestrator/create_sandbox_worker.go:94-339 | every run keeps the invariant on rows, jobs in progress and messages in flight |
| Lifecycle.FollowsKeepsRow | internal/packages/sandbox/repository_postgres.go:140-237 | a row that changes as rows may change stays well-formed and only gets later |
| Fencing.TokensIncrease | internal/packages/worker/repository.go:114-138 | the tokens issued for a worker strictly increase, and so do those granted a first inventory |
| Fencing.TokenNeverFalls | internal/packages/worker/repository.go:114-138 | a worker's token never falls in a run |
| Fencing.StaleProcessIsPowerless | internal/packages/worker/repository.go:169-207 | once a newer process registered, no heartbeat or event of an older one changes the database again, however long it goes on |
| Registration.SupersededIsOut | internal/packages/worker/monitoring.go:182-268 | in every run that loses no token, a process with a token that a newer one superseded shares it with no other, never registers again, is always refused as stale, and changes nothing by what it sends |
| Registration.KeepsItsToken | internal/packages/worker/monitoring.go:233-264 | in such a run a process that has its token keeps it and never needs to register again |
| Registration.NeverUnknown | internal/packages/worker/repository.go:195-207 | in such a run a refusal always says stale, never unknown |
| Registration.ClusterLosesNothing | internal/packages/worker/repository.go:114-138 | every step of the cluster but a registration of the worker keeps its row and token |
| Registration.TokensRise | internal/packages/worker/repository.go:114-138 | over every run, losses included, each token handed out is above all before it exactly when every registration met a stored or presented token not behind them |
| Registration.LossIsMended | internal/packages/worker/monitoring.go:233-264 | a process the database has lost learns so by its next heartbeat, registers anew and is accepted under a higher token |
| Registration.SharedToken | internal/packages/worker/repository.go:114-138 | a run with a loss in which two processes hold the same token and are both accepted |
| Fencing.LostWereAssignedBefore | internal/packages/sandbox/repository_reconcile.go:137-152 | a first inventory never fails a sandbox assigned since the worker registered |
| Liveness.OnlySilenceFailsTheVouched | internal/packages/sandbox/repository_reconcile.go:102-121 | a sandbox every accepted heartbeat vouched for is reaped only after its worker was silent for both timeouts together |
| Capacity.NeverOverCapacity | internal/packages/sandbox/repository_postgres.go:177-231 | a worker never holds more than the largest capacity it reported, and gains none while at or over its current one |
| Capacity.CountedAreLinked | internal/packages/sandbox/repository_postgres.go:199-206 | the rows AssignWorker counts are exactly those linked to the worker |
| Confirmation.EndsConfirmedOrAbandoned | internal/packages/orchestrator/cleanup_sandbox_worker.go:33-77 | a sandbox given to a worker ends only after that very worker confirmed its removal or a last attempt gave up |
| Confirmation.StoppedMeansConfirmed | internal/packages/orchestrator/cleanup_sandbox_worker.go:18-77 | a stopped sandbox had its first cleanup job say so and all others fail it, and its worker confirmed it unless there is a second job |
| Counterexamples.StoppedUnconfirmed | internal/packages/orchestrator/create_sandbox_worker.go:305-339 | a run to a stopped sandbox whose worker never confirmed that it is gone |
| Counterexamples.CleanupCutShort | internal/packages/orchestrator/cleanup_sandbox_worker.go:33-77 | a run to a row in cleanup with its VM alive and no attempt or job left for it |
| Convergence.OneRoundConverges | internal/packages/orchestrator/event_grpc.go:185-230 | from any reachable tables and any hosted VMs, after one fault-free round a sandbox is active on a worker exactly when the worker hosts it alive, unless its VM is alive behind a cleanup that was cut short for good, and only then |
| Convergence.RoundExists | internal/packages/orchestrator/reap_sandbox.go:58-108 | such a round exists from every such state |
| Convergence.ReachableStatesQualify | internal/packages/orchestrator/event_grpc.go:185-230 | the tables of every run qualify, with any VMs put under them |
| Scheduler.WeightIsWhatIsLeft | internal/packages/orchestrator/scheduler.go:155-211 | a worker with capacity weighs one minus its load score, which is positive |
| Scheduler.CapacityIsUnsaturated | internal/packages/orchestrator/scheduler.go:180-199 | a worker has capacity exactly when its CPU usage is below 100 and its memory usage below its budget, or below 100 without one |
| Scheduler.ScoreIsWeighted | internal/packages/orchestrator/scheduler.go:155-178 | the load score on the integers reported: seven tenths of the CPU's share and three tenths of the memory's |
| Scheduler.MoreUsageWeighsLess | internal/packages/orchestrator/scheduler.go:155-211 | more usage never lowers a score and never raises a weight |
| Scheduler.RollsArePartitioned | internal/packages/orchestrator/scheduler.go:84-127 | every roll up to the total falls into some candidate's interval |
| Scheduler.RollFallsToOne | internal/packages/orchestrator/scheduler.go:84-127 | it falls into one only, and a positive roll into one of positive weight |
| Scheduler.TakeRoll | internal/packages/orchestrator/scheduler.go:112-127 | the loop that takes weights off the roll stops at the candidate whose interval the roll is in |
| Scheduler.PickWeightedRandom | internal/packages/orchestrator/scheduler.go:84-127 | picks none only when none is eligible, else the one drawn, or the least used when nothing has weight |
| Scheduler.PickLeastUsed | internal/packages/orchestrator/scheduler.go:129-153 | picks an eligible candidate of the lowest load score, none only when none is eligible |
| Scheduler.ChooseLeastUsedWorker | internal/packages/orchestrator/scheduler.go:49-82 | reports full exactly when some worker is active and all active ones have used up CPU or memory; while one has not, it picks such a one |
| Scheduler.AssignLoop | internal/packages/orchestrator/create_sandbox_worker.go:187-227 | ends, asks each worker at most once, and reports full only when every active candidate was saturated or refused as full |
| SandboxManager.Manager.BeginCreate | internal/packages/sandboxmgr/manager.go:132-157 | answers invalid, tracked, busy and full each exactly when that is so, registers otherwise, and keeps tracked and deleting disjoint |
| SandboxManager.Manager.EndCreate | internal/packages/sandboxmgr/manager.go:161-171 | after a failed create its actor tracks nothing, every other entry is as it was, one made anew for the same sandbox included, and tracked and deleting stay disjoint |
| SandboxManager.Manager.BeginRemove | internal/packages/sandboxmgr/manager.go:193-209 | answers invalid, busy and missing each exactly when that is so, otherwise moves the sandbox to deleting and hands over its actor |
| Books.SandboxIdShape | internal/packages/runtime/reconcile.go:19-26 | a sandbox ID is exactly five groups of hex digits joined by dashes |
| SandboxManager.Manager.Release | internal/packages/sandboxmgr/manager.go:211-215 | a sandbox whose mark is released can be created again, room permitting; no other sandbox's removal is affected, and tracked and deleting stay disjoint |
| SandboxManager.Manager.Snapshot | internal/packages/sandboxmgr/manager.go:228-236 | lists every tracked sandbox once with its state, and no other |
| SandboxManager.Manager.Report | internal/packages/sandboxmgr/manager.go:240-250 | a report is forwarded exactly when its actor tracks the sandbox, changes the state of that entry only, and who tracks what not at all |
| SandboxManager.Manager.CheckLiveness | internal/packages/sandboxmgr/audit.go:37-55 | exactly the entries whose actor is gone turn dead |
| SandboxManager.Manager.Claim | internal/packages/sandboxmgr/audit.go:71-85 | claims exactly the listed sandboxes nobody owns, each once |
| HostTheorems.OwnershipHolds | internal/packages/sandboxmgr/manager.go:20-23 | in every run tracked and deleting are disjoint, each mark has exactly one holder, and a reap never meets a live actor or another reap of the same sandbox |
| HostInvariants.StepCore | internal/packages/sandboxmgr/service.go:65-233 | every step of calls, actors, audit and recovery keeps the ownership invariant |
| HostTheorems.ReaperApart | internal/packages/sandboxmgr/audit.go:64-96 | no reap is of a sandbox whose actor can still touch the disk |
| HostTheorems.DiskStaysTidy | internal/packages/runtime/reconcile.go:77-104 | across creates, removes, reaps and crashes a device exists only with its directory, and every delete message names a sandbox's thin ID |
| HostTheorems.WorkKeeps | internal/packages/sandboxmgr/vm.go:107-190 | each step of a create or cleanup keeps that, and touches no other sandbox |
| HostTheorems.TeardownKeeps | internal/packages/runtime/reconcile.go:77-104 | so does each step of a teardown |
| HostOutcomes.RemovedIsGone | internal/packages/sandboxmgr/service.go:195-210 | over every run, while a remove holds its actor's ok, or a reap stands at its end with success, neither device nor directory of the sandbox is left |
| HostOutcomes.CreatedIsThere | internal/packages/sandboxmgr/service.go:150-172 | over every run, an actor answers a create ok only with directory, volume and a watched VM in place |
| HostWork.CreateCreates | internal/packages/sandboxmgr/vm.go:107-160 | a create without bad luck makes the directory, maps a volume under the drawn ID, boots and answers ok |
| HostWork.RemoveRemoves | internal/packages/sandboxmgr/vm.go:178-190 | a remove without bad luck removes the device, frees its ID, removes the directory and answers ok |
| HostWork.FailedCreateCleansUp | internal/packages/sandboxmgr/service.go:150-164 | wherever a create fails once it has its directory, its own cleanup, if nothing goes wrong in it, leaves nothing |
| HostStates.ListsWhatActorsSaw | internal/packages/sandboxmgr/service.go:212-233 | over every run, what is listed of a sandbox is what its actor last saw, unless it was found dead |
| HostStates.EndsAreListed | internal/packages/sandboxmgr/audit.go:37-55 | over every run, a sandbox is listed DEAD once its actor saw its VM exit or panicked, and once the audit found its actor gone |
| HostStates.ActorsBegin | internal/packages/sandboxmgr/service.go:174-182 | a sandbox adopted at start-up is tracked as found, with its VM watched; a new one starts with neither |
| HostStates.VmIsKept | internal/packages/sandboxmgr/service.go:150-160 | an actor keeps its VM, and gets one only by making the directory of its create |
| HostTheorems.DoReturnsTheReply | internal/packages/sandboxmgr/service.go:65-86 | do returns the actor's own reply if the command was handled, and exited only if it was not |
| HostTheorems.ExitedIsNeverHandled | internal/packages/sandboxmgr/service.go:65-123 | a command its call has given up on is never handled later |
| HostCapacity.HostedWithinCapacity | internal/packages/sandboxmgr/manager.go:145-152 | over every run, a worker hosts, removals included, no more than the largest capacity its creates met or than it adopted at start-up, besides what its audit is reaping |
| HostCapacity.OthersAddNone | internal/packages/sandboxmgr/manager.go:132-224 | no step but a create, an audit's claim and an adoption at start-up adds a sandbox |
| HostTheorems.StepDead | internal/packages/sandboxmgr/service.go:212-233 | a DEAD entry stays as it is through every step but a remove of it, the failure of its create, or a crash |
| HostTheorems.DeadUntilDropped | internal/packages/sandboxmgr/audit.go:37-55 | over any run, a sandbox found DEAD is still tracked by the same actor, and as DEAD, exactly when no remove of it, failure of its create or crash came since |
| HostTheorems.DeadDroppedByItsCreate | internal/packages/sandboxmgr/manager.go:161-171 | a run without any remove or crash in which a DEAD sandbox is dropped |
| HostTheorems.ReportsStayHome | internal/packages/sandboxmgr/manager.go:240-250 | an actor's report changes no entry but its own, so a sandbox created anew hears nothing of its predecessor |
| HostTheorems.TrackingIsKept | internal/packages/sandboxmgr/manager.go:132-174 | an actor that lost its entry never gets one back |
| Bytes.UintRoundTrip | internal/packages/thin/dm.go:103-114 | an integer that fits its field is read back, in either byte order |
| Bytes.ByteOrders | internal/packages/thin/dm.go:103-114 | which byte comes where, in either order |
| Bytes.CStringCuts | internal/packages/thin/dm.go:157-162 | a text followed by a NUL is read up to its own first NUL |
| DeviceMapper.NewRequest | internal/packages/thin/dm.go:81-94 | a request has its header filled in and zeros behind, for names that fit |
| DeviceMapper.Align8Aligns | internal/packages/thin/dm.go:97 | the only multiple of eight from the size on and less than eight above it |
| DeviceMapper.EncodeTargets | internal/packages/thin/dm.go:101-119 | the specs one behind the other, or an error exactly when a type is too long |
| DeviceMapper.SpecOnTheWire | internal/packages/thin/dm.go:101-119 | the fields of a spec at the offsets of linux/dm-ioctl.h, its texts padded with NULs |
| DeviceMapper.DecodeTargets | internal/packages/thin/dm.go:122-155 | on any buffer, an error or exactly the declared number of targets, read in bounds along the chain of next fields |
| Chains.Collect | internal/packages/thin/dm.go:137-153 | the loop reads the whole chain, or finds that a record does not fit |
| DeviceMapper.TableReads | internal/packages/thin/dm.go:122-155 | a buffer that holds the specs of a table at their places, with anything between and behind them, is read to that table in order, whether next fields count from the spec or from the data |
| DeviceMapper.TableRoundTrip | internal/packages/thin/dm.go:99-155 | the kernel loads an encoded table, and every answer that lays it out, whatever pads it, decodes to that table, as it was exactly when its texts are free of NULs and with them cut at the first one always |
| DeviceMapper.AnswerExists | internal/packages/thin/dm.go:120-135 | every table that fits has such an answer, one that ends right behind the last text |
| DeviceMapper.LoadRequest | internal/packages/thin/dm.go:209-217 | a load request declares its targets and carries exactly their encoding |
| Pool.LoadPool | internal/packages/thin/pool.go:55-70 | a loaded pool's first sandbox ID is between 1 and the largest thin ID |
| Pool.LoadBase | internal/packages/thin/pool.go:80-95 | a base volume is below every sandbox volume |
| Pool.PoolReadsBack | internal/packages/thin/pool.go:55-70 | a settings file is read as exactly the pool it names, or refused for an empty name or directory or an ID out of range |
| Pool.BaseReadsBack | internal/packages/thin/pool.go:80-95 | a base file is read as exactly the volume and size it gives, or refused for an ID not below the sandboxes or no size |
| Pool.VolumeNamesDiffer | internal/packages/thin/pool.go:97-102 | different sandboxes have different volumes |
| VolumeSteps.SandboxesHaveVolumes | internal/packages/thin/pool.go:97-102 | every sandbox ID names a volume |
| Pool.Kernel.CreateSnapshot | internal/packages/thin/pool.go:156-169 | takes a free ID of the sandbox range, and gives up only after a failure or sixteen taken draws |
| Thin.Drawn | internal/packages/thin/pool.go:158 | a drawn ID is a sandbox's |
| Thin.DrawsEvery | internal/packages/thin/pool.go:158 | every sandbox ID can be drawn |
| Pool.Kernel.CreateVolume | internal/packages/thin/pool.go:111-154 | adds one volume under a fresh ID its table names, keeps every other device as it is, deletes only sandbox IDs, and on failure leaves devices and volumes as they were unless undoing failed too |
| Pool.CreatesOrUndoes | internal/packages/thin/pool.go:111-154 | what a create leaves once it has its snapshot: the new device alone, or everything as before unless undoing failed |
| VolumeSteps.CreateIsWork | internal/packages/sandboxmgr/vm.go:107-190 | creating a volume in the pool is a run of the actor's steps from its snapshot on, which comes to boot exactly when the create succeeds and to cleanup if not |
| VolumeSteps.RemoveIsTeardown | internal/packages/runtime/reconcile.go:77-104 | removing a volume is a run of the teardown's steps, which comes to the directory exactly when the remove succeeds and fails if not |
| Pool.Kernel.RemoveVolume | internal/packages/thin/pool.go:173-206 | removes the device and frees its ID, refuses any other table, and never touches a base volume |
| Pool.SandboxThinId | internal/packages/thin/pool.go:211-223 | accepts only IDs of the sandbox range |
| Pool.ThinIdReadsBack | internal/packages/thin/pool.go:211-223 | the ID of a created volume is read back from its table, and refused exactly when it is not a sandbox's |
| Decimals.ParsesBack | internal/packages/thin/pool.go:211-223 | a printed integer is parsed back exactly when it is below the limit |
| ExitText.ExitReadsBack | internal/packages/shim/shim.go:44-79 | every exit code is read back from the message and from the file |
| ExitText.ExitLooksLike | internal/packages/shim/shim.go:44-79 | the texts themselves, for a few codes |
| ExitText.LineIsWhole | internal/packages/shim/client.go:133-151 | a line cut short is never taken for a whole one |
| Shim.HandlesAgree | internal/packages/shim/client.go:133-151 | a handle its owner did not close ends with the recorded code, and with an error only if the shim died before recording or could not |
| Shim.WholeLineIsEnough | internal/packages/shim/client.go:133-151 | a handle its owner did not close and that got the whole line ends with the exit code, recorded or not |
| Shim.LateSpawnAgrees | internal/packages/shim/client.go:69-85 | a worker that finds no socket any more reads the same code |
| Shim.EveryHandleEnds | internal/packages/shim/client.go:133-151 | once the shim is gone no handle is left waiting |
| Shim.NobodyLeftDialling | internal/packages/shim/server.go:85-112 | once the listener is closed no connection is left in its queue |
| Shim.RunInv | internal/packages/shim/server.go:48-112 | every run keeps what connections and handles may have learnt |
| Shim.Server.Accepts | internal/packages/shim/server.go:179-196 | whatever the rest of the shim is, handling a connection is a run of the machine: it becomes a client, or once the exit is known is told and closed |
| Shim.Server.Finish | internal/packages/shim/server.go:199-209 | whatever the rest of the shim is, it is a run of the machine's steps to the end of telling: each client is sent its part of the line and closed, and no other connection is touched |

## Left out

- The create, cleanup and orphan job workers, the actor's loop and the shim's serve loop are steps of state machines over values, not methods with loops: what the model shows of them is every interleaving of their steps, not update in place.
- The order in which a statement returns the IDs it claims: the repository answers sets.
- The columns of a sandbox or worker that decide nothing (image, port, user, address, sizes), and the `sandbox_events` table.
- `created_at` is stamped by the orchestrator; the model lets it be any time.
- The loss of the database, and of tokens with it, except in `Registration`: the cluster's theorems are about a database that is not lost.
- HTTP, JSON, authentication and the front end; gRPC transport, dialling, timeouts as wall time: an RPC succeeds, fails before its effect, or fails after it.
- River's internals: jobs are executed at least once, inserted with their transaction, and have one last attempt, after which no attempt of the job starts or goes on.
- The worker's capacity arithmetic and refusal backoff, and when its loop comes round: any heartbeat a registered process could send may be sent at any time.
- Scheduler.PickWeightedRandom: loads are reals, so floating-point rounding is not modelled, and the random number is any draw below the total weight, not a distribution.
- Isolated system calls (ioctls, mknod, signals, /proc scans, file locks) are steps that may fail; Firecracker itself is a VM that may exit at any time.
- DeviceMapper.TableRoundTrip: the kernel is taken to keep the table it was loaded with as C strings and to answer with its next fields counted from the start of the data; that it prints a thin target's pool as a device number is in Pool instead.
- DeviceMapper.DecodeTargets: memory for the declared number of targets is not bounded.
- Pool settings do not change while a worker host's machine runs.
- Killing a stale shim or VM before a reap is folded into the reap's first step, which may fail.
- Event forwarding from the manager, which may drop events, and the poll intervals.
