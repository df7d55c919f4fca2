# The client daemon's concurrency and durability layer, verified

The daemon keeps agent executions alive across dropped connections, crashes and slow Docker commands. It does
so with a set of small stateful protocols. This project models them in Dafny and proves what they promise over
whole runs. It has eight parts.

**Reliable frame replay.** The client numbers the frames of each execution, retains them until they are
acknowledged, and replays them after a reconnect. `ReplaySpec` says what each handler does to the client's
state; `ReplayClient` is the client with its fields and run objects, each method proved equal to that step.
`ReplaySystem` adds sockets that lose any suffix, sockets that still deliver after they were given up, and a
bridge that accepts only the next number of an execution, drops lower ones and flags higher ones. Results:
`ReplayGaps` (safety over all runs and its exact condition), `ReplayEmissions` (the same for one emission),
`ReplayFailures` (the number of a failure), `ReplayRetention` (what is retained), `ReplayAccounting` (who
learns of a dropped frame) and `ReplayHandlers` (what each handler comes to, told by its effect alone).

**Fair execution scheduler.** `SchedulerSpec` is the admission scheduler over values, `SchedulerProofs` and
`SchedulerFairness` its invariant, conservation, bounded bypass and progress, `SchedulerOutcomes` who gets which
outcome when; `CallerExecutionScheduler` is the class, with the busy sets as objects that release closures share.

**Concurrent and serial executions.** `Slots` counts running containers against scheduler slots while Docker
starts land late; `SlotHistory` says who may go on to which stage when. `Execution` follows one task through
`execute` and `executeConcurrent` for every way its awaited operations may end, with a worker that may speak at any
moment, also after an abort and after the end; every await is recorded with what the scope was by then, and must be
the next one of the stage machine in `ExecutionSteps`. `ScopeLeases` is the promise chain through which a scope's
executions and idle reclaims pass; `ScopeEntries` says who is let in and when an entry is dropped.

**Crash-safe allocation.** `Allocation` runs `acquireContainer`, `initialize` and `remove` over store rows and
Docker resources with identities; any step may throw or be the last before a crash.

**State store.** `StateStore` opens a fresh or a JSON directory, cut off at any step. `ManifestFence` is the
manifest version under overlapping writers, failed writes, crashes and restarts.

**Storage.** `StorageCatalog` is the pool manager's catalog over every crash schedule. `HelperJournal` is the
helper's journal while Docker requests land late; `CallerStorage` is the class whose every step is one of it.

**Process tree.** `ProcessTree` has the snapshot's parent-chain closure and the two-read emptiness check.

**Codecs and arithmetic.** `Text` (UTF-16 strings, UTF-8 lengths), `Json` (the text of JSON values),
`FederatedPrincipal`, `SessionKey` and `FileDelivery`.

`Options`, `Sets` and `Faults` hold what several parts use. A step that may be the last of its call is given
its ending by a plan: `Works`, failing before, or failing after taking effect; a call that runs out of plan is
cut off. So a contract over all plans is a contract over all crash schedules. What a call did, in order, is kept in
a ghost record that only the single steps write; "succeeds if and only if" below is about that record and the state
before the call.

## Where a promise holds only under a condition

- An environment can make replay show the bridge a gap exactly when (1) a backend may emit after its `handle`
  returned or (2) a run may emit between a replay that stopped early and the end of its socket, for which two
  frames must fit the limits. For (1), a finished run's retained frames can expire, and a later emission then
  skips their numbers. For (2), `flushPendingFrames` returns at the first frame the server would not take
  (packages/client/src/client.ts:771-794) and leaves later executions' frames unsent, but the socket stays open
  and ready until the failure has been flushed, and `sendTaskFrame` (packages/client/src/client.ts:762-764) sends
  on it meanwhile. A single such emission is harmful exactly when its frame goes out before its predecessor, or
  is retained while the frames before it are neither accepted nor retained.
- A synthetic failure carries exactly the bridge's next number in every orderly run exactly when the server never
  negotiates a smaller frame limit than before. Otherwise a frame may be accepted, its acknowledgement lost, and
  its replay replaced by a failure under a number the bridge drops as a duplicate.
- Dropping an unacknowledged frame always fails its run, gives up an open connection, stops the client or sends a
  failure, except when an expiry meets a finished run's frame while no connection is open
  (packages/client/src/client.ts:947-957): there is no connection to terminate then, and the next one is
  ready with nothing to replay while the bridge still waits for the frame.
- Every running container belongs to a held slot exactly when no base container start takes effect late. The
  base container is started by name (packages/client/src/caller-runtime-docker.ts:565), so a start that outlives
  its command can revive it after `docker stop`.
- A stored row lies behind its manifest version exactly when the migration imported no record that names a
  federated principal: such a record is imported under version 4
  (packages/client/src/caller-runtime-store.ts:246-251, 296-301).
- The helper journal holds exactly when the operations of a scope are serialized, which the pool's callers do
  (packages/client/src/caller-runtime-docker.ts:49-50). Two overlapping reconciliations can clear the row of the
  next helper.

## Model

| member | source | states |
|---|---|---|
| ReplayClient.ReplayClient.SendTaskFrame | packages/client/src/client.ts:708-765 | a run's frame gets the next number and is retained and sent, or the run is failed and a failure takes its number |
| ReplayRetention.RetainsExactlyWhatFits | packages/client/src/client.ts:725-741 | an emission is retained, last in the queue, exactly when it is within the negotiated size and the queue with it keeps both bounds; otherwise its run is suppressed and exactly its frames are gone |
| ReplayClient.ReplayClient.FlushPendingFrames | packages/client/src/client.ts:767-800 | expiry, then the retained frames in order, stopping at the first one too large |
| ReplayClient.ReplayClient.AcknowledgeFrames | packages/client/src/client.ts:816-826 | a cumulative acknowledgement releases an execution's frames up to its number and their bytes |
| ReplayClient.ReplayClient.FailReliableRun | packages/client/src/client.ts:828-835 | a run is failed once: suppressed, its frames released, optionally the socket given up |
| ReplayClient.ReplayClient.SendReliableFailureAndDisconnect | packages/client/src/client.ts:837-880 | the failure is sent at its number, or whatever is in the way ends the socket |
| ReplayClient.ReplayClient.RemovePendingExecution | packages/client/src/client.ts:882-889 | one execution's frames and bytes are released, all others keep their order |
| ReplayClient.ReplayClient.ExpiredExecutions | packages/client/src/client.ts:933-937 | the executions with a frame at or past the cutoff, each once, in queue order |
| ReplayClient.ReplayClient.ExpirePendingFrames | packages/client/src/client.ts:930-961 | every expired execution is failed and disconnected, or released and disconnected when its run has ended |
| ReplayClient.ReplayClient.OnHelloAck | packages/client/src/client.ts:427-442 | a missing caller-scope capability stops the client and aborts every run in flight; without the replay capability nothing changes; otherwise the connection is ready with the negotiated limit and replays |
| ReplayClient.ReplayClient.OnCancel | packages/client/src/client.ts:471-487 | a cancel for the current execution, or for none, aborts the backend; only the former suppresses the run and releases its frames; any other cancel changes nothing |
| ReplayClient.ReplayClient.RunTask | packages/client/src/client.ts:1012-1027 | a run still in flight for the task is suppressed, aborted and released; the new run starts at number 0 |
| ReplayClient.ReplayClient.TaskEnded | packages/client/src/client.ts:1041-1043 | the run leaves `inflight` unless a newer one took its place; the backend may keep it |
| ReplayClient.ReplayClient.OnClose | packages/client/src/client.ts:501-562 | the socket is gone; after a fatal code everything is suppressed and released |
| ReplayClient.ReplayClient.StopClient | packages/client/src/client.ts:198-211 | stopping suppresses and aborts every run in flight, whichever of them share a run, and releases all frames |
| ReplayClient.ReplayClient.ConnectSocket | packages/client/src/client.ts:336-343 | a new socket starts without readiness and without a negotiated limit |
| ReplayHandlers.ExpiryDisconnectsExactly | packages/client/src/client.ts:930-961 | an expiry ends an open socket if and only if a retained frame is at or past the age limit; if there is none it changes nothing |
| ReplayHandlers.ExpiryExactly | packages/client/src/client.ts:930-961 | every execution with such a frame loses all its frames and fails if it is in flight, no other run and no other frame is touched, whatever the order of the loop |
| ReplayHandlers.ReplayExactly | packages/client/src/client.ts:767-800 | for any first frame too large and any write that throws: what the socket was handed, whether it stays open, what is left retained, and which run failed |
| ReplayHandlers.HelloAckExactly | packages/client/src/client.ts:427-442 | a hello.ack on an open socket replays everything, or, with an expired frame retained, sends nothing and ends the socket |
| ReplayHandlers.EmissionExactly | packages/client/src/client.ts:708-765 | an emission is retained if and only if it fits the negotiated size and both limits; it goes out at once on a ready and open socket; else its run fails and its number goes to the failure, or the socket ends |
| ReplayHandlers.CancelExactly | packages/client/src/client.ts:471-487 | a cancel releases the named execution if its task is running it, and nothing else |
| ReplayHandlers.AssignExactly | packages/client/src/client.ts:1012-1027 | an assignment releases the execution the task was running and no other |
| ReplayHandlers.FinishExactly | packages/client/src/client.ts:1041-1043 | the end of a run takes it out of flight if and only if its task has no newer one |
| ReplayHandlers.ClosingExactly | packages/client/src/client.ts:501-562 | losing a connection keeps every run and frame; a fatal loss, like stopping, suppresses exactly the runs in flight and retains nothing |
| ReplayHandlers.ConnectExactly | packages/client/src/client.ts:336-343 | a new socket has no readiness, no limit and nothing sent, and takes over all runs and frames |
| ReplaySafety.NoGap | packages/client/src/client.ts:168-171 | the next frame of any socket is at most one past what the bridge accepted, or its execution is closed |
| ReplaySafety.EmitOk | packages/client/src/client.ts:708-765 | an emission keeps the whole invariant when its frame may follow on the socket and continues what reaches the bridge |
| ReplayProofs.ReplayOk | packages/client/src/client.ts:767-800 | a replay from any position keeps the invariant, whichever write throws |
| ReplayRuns.StepKeepsInv | packages/client/src/client.ts:708-880 | every legal step of client, sockets and bridge keeps the invariant and shows no gap |
| ReplayRuns.RunKeepsInv | packages/client/src/client.ts:708-968 | so does every run of emits, drops, reconnects, repeated hello.acks, late acks, overflow and expiry |
| ReplayGaps.AcceptedIsPrefix | packages/protocol/src/index.ts:5-9 | what the bridge accepted of an execution is an in-order, duplicate-free prefix of what was emitted, closed by a failure at most once and last |
| ReplayGaps.FailureIsNext | packages/client/src/client.ts:744-749 | no frame about to be read on any socket is ahead of the bridge, and the failure that replaced an emission carries exactly the next number |
| ReplayGaps.LateEmitGap | packages/client/src/client.ts:947-957 | a run that emits after its `handle` returned and its frames expired makes a gap |
| ReplayGaps.BehindEmitGap | packages/client/src/client.ts:771-794 | a run that emits on a socket whose replay stopped early makes a gap |
| ReplayGaps.NeverGapsExactly | packages/client/src/client.ts:708-880 | no run of an environment shows a gap if and only if the environment lets nobody emit late and, where two frames fit, nobody emit on a socket that is behind |
| ReplayGaps.OneFrameRun | packages/client/src/client.ts:771-794 | with room for one frame an open socket is never behind, so every run is one without such an emission |
| ReplayEmissions.EmissionGapExactly | packages/client/src/client.ts:708-765 | one emission leads to a gap in some orderly continuation if and only if its frame goes out before its predecessor, or is retained while the frames before it are neither accepted nor retained |
| ReplayEmissions.SoundRunKeepsInv | packages/client/src/client.ts:708-880 | a run whose emissions all avoid that shows no gap, whatever its environment would allow |
| ReplayGaps.FailureMayRepeat | packages/client/src/client.ts:786-793 | when the server may lower its limit, the failure of a replay can carry a number already accepted |
| ReplayFailures.FailuresAreNextExactly | packages/client/src/client.ts:771-793 | every failure about to be read on any socket, of an execution not closed, carries exactly the next expected number in every orderly run if and only if the server never lowers its frame limit |
| ReplayFailures.FailureNeverRepeats | packages/client/src/client.ts:786-793 | without a lowered limit no failure repeats a counted number, even when backends emit late or on a socket that is behind |
| ReplayFailures.StepSized | packages/client/src/client.ts:708-880 | every step keeps: what any socket was handed and the bridge accepted was within the largest limit so far, and the number of a failure is on no backend frame of any socket or queue |
| ReplayGaps.ReachableRetains | packages/client/src/client.ts:708-968 | in every reachable state the byte counter is exact, both limits hold, each execution retains one contiguous run of numbers, and a suppressed one nothing |
| ReplayAccounting.DropIsToldExactly | packages/client/src/client.ts:816-961 | a frame leaves the queue in a step that acknowledges it, stops the client, fails its run, gives up an open connection or sends a failure for it, if and only if the step is not an expiry of a finished run without an open connection |
| ReplayAccounting.SilentLossHappens | packages/client/src/client.ts:947-957 | that expiry happens: the next connection is ready with nothing to replay and the bridge waits for the lost frame |
| ReplayGaps.NothingOverAge | packages/client/src/client.ts:930-961 | after an expiry no retained frame of any reachable state is as old as the age limit |
| ReplayRetention.StepRetains | packages/client/src/client.ts:708-968 | every step keeps the byte counter exact, both limits, one contiguous run of numbers per execution, and nothing retained for a suppressed one |
| ReplayRetention.AcknowledgeRetains | packages/client/src/client.ts:816-826 | exactly the acknowledged frames of that execution are released |
| ReplayRetention.SuppressedForGood | packages/client/src/client.ts:1029-1038 | a suppressed run stays suppressed and its emissions change nothing |
| ReplayRetention.FailsClosed | packages/client/src/client.ts:474-485 | cancel, reassignment and stop suppress the run and leave nothing of it retained |
| ReplayRetention.ReplayHandsOver | packages/client/src/client.ts:767-800 | on a healthy socket a replay hands over the whole queue in order and changes nothing else |
| ReplayRetention.ReplayStopsShort | packages/client/src/client.ts:771-794 | at the first frame too large, a failure goes out under its number after everything in front of it, on a socket that stays open and is behind exactly when a frame of another execution is left |
| SchedulerProofs.StepKeepsInv | packages/client/src/caller-execution-scheduler.ts:12-71 | counts and limits, FIFO per context, no shared slot, no admissible waiter while a slot is free; an arrival admits at most itself, an abort nobody, a release at most one |
| SchedulerFairness.RunKeepsInv | packages/client/src/caller-execution-scheduler.ts:12-71 | the same over every run |
| SchedulerFairness.SettlesOnce | packages/client/src/caller-execution-scheduler.ts:14-31 | an outcome, once there, never changes: each promise settles at most once |
| SchedulerFairness.RunningIsSum | packages/client/src/caller-execution-scheduler.ts:55-66 | `running` is the sum of the busy sets' sizes |
| SchedulerFairness.BoundedBypass | packages/client/src/caller-execution-scheduler.ts:43-71 | an eligible waiter stays eligible until its scope is served, and each scope ahead of it is served at most once before |
| SchedulerFairness.ServedInTime | packages/client/src/caller-execution-scheduler.ts:43-71 | a release with an eligible waiter present admits exactly one, so once more held slots were given back than scopes were ahead of it, its scope has been served |
| SchedulerOutcomes.ArrivalOutcome | packages/client/src/caller-execution-scheduler.ts:12-32 | an arrival is admitted if and only if its slot can be taken at once; otherwise it is rejected as full if and only if the queues with it are over a limit; otherwise it waits, last in its scope, without an outcome |
| SchedulerOutcomes.AbortedArrivalOutcome | packages/client/src/caller-execution-scheduler.ts:13 | an arrival that is aborted already is rejected and never queued |
| SchedulerOutcomes.AbortOutcome | packages/client/src/caller-execution-scheduler.ts:15-19 | an abort rejects a waiter without an outcome and takes it, and only it, out of its queue; after any outcome it changes nothing |
| SchedulerOutcomes.ReleaseOutcome | packages/client/src/caller-execution-scheduler.ts:61-68 | a release of a held slot frees it and admits exactly the first waiter that can start then, in the order of the scopes and of their queues, or nobody if there is none; a second release does nothing |
| CallerExecutionScheduler.Scheduler.Acquire | packages/client/src/caller-execution-scheduler.ts:12-32 | an arrival queues, drains, and is rejected when it still waits over a queue limit |
| CallerExecutionScheduler.Scheduler.Abort | packages/client/src/caller-execution-scheduler.ts:15-19 | an abort removes and rejects a waiter that still waits, and only that |
| CallerExecutionScheduler.Scheduler.Release | packages/client/src/caller-execution-scheduler.ts:61-68 | a release closure frees its slot once, through the busy set it captured |
| CallerExecutionScheduler.Scheduler.Drain | packages/client/src/caller-execution-scheduler.ts:43-71 | admission rounds until the slots are full or nobody is eligible |
| Slots.AdmissionIsLease | packages/client/src/caller-execution-scheduler.ts:43-60 | what the scheduler admits is a new pair within the global and the per-caller limit |
| Slots.StepKeepsInv | packages/client/src/caller-scoped-backend.ts:530-616 | every step of leases, preparations, late starts, exits and removals keeps containers attributed to held slots |
| Slots.RunningWithinSlots | packages/client/src/caller-runtime-docker.ts:645-732 | running contexts and base containers together never exceed the held slots, overall and per scope |
| Slots.LateBaseStartEscapes | packages/client/src/caller-runtime-docker.ts:565 | a base start that lands after its scope was stopped runs without any lease |
| Slots.AttributedExactly | packages/client/src/caller-runtime-docker.ts:657-674 | every running container belongs to a held slot if and only if no base start is late |
| SlotHistory.PreparedFirst | packages/client/src/caller-runtime-docker.ts:644-675 | in every reachable state only executions of a prepared scope have a context, at most one prepares a scope, and none prepares one again |
| SlotHistory.PreparedForGood | packages/client/src/caller-runtime-docker.ts:658-675 | no run takes back that a scope is prepared or quarantined |
| SlotHistory.QuarantineHolds | packages/client/src/caller-runtime-docker.ts:655 | a quarantined scope lets no waiting execution past its allocation |
| SlotHistory.MovesExactly | packages/client/src/caller-runtime-docker.ts:644-716 | which stage an execution can reach in one step, if and only if |
| SlotHistory.SlotsExactly | packages/client/src/caller-scoped-backend.ts:494-616 | a slot is taken if and only if both limits leave room, and given back only by an execution that never prepared or whose containers are gone |
| SlotHistory.ContextsExactly | packages/client/src/caller-runtime-docker.ts:697-732 | a container appears stopped under an id of its own, a start runs exactly the container with its id, only an exit or the removal ends it |
| SlotHistory.BasesExactly | packages/client/src/caller-runtime-docker.ts:656-675 | which step runs or ends a base container, sends a late start, prepares or quarantines its scope |
| Execution.TaskExecution.Execute | packages/client/src/caller-scoped-backend.ts:198-493 | exactly one terminal, last, whatever the worker says during any await and after the end; the operations awaited are those of the path up to where it leads; a task quarantined or aborted before or while it queued starts no worker, touches no container and fails; a failure only once the container is stopped or the scope quarantined |
| Execution.TaskExecution.ExecuteConcurrent | packages/client/src/caller-scoped-backend.ts:494-617 | the same, also for a failed context; the worker's terminal only after confirmed removal; the slot is given back exactly when the context did not fail, and then no container of the task can run |
| Execution.TaskExecution.Handle | packages/client/src/caller-scoped-backend.ts:362-375 | while `handle` runs chunks pass and terminals are held back, the last one counts; nothing is added once the task is aborted |
| Execution.TaskExecution.OnFrame | packages/client/src/caller-scoped-backend.ts:363-371 | after an abort or once forwarding ended the callback changes nothing that was emitted, and the worker's terminal stays what it was |
| Execution.TaskExecution.SerialFailure | packages/client/src/caller-scoped-backend.ts:385-473 | the failing path stops the container or quarantines the scope before it fails the task |
| Execution.TaskExecution.ConcurrentFailure | packages/client/src/caller-scoped-backend.ts:574-604 | an unconfirmed removal fails the context for good; the failure says quarantined exactly when the scope or the context is |
| Execution.TaskExecution.Wait | packages/client/src/caller-scoped-backend.ts:269-287 | an await is recorded with how it ended and what the scope was by then, and is the next operation of the path |
| Execution.TaskExecution.TurnAway | packages/client/src/caller-scoped-backend.ts:198-240 | which task is refused before it queues, with which code, if and only if |
| ExecutionSteps.SerialDoneExactly | packages/client/src/caller-scoped-backend.ts:269-384 | a serial task answers with its worker's terminal if and only if every operation of its path let it go on |
| ExecutionSteps.SerialBreaksAt | packages/client/src/caller-scoped-backend.ts:284-473 | where a serial task is first stopped it breaks with that error, and what it still has to do follows from how far it came |
| ExecutionSteps.SerialTurnedAway | packages/client/src/caller-scoped-backend.ts:284-287 | a task quarantined or aborted while it queued, or without room, never touches a container, whatever follows |
| ExecutionSteps.SerialAnswered | packages/client/src/caller-scoped-backend.ts:385-473 | a broken task's container is still to be stopped, is stopped, or the attempt was in vain |
| ExecutionSteps.ConcurrentDoneExactly | packages/client/src/caller-scoped-backend.ts:530-573 | the same equivalence for a concurrent task, up to the confirmed removal |
| ExecutionSteps.ConcurrentBreaksAt | packages/client/src/caller-scoped-backend.ts:530-604 | after its turn a stopped concurrent task settles and removes its container, unless the removal was confirmed already |
| ExecutionSteps.ConcurrentTurnedAway | packages/client/src/caller-scoped-backend.ts:530-535 | quarantine, a failed context or an abort while it queued keep it from every container |
| ExecutionSteps.ConcurrentAnswered | packages/client/src/caller-scoped-backend.ts:574-604 | a broken task's container is still to be removed, is removed, or the removal was in vain |
| ExecutionSteps.SerialCode | packages/client/src/caller-scoped-backend.ts:385-473 | which failure code is sent, each if and only if: some errors decide, then quarantine, storage, a failed check, an abort |
| ExecutionSteps.ConcurrentCode | packages/client/src/caller-scoped-backend.ts:574-604 | the same for the concurrent path |
| ScopeLeases.StepKeepsInv | packages/client/src/caller-scoped-backend.ts:79-134 | arrivals, cancels, turns, releases and idle reclaims keep the chain's order, the user counts and the map |
| ScopeLeases.OneAtATime | packages/client/src/caller-scoped-backend.ts:269-287 | at most one execution or idle reclaim is inside a scope, over every entry object it ever had, and all before it are over |
| ScopeLeases.ArrivalOrder | packages/client/src/caller-scoped-backend.ts:264-268 | once a link has been inside, nobody in front of it ever goes inside, however early tasks cancel |
| ScopeLeases.Bounded | packages/client/src/caller-scoped-backend.ts:220-238 | `pending` stays within scopes plus queue, entries within the scopes; users are the unfinished tasks |
| ScopeLeases.NeverReplaced | packages/client/src/caller-scoped-backend.ts:480-489 | an entry with users is the one the map holds, before and after every step |
| ScopeEntries.ArrivalExactly | packages/client/src/caller-scoped-backend.ts:220-268 | an arrival is let in if and only if the queue has room and its scope has a sound entry or room for a new one; then it is last in the chain |
| ScopeEntries.ReleaseExactly | packages/client/src/caller-scoped-backend.ts:480-489 | when a turn is over the entry is dropped if and only if it has no user left and is neither retained nor quarantined |
| ScopeEntries.KeptForGood | packages/client/src/caller-scoped-backend.ts:79-134 | a retained or quarantined entry stays the scope's entry in every run |
| ScopeEntries.QuarantineCloses | packages/client/src/caller-scoped-backend.ts:220-238 | neither a task nor an idle reclaim ever joins the chain of a quarantined scope |
| ScopeEntries.ReclaimExactly | packages/client/src/caller-scoped-backend.ts:79-134 | a reclaim whose turn has come goes inside if and only if its entry is still the scope's, sound, and no task came since its timer fired |
| ScopeEntries.IdleFiresExactly | packages/client/src/caller-scoped-backend.ts:79-100 | a timer fires if and only if its entry is current, sound and without users |
| Allocation.CallerScope.AcquireContainer | packages/client/src/caller-runtime-docker.ts:486-583 | it succeeds if and only if nothing is being prepared, the principal is the scope's own, the scope is new over nothing or confirmed with all its volumes, its container validates before and after the start, and every step works; an invalid container is never started, orphans are neither changed nor started |
| Allocation.CallerScope.Preflight | packages/client/src/caller-runtime-docker.ts:508-524 | the reservation is confirmed only over an empty scope; otherwise it is taken back or stays unconfirmed |
| Allocation.CallerScope.EnsureVolumes | packages/client/src/caller-runtime-docker.ts:539-546 | missing volumes are created for a new scope and refused for a retained one |
| Allocation.CallerScope.BuildContainer | packages/client/src/caller-runtime-docker.ts:538-559 | a container needs all volumes, and completeness unless the scope is new |
| Allocation.CallerScope.Initialize | packages/client/src/caller-runtime-docker.ts:139-185 | a restart succeeds if and only if no container is unrecorded and a retained one validates; unconfirmed reservations and invalid containers are left alone, a retained one is recorded and stopped |
| Allocation.CallerScope.Remove | packages/client/src/caller-runtime-docker.ts:810-860 | it succeeds if and only if the scope can be removed and every step works, and changes nothing otherwise; the row goes last, after every resource the code created; without data deletion the volumes stay |
| Allocation.CallerScope.Reserve | packages/client/src/caller-runtime-store.ts:365-418 | a new row is unconfirmed; an existing row is only ever changed by binding the scope's own principal to a row without one; another principal or another backend kind writes nothing |
| Allocation.CallerScope.Forget | packages/client/src/caller-runtime-store.ts:520-537 | all rows of the scope go in one step |
| StateStore.CallerRuntimeStore.OpenStorage | packages/client/src/caller-runtime-store.ts:202-338 | the exact result on any directory and for any interruption; what earlier openings left is never rejected; every valid legacy record is imported in one transaction, once; the version never decreases |
| StateStore.CallerRuntimeStore.Import | packages/client/src/caller-runtime-store.ts:261-306 | all records are validated before any is inserted, and the version commits with them |
| StateStore.CallerRuntimeStore.OpenUntilDone | packages/client/src/caller-runtime-store.ts:202-338 | after any number of interrupted openings one without faults succeeds exactly when all records are valid, and holds each once |
| StateStore.CallerRuntimeStore.Forget | packages/client/src/caller-runtime-store.ts:520-537 | the row is gone before the JSON backup, whatever is cut off |
| StateStore.CallerRuntimeStore.ForgetThenReopen | packages/client/src/caller-runtime-store.ts:246-256 | a forgotten scope is not imported again by any later opening |
| ManifestFence.VersionNeverDecreases | packages/client/src/caller-runtime-store.ts:348-358 | across overlapping writers, failed writes, crashes and restarts the version on disk only grows |
| ManifestFence.StepKeepsInv | packages/client/src/caller-runtime-store.ts:348-364 | a call that waits for its own write finds the version at its fence when it stores its row |
| ManifestFence.OthersFenced | packages/client/src/caller-runtime-store.ts:436-462 | fixed storage, preparations, federated scopes and contexts imply versions 5, 6, 7 and 8, unless imported |
| ManifestFence.GoneForGood | packages/client/src/caller-runtime-store.ts:348-358 | a removed row stays gone through crashes, restarts and other calls until a call for that very row stores it: the legacy records are imported once |
| ManifestFence.FencedExactly | packages/client/src/caller-runtime-store.ts:246-303 | every row is fenced in every run if and only if no imported record names a federated principal |
| StorageCatalog.StorageManager.RunStorageManager | packages/client/src/caller-storage-manager.ts:78-203 | over any catalog, request and crash schedule: which requests succeed, if and only if; the policy is set once, other scopes are untouched, no existing image is formatted, a device is handed out only for a finished allocation of that identity |
| StorageCatalog.StorageManager.Allocate | packages/client/src/caller-storage-manager.ts:114-152 | it succeeds if and only if budget, free space with the reserve and identity allow it and every step works, in the order charge, file, space, format, mount; ready only with a whole image |
| StorageCatalog.StorageManager.Fill | packages/client/src/caller-storage-manager.ts:123-128 | allocation and formatting touch only a file created exclusively by the same call |
| StorageCatalog.StorageManager.ChargeIntent | packages/client/src/caller-storage-manager.ts:116-120 | the sum of recorded sizes never exceeds the budget, and identities stay unique |
| StorageCatalog.StorageManager.Remove | packages/client/src/caller-storage-manager.ts:160-187 | the image goes before its row |
| StorageCatalog.StorageManager.SumSizes | packages/client/src/caller-storage-manager.ts:116 | the sum over all recorded rows |
| HelperJournal.StepKeepsInv | packages/client/src/caller-storage.ts:70-167 | every step of a serialized operation, and every late request or crash, keeps the journal exact |
| HelperJournal.OneHelper | packages/client/src/caller-storage.ts:134-167 | at most one helper of a scope runs, and it is the one the row names |
| HelperJournal.ClearedNeverRuns | packages/client/src/caller-storage.ts:74-104 | a helper whose row was cleared never runs again, whatever lands late |
| HelperJournal.CleanupCanFinish | packages/client/src/caller-storage.ts:74-104 | a cleanup that finds its helper and whose removal takes effect clears the row, and nothing else is in its way |
| HelperJournal.MovesExactly | packages/client/src/caller-storage.ts:74-104 | which stage an operation can reach in one step, if and only if: a removal only of a helper that was found, a confirmation only once the removal took effect, clearing only with the helper gone |
| HelperJournal.BeginsExactly | packages/client/src/caller-storage.ts:134-143 | an operation begins if and only if there is no mark, and no row and a fresh name, or, for a reconciliation, the row's name |
| HelperJournal.EffectsExactly | packages/client/src/caller-storage.ts:70-167 | what each step does to the row, the mark and the containers, and that no other step does |
| HelperJournal.OverlapBreaksJournal | packages/client/src/caller-storage.ts:70-104 | two overlapping reconciliations can clear the row of a running helper |
| HelperJournal.JournalingExactly | packages/client/src/caller-runtime-docker.ts:49-50 | a running helper implies its row in every run if and only if operations are serialized |
| CallerStorage.CallerStorage.Manage | packages/client/src/caller-storage.ts:134-167 | it succeeds if and only if no row was there, the start of the named helper reported success and the row is cleared again; a row is journaled before the helper exists and cleared only once it cannot run |
| CallerStorage.CallerStorage.RunHelper | packages/client/src/caller-storage.ts:146-160 | success exactly if the create reported success and then the start of that helper did |
| CallerStorage.CallerStorage.ReconcileScope | packages/client/src/caller-storage.ts:70-73 | it succeeds if and only if no row is left; then no helper runs, and failure keeps the row |
| CallerStorage.CallerStorage.Cleanup | packages/client/src/caller-storage.ts:74-104 | the row is cleared only when the helper is missing or its removal is confirmed |
| ProcessTree.Descendants | packages/client/src/execution-broker-supervisor.ts:28-47 | exactly the processes whose parent chain in the snapshot reaches the reaper, minus zombies, reaper and supervisor, in snapshot order; the sweeps end |
| ProcessTree.Sweep | packages/client/src/execution-broker-supervisor.ts:40-45 | one pass adds only owned processes, and adds nothing only when the set is closed |
| ProcessTree.StepExactly | packages/client/src/execution-broker-supervisor.ts:49-59 | what forks, exits and reaps do to the living and to their parents |
| ProcessTree.EmptyReadsAreSound | packages/client/src/execution-broker-supervisor.ts:49-59 | supervisor's list empty, then the reaper's: no descendant exists then or at any later moment |
| ProcessTree.ReversedReadsMissOrphans | packages/client/src/execution-broker-supervisor.ts:50-52 | the other order of reads can miss an orphan |
| FederatedPrincipal.TakeLengthPrefixed | packages/protocol/src/federated-principal.ts:7-26 | the parser's loop takes whole code points until exactly the announced bytes |
| FederatedPrincipal.TakeComponent | packages/protocol/src/federated-principal.ts:41 | a component is read back whatever it contains and whatever clean text follows |
| FederatedPrincipal.TakePrefixedExactly | packages/protocol/src/federated-principal.ts:7-26 | a component and a rest are taken from a text if and only if the text is that component's encoding followed by that rest and no surrogate pair straddles them |
| FederatedPrincipal.FormatsExactly | packages/protocol/src/federated-principal.ts:28-44 | a tuple has an encoding if and only if its parts are trimmed and present, the issuer is a `did:web` without white space, and the lengths allow it |
| FederatedPrincipal.TrimExactly | packages/protocol/src/federated-principal.ts:29 | trimming changes exactly the texts that begin or end with a listed white space character |
| FederatedPrincipal.ParseExactly | packages/protocol/src/federated-principal.ts:33-65 | parsing gives a tuple if and only if formatting that tuple gives the string |
| FederatedPrincipal.FormatInjective | packages/protocol/src/federated-principal.ts:28-44 | different tuples never share an encoding |
| FederatedPrincipal.FederatedExactly | packages/protocol/src/federated-principal.ts:68-70 | a principal is federated if and only if it is the encoding of some tuple |
| FederatedPrincipal.PreimageInjective | packages/protocol/src/federated-principal.ts:71-74 | two preimages agree if and only if agent and principal do |
| FederatedPrincipal.PreimageNamesPolicy | packages/protocol/src/federated-principal.ts:68-74 | the preimage names the federated policy exactly for the encoding of some tuple |
| Text.Utf8LengthBound | packages/protocol/src/federated-principal.ts:3 | a string has between one and three bytes for each code unit |
| Text.EncodeKeepsCodePoints | packages/protocol/src/federated-principal.ts:3 | the UTF-8 form decodes to the string's code points, lone surrogates as U+FFFD |
| Text.CodePointsExactly | packages/protocol/src/federated-principal.ts:3 | in UTF-16 again the code points are the string, with exactly its lone surrogates replaced |
| Json.QuoteSelfDelimiting | packages/client/src/caller-context.ts:127 | a quoted string tells where it ends and what it quotes |
| Json.QuotesExactly | packages/client/src/caller-context.ts:127 | exactly control characters, quotes, backslashes and lone surrogates are escaped, in two or six units |
| Json.PrintJoined | packages/client/src/caller-context.ts:146-149 | lists and objects are their parts joined by commas between brackets |
| Json.PrintInjective | packages/client/src/caller-context.ts:146-149 | two JSON values have the same text if and only if they are the same value |
| SessionKey.SessionKeyCanonical | packages/client/src/caller-context.ts:106-149 | two contexts share a key if and only if principal, actor and the set of projected attestations agree, or both identify nobody; only the latter have the empty key |
| SessionKey.EvidenceIsIgnored | packages/client/src/caller-context.ts:141-145 | reordering, repeating and re-issuing attestations leaves the key as it is |
| SessionKey.AttestationsJsonElements | packages/client/src/caller-context.ts:124-133 | the deduplicated list is strictly ascending and holds exactly the projected attestations |
| SessionKey.NormalizeExactly | packages/client/src/caller-context.ts:69-104 | a context is dropped exactly if it is refused or says nothing; otherwise its names and list are those of its version |
| SessionKey.RefusedExactly | packages/client/src/caller-context.ts:73-88 | which contexts fit neither version of the schema |
| SessionKey.ProjectExactly | packages/client/src/caller-context.ts:106-122 | two attestations project alike if and only if issuer, subject, method, assurance, provider and workspace agree; a platform that says nothing counts as none |
| FileDelivery.CallerFileDelivery.Send | packages/client/src/caller-file-delivery.ts:91-128 | an attachment is delivered if and only if count, sizes and encoding allow it, and its text decodes to the bytes read; a read that did not end cleanly stops all further reads |
| FileDelivery.Base64Decodes | packages/client/src/caller-file-delivery.ts:115 | a decoder over the alphabet of section 4 of RFC 4648 gives back the bytes |
| FileDelivery.PendingBytesExactly | packages/client/src/caller-file-delivery.ts:19-38 | which configurations are refused, and the byte limit of every other: never under 4 MiB, else a full share for each execution |
| FileDelivery.DeliveriesFit | packages/client/src/caller-file-delivery.ts:23-32 | whatever a task may deliver fits, in base64, in the configured bound, padding paid file by file |
| FileDelivery.BatchesNeverOverflow | packages/client/src/caller-file-delivery.ts:19-38 | with the byte limit the configuration asks for, executions within their allowance never trip the client's byte overflow |

## Left out

- Legacy frames without an execution id, and retention limits of 0: the code gives up replay there.
- Timers, jitter and the wall clock: a timer is a step that may happen at any moment with any clock reading; acknowledgements may arrive late or never.
- ReplayClient.ReplayClient.OnHelloAck: the approval and scope flags it also stores.
- ReplayClient.ReplayClient.OnCancel: what the backend does once its signal is aborted is any further emission.
- ReplaySpec.Emit: a frame's size and its text are independent inputs, so a failure frame's size is any number.
- ReplayGaps.NeverGapsExactly: stated for limits that retain at least one frame and three bytes, which its counterexamples need; the safety lemmas hold for all limits.
- ReplayFailures.FailuresAreNextExactly: stated for limits that retain at least one frame and two bytes, for the same reason; `FailureNeverRepeats` holds for all limits.
- ReplayEmissions.EmissionGapExactly: for a client that was not stopped and an execution whose last frame is not already at the bridge or on the socket; the bridge ignores it afterwards.
- Real Docker, SQLite, WebSocket and file calls: each is an atomic step with any outcome; SQLite commits and renames are atomic and durable.
- The owner lock and its guard directory (packages/client/src/caller-runtime-store.ts:77-160): a guard left by a crash must be removed by hand before the state can be opened again.
- Container validation details (labels, mounts, capabilities): one boolean before the start of a container, `validated`, and one after it, `stillValid`.
- SHA-256 and UUIDs: identifiers are given and fresh; scope ids are the digests of their principals.
- The modules HelperJournal, Slots, ManifestFence and ScopeLeases are state machines over values, and so is ExecutionSteps, the specification of `Execution`: their subject is how asynchronous steps interleave, which a single method body cannot show. Update in place is shown by `CallerStorage`, `Allocation`, `StateStore`, `Execution` and `CallerExecutionScheduler`.
- Allocation.CallerScope.AcquireContainer: Docker commands end before or after taking effect but not later; late starts are the subject of `Slots`. Context containers and shared volumes of the scope are not in it.
- Allocation.CallerScope.Initialize: the daemon's start; offline validation, context containers and the images of the pool are not in it.
- Allocation.CallerScope.Remove: the removal of the scope's context containers.
- Slots: the supervisor inside a container, and reads of containers by name, are not modelled.
- StateStore.CallerRuntimeStore.Reserve: the binding of a principal to a legacy row is in `Allocation`.
- StorageCatalog.StorageManager.RunStorageManager: `ensureStorageAlias` and its race with udev, mounts and loop devices are outcomes of one step; between calls somebody else may add, resize or format images, not change the catalog.
- ProcessTree: sending signals, the relay's pipes and the time limit; each child list is read atomically, and the supervisor forks nothing after its start.
- Execution: log texts and failure messages; the failure codes are modelled. Emitting, stopping and closing do not throw, and every awaited operation ends. Which frames a worker says is any sequence at any await.
- SessionKey: the rendered prompt block, and schema defaults that do not concern identity.
- FileDelivery: MIME types, artifact ids, and the reader that runs in the container.
- Command line, configuration merging, setup, login, upgrade, admin pages, telemetry, authentication brokers, `daemon-control.ts`, `failure-code.ts`, the server's API and its database policies are not part of this model.
