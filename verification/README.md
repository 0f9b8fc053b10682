# A model of the io_uring event manager

The library runs C++20 coroutines over one io_uring instance. This project models its event
loop, its coroutines and the objects they share, and proves what the library is for: a
completion resumes the one coroutine that waits for it, with the result of its own request;
nothing is delivered twice or lost; and `kill()` drains the ring and then ends.

To check the project, run `dafny verify dfyconfig.toml` with Dafny 4.11, with a resource limit of
2000000 or more (`--resource-limit 2000000`).

## How it is modelled

`Machine` is the event manager as a state machine. A step is a stretch of the library's own
code between two points where control passes to someone else: the kernel, the body of a
coroutine, the main program. The C++ call stack is part of the state, so that a resumption
nested inside `await_suspend`, `final_suspend` or `register_coro` is a step like any other;
coroutines interleave, await each other, register tasks and submit more work from inside the
event handler in any order. The kernel completes the entries that it holds in any order.

A run of the code is `Possible` if each step is enabled where it is taken. It is `Legal` if
moreover no insertion into the store assigns over a task that has not finished: such an
assignment destroys a coroutine's frame (its status is `Destroyed`) while its requests stay in
the ring. `Arises` says that some possible run leads to a state, `Reachable` that some legal one
does. `Inv` is the invariant of all reachable states, made of these parts:

- `Scheduling`: the status of each coroutine, the frames on the stack, who awaits whom;
- `Accounting`: the in-flight counter and the kill task;
- `Placement`: where each request's data is, from its submission until it is deleted;
- `Waiting`: which requests are outstanding for which coroutine;
- `Polling`: the poller and its handle;
- `Slots`: the slot indices that tasks and requests record.

`Invariant` puts them together. Results about all reachable states and all legal runs are in
`Delivery` and `Handlings` (who is resumed, and the life of a request), `Awaiting` and `Returns`
(tasks that await tasks), `KillProtocol` and `PollOrder`. `Ledger` tells from the moves of a run
alone which requests are made, for whom and with which parameters, what the kernel answers to
each, and in which order its answers are taken up; `Results` follows each of them from the call
that asks for it, through the kernel, to whoever gets its result, and counts the responses that a
coroutine or a batch is owed; `Calls` has how calls nest; `Progress` what can always happen next.
When a run is legal is the subject of `SlotSharing` and `SlotRecords`: a run is legal if no freed
slot ever holds a live task, and when that is so is traced back exactly to who made which request
when. `Storing` is about what an insertion moves, `Eviction` about what an insertion over a live
task leads to. `EvictionFindings`, `StoreFindings` and `OrderFindings` give runs for what is not
guaranteed, put together from the stretches in `Findings`.

Beside the machine, `EventLoop` has the manager's side of the submission queue as an object,
with its 32-bit counters, submissions that fail or take only part, and the loops that repeat
them; `KillFailure` what follows when those fail. `BatchSubmission` is `submit_and_wait` alone
on the ring with such submissions; `Tasks` the ownership of a `TaskStatus` by an `EvTask` and the
pointer to it in the promise, as objects; `Channel` the communication channel and the awaitable
operation; `SlotStore` the `ItemStore`; `RingCount` the static fields.

## Assumptions

- Every entry that the kernel takes completes once, and `io_uring_wait_cqe` succeeds.
- In the machine every submission takes all that is queued. (`EventLoop` and
  `BatchSubmission` also have failing and partial ones.)
- An awaitable operation gets its entry, fills it and submits it without interruption, and is
  not issued to a manager that is dying: the refused path builds it with a null manager.
- What the event handler reads of the task after resuming it is an input of the step
  (`done`), which may be true only if that coroutine has finished.
- What follows once code runs in, or resumes, a destroyed frame is undefined in C++; the model
  shows that it comes to that, and goes on as if the memory were unchanged.

## What the code does not do

- The error byte of a failed operation is not the errno but its negation cut to a byte,
  although README.md, "Errors", offers it as the error (`Channel.StoredErrnoIs128Only`).
- The slot of a task that is still suspended can be freed, although README.md promises that a
  coroutine is cleaned up once *it* finishes. A request made before its coroutine was stored, by
  a coroutine that is never stored, by a batch or without an awaitable records slot 0, and when
  its completion finishes a coroutine, slot 0 is freed whoever is in it
  (`SlotRecords.StepFreesEmptySlotIff`, `EvictionFindings.LiveSlotIsFreed`). The next registration
  then assigns over the live task and destroys its frame. If the task was waiting for a
  completion of its own, was a parked poller, or awaited another task, the library still holds
  its handle, and resumes the destroyed coroutine when that completes, when a non-awaitable
  request is ready, or when the child returns; if it was running or returning, the library goes
  on in its frame at once (`Eviction.HandleOfDestroyedIff`, `Eviction.GoesOnDestroyedIff`,
  `EvictionFindings.DestroyedIsResumed`, `EvictionFindings.DestroyedPollerIsResumed`,
  `EvictionFindings.DestroyedParentIsResumed`). None of this happens as long as no coroutine
  finishes in the handling of a request of its own that it had not made through an awaitable
  when it was stored (`SlotRecords.CarefulCallersLoseNoTask`).
- A task that finishes while `register_coro` starts it is moved into the store although its
  promise is gone, and so is any finished task that was not freed when the vector relocates its
  items. Freed is only a task that finishes as the coroutine whose completion is being handled,
  its request having been made when it was stored (or slot 0 in place of another): not a parent
  that finishes inside its child's `final_suspend` (`Storing.FinishedIsFreedIff`,
  `Storing.InsertionAfterRunIff`, `StoreFindings.FinishedTaskIsInserted`,
  `StoreFindings.FinishedTaskIsRelocated`, `StoreFindings.ParentIsRelocated`).
- An awaiter that assigns over the task that resumes it destroys the frame of a coroutine that
  is returning, and `final_suspend` then writes to a released status
  (`Tasks.AwaiterAssignsOverTask`).
- A kill begun before `start` never completes: `start` refuses a manager that is dying, and
  only `start` sees completions. The description at event_loop/core.cpp:90-104 does not exclude
  it (`OrderFindings.KilledBeforeStart`, `KillProtocol.KilledOutsideNeverDies`).
- A kill whose flush does not succeed within its tries returns an error and leaves the manager
  dying; the next completion makes the loop resume the kill task, which has returned
  (`EventLoop.KillFailsIff`, `EventLoop.ZerosFail`, `KillFailure.StuckKillIsResumed`).
- A second await of a task that has not finished displaces the first awaiter, and an await of a
  task that is just resuming its awaiter is lost; either then waits for ever
  (`Awaiting.SecondAwaitDisplaces`, `Awaiting.AwaitOfReturningIsLost`,
  `OrderFindings.AwaiterIsDisplaced`). A second call of `kill()` is such an await.
- The loop waits for a completion even while the ready store holds requests for a parked poller:
  with nothing in flight it blocks for ever (`KillProtocol.BlockedExactlyWhenIdle`,
  `OrderFindings.PollingBlocks`).
- The ready store is popped from the back, so a poller that finds more than one request in it
  gets the newest first (`PollOrder.DispatchTakesOldest`, `OrderFindings.NewestIsPolledFirst`).
- The shared ring descriptor may be that of a ring already closed, or of one that was given the
  number again (`RingCount.SharedIsLiveIff`, `RingCount.SharedOutlivesItsRing`,
  `RingCount.SharedIsReused`).

## Model

| member | source | states |
|---|---|---|
| `Invariant.InvStep` | event_loop/core.cpp:33-363 | after any step of the kernel, the callers' code or the library but an insertion that assigns over an unfinished task, all parts of the invariant still hold |
| `Invariant.ReachableInv` | event_loop/core.cpp:18-58 | so they hold after every run without such an insertion |
| `Results.ResultReachesAsker` | event_loop/core.cpp:44-49 | over any run: the completion that the loop takes up is that of one operation asked for in the run; the coroutine that asked is suspended for it and is given the tag and parameters of its own call with the result of the kernel's one answer to it; one that nobody waits for becomes ready behind the others |
| `Results.ResultReachesPoller` | event_loop/core.cpp:34-38 | over any run: what a dispatch gives the poller is a request that nobody waits for, not handed over before, with its own parameters and the result of the kernel's one answer to it |
| `Results.AnsweredOnce` | event_loop/core.cpp:44-52 | over any run: a request that has left the kernel is the one asked for at that place in the order of requests, and its result is that of its one completion |
| `Results.AwaitIoAsks` | coroutine/io_awaitables.hpp:46-63 | an awaitable operation with room in the ring makes one request with its own parameters, type and coroutine, adds that entry alone, and suspends the coroutine for just that; without room nothing changes |
| `Results.SubmitNaAsks` | event_loop/io_ops.cpp:308-333 | a non-awaitable one with room makes one dynamic request with its own parameters and no coroutine, and leaves all coroutines alone; without room nothing changes |
| `Results.BatchMakesItsRequests` | event_loop/io_ops.cpp:262-284 | a batch of n makes min(n, room) requests, none for a dying manager: its first ones, in order, each with its own parameters, type and the batch's handle, all handed to the kernel |
| `Results.BatchReturnsAnswered` | event_loop/io_ops.cpp:262-306 | in any run after that it is given at most that many responses, and it has returned, with 0, exactly if it was given all of them and its handler is not running |
| `Results.RequestsBalance` | event_loop/core.cpp:41-52 | over any run the responses given to a coroutine and the requests still outstanding for it add up to those it had and those made for it |
| `Results.CoroutinesAreThoseCalled` | coroutine/task.cpp:3-9 | over any run the coroutines are those of the calls made, each running the function called with its arguments |
| `Ledger.StepMakes` | event_loop/core.cpp:332-363 | every step adds to the ring and the request data just what is asked for and there is room for, with its own parameters, type and asker; other requests change only by the result that the kernel gives; entries move from queue to kernel to completions in order |
| `Ledger.PoolRun` | event_loop/core.cpp:173-330 | so over any run the request data are those asked for, in order, with the results last given |
| `Ledger.CompletedOnceFrom` | event_loop/core.cpp:41-52 | a request made in a run is with the kernel or has been completed, and only once |
| `Ledger.TakenUpInOrder` | event_loop/core.cpp:41-52 | over any run the completions are taken up in the order in which the kernel makes them, none skipped or repeated |
| `Ledger.ArriveInOrder` | event_loop/core.cpp:179-182 | and those of non-awaitable requests become ready in that order |
| `Invariant.DeliverySafe` | event_loop/core.cpp:173-330 | from such a state the loop never resumes a running, finished or destroyed coroutine: whatever it resumes is parked for just that |
| `Delivery.OutstandingRequests` | coroutine/io_awaitables.hpp:46-63 | a coroutine parked on an awaitable operation has one request outstanding, with the parameters that it is parked for; one in `submit_and_wait` those submitted and not yet answered; everybody else none |
| `Delivery.ResumesTheWaiter` | event_loop/core.cpp:173-330 | a completion with a handle resumes a coroutine suspended for it, its response in its channel, takes exactly that request off its account and leaves all others alone |
| `Delivery.AwaitableGetsItsResult` | coroutine/io_awaitables.hpp:65-88 | the coroutine then consumes the response to its own request, with the result of its completion, never a channel failure, and an operation error exactly for a negative result |
| `Delivery.BatchEndsAnswered` | event_loop/io_ops.cpp:296-305 | after each response a batch with one outstanding waits for it; one with none returns 0 |
| `Delivery.CompletionsAreHandled` | event_loop/core.cpp:33-58 | there is no completion that the loop cannot handle |
| `Handlings.TakenUpOnce` | event_loop/core.cpp:41-52 | over any run a request that is made stays in the ring, once, until its completion is taken up, once, to be delivered or stored as ready |
| `Delivery.InFlightConserved` | event_loop/core.cpp:51-52 | the counter is what the kernel holds and what is completed but unseen, so its decrement never wraps |
| `Delivery.InFlightChange` | event_loop/core.cpp:340-348 | each step changes it by the requests it makes and the entry of a kill it begins, less the completion it marks seen; a dying or dead manager submits nothing |
| `Delivery.RestrictedCall` | event_loop/core.cpp:332-338 | nothing that callers do to a dying manager touches the ring |
| `Delivery.OnePlaceOnly` | event_loop/io_ops.cpp:308-333 | data of a non-awaitable request are in exactly one of ring, ready store, poller's hands, freed, and were handed to the poller at most once |
| `Delivery.FreedOnce` | event_loop/core.cpp:327-329 | they are freed once, right after their one delivery |
| `Delivery.LeftAtDeath` | event_loop/core.cpp:179-182 | at death those never freed are those left in the ready store |
| `Delivery.ErasedSlotInRange` | event_loop/core.cpp:322-325 | every index freed lies within the store |
| `Awaiting.AwaiterStep` | coroutine/task.cpp:136-158 | a waiting awaiter goes on waiting, or is resumed with its child over and the child's return code |
| `Awaiting.AwaitAttaches` | coroutine/task.cpp:136-151 | a `co_await` of a task leaves the awaiter waiting and attached to it |
| `Awaiting.AttachedStep` | coroutine/task.cpp:136-151 | a step detaches an awaiter without resuming it exactly if it records another awaiter over it in the unfinished child, or records it in a child that is resuming its awaiter; one not attached is not resumed |
| `Awaiting.AwaiterResumedOnce` | coroutine/task.cpp:11-26 | over any run and any nesting an awaiter waits attached until its child resumes it with its value, exactly if no step detaches it before |
| `Returns.ReturnsOnce` | coroutine/task.cpp:11-26 | in any run a task returns at most once: exactly if it had not before and has at the end, so that it resumes an awaiter at most once |
| `Returns.EachAwaitAnsweredOnce` | coroutine/task.cpp:97-158 | in any run the awaits of a child by a coroutine and its resumptions by it balance: each await is answered at most once |
| `Returns.CodeIsKept` | coroutine/task.cpp:22-26 | over any run a task's return code is what its own `co_return` gave, or what its batch, poll or kill returns, and its function and arguments are unchanged |
| `Awaiting.ReturnResumes` | coroutine/task.cpp:11-26 | a `co_return` resumes its awaiter in the same step with the value returned, and nobody else |
| `Awaiting.SecondAwaitDisplaces` | coroutine/task.cpp:148-150 | a second await of an unfinished task detaches the first awaiter |
| `Awaiting.AwaitOfReturningIsLost` | coroutine/task.cpp:11-20 | an await recorded in a task that is resuming its awaiter leaves the new awaiter waiting and detached |
| `Awaiting.DisplacedAwaiterIsLost` | coroutine/task.cpp:148-150 | which then waits in every continuation |
| `OrderFindings.AwaiterIsDisplaced` | coroutine/task.cpp:148-150 | a reachable run in which that happens, for all continuations |
| `KillProtocol.KillCannotFinishAtOnce` | event_loop/core.cpp:138-154 | the call that starts the kill ends with the kill task parked and its own cancel counted |
| `KillProtocol.DrainStep` | event_loop/core.cpp:90-104 | a dying manager does not come back, and its counter falls by one for each completion seen and never rises |
| `KillProtocol.DrainRun` | event_loop/core.cpp:90-104 | over any run, what was in flight is what has been seen since and what still is |
| `KillProtocol.DeadExactlyWhenDrained` | event_loop/core.cpp:151-156 | a manager killed inside its loop is dead, whenever no coroutine runs, exactly if as many completions were seen since as were in flight |
| `KillProtocol.DrainTerminates` | event_loop/core.cpp:28-30 | the loop of a dying manager makes at most six moves per request in flight and six more |
| `KillProtocol.DrainNeverBlocks` | event_loop/core.cpp:41-42 | it is never stuck waiting for a completion |
| `KillProtocol.DrainEndsDead` | event_loop/core.cpp:28-57 | so any run of a manager killed inside its loop makes a bounded number of loop moves, and where no coroutine runs and neither kernel nor loop can move, the loop has been left and the manager is dead with nothing in flight |
| `KillProtocol.BlockedExactlyWhenIdle` | event_loop/core.cpp:33-42 | a waiting loop is stuck exactly when nothing is in flight, whatever the ready store holds |
| `OrderFindings.PollingBlocks` | event_loop/core.cpp:33-42 | a reachable run that ends so with a request ready and the poller parked |
| `KillProtocol.DeadMeansDrained` | event_loop/core.cpp:151-158 | a dead manager's queues and kernel are empty and nobody is parked on an operation or a batch |
| `KillProtocol.KillReturnsZero` | event_loop/core.cpp:151-166 | a dying manager dies exactly in the kill task's step with nothing in flight, which returns 0 |
| `KillProtocol.StartEndsDead` | event_loop/core.cpp:28-31 | the loop of `start` ends exactly at its next turn after the manager's death |
| `KillProtocol.KillCallerContinuesDead` | event_loop/core.cpp:169-171 | whoever awaits the kill task continues only once the manager is dead |
| `KillProtocol.KillReturnsToCallerDead` | event_loop/core.cpp:169-171 | a caller that awaits a coroutine in `kill()` goes on waiting, in any run, until the manager is dead |
| `KillProtocol.KilledOutsideNeverDies` | event_loop/core.cpp:18-25 | a kill begun outside the loop leaves the manager dying in every continuation |
| `OrderFindings.KilledBeforeStart` | event_loop/core.cpp:18-31 | a reachable run that leaves the manager dying before `start`, for all continuations |
| `Calls.CallsNest` | coroutine/task.cpp:11-26 | a step ends no call but the innermost one, and only the steps that suspend or return do; the calls it begins are those of the coroutines it starts, of the awaiter of one that returns, and of the one that the loop resumes |
| `Calls.RegistrationsBalance` | event_loop/core.cpp:350-357 | over any run each `register_coro` of a task inserts it once, unless it is still starting it, and nothing else does |
| `Calls.StoredExactlyIfRegistered` | event_loop/core.cpp:350-357 | a task is registered at most once, and is in the store exactly if it was and the call has come back, finished or not, in the slot that it was given then |
| `Progress.FailedRingStaysDead` | event_loop/core.cpp:64-85 | a manager whose ring was not set up is dead and outside its loop after any possible run, its ring empty and no request ever made |
| `Progress.NewManagerStarts` | event_loop/core.cpp:60-88 | one whose ring was can be started, and gives as many entries as it was constructed with |
| `Progress.StartEntersLoop` | event_loop/core.cpp:18-29 | `start` enters its loop exactly if the manager is not started, dying or dead, and changes nothing otherwise |
| `Progress.KernelIsFree` | event_loop/core.cpp:41-42 | the kernel may complete anything that it holds next, with any result |
| `Progress.CoroutineIsFree` | coroutine/task.cpp:136-151 | a running coroutine may return any code, await any task, and ask for any operation of a manager not dying or dead |
| `Progress.CallersAreFree` | event_loop/core.cpp:350-357 | whichever caller's code runs may submit any non-awaitable operation, call any coroutine function, and register exactly the tasks not stored or being stored |
| `Progress.LibraryGoesOn` | event_loop/io_ops.cpp:262-306 | the library's own coroutines and calls on the stack can always go on, whatever handlers answer; an insertion takes any freed slot, or the next one if there is none |
| `Progress.LoopGoesOn` | event_loop/core.cpp:28-58 | the loop can always go on, but for a wait without a completion |
| `Progress.TurnsSeeOne` | event_loop/core.cpp:33-58 | over any run each turn of the loop takes up one completion and marks one seen |
| `Progress.TurnEndsWithKill` | event_loop/core.cpp:53-57 | a turn ends by resuming the kill task, which is parked for that, exactly if the manager is dying |
| `Progress.StoredHaveStarted` | event_loop/core.cpp:350-357 | a task in the store has been started |
| `PollOrder.PollerIsParked` | event_loop/io_ops.cpp:507-525 | while somebody polls and no coroutine runs, the poller is parked and its handle known |
| `PollOrder.OnlyOnePolls` | event_loop/io_ops.cpp:507-516 | a poll is refused exactly while another one goes on, and parks otherwise |
| `PollOrder.DispatchResumesPoller` | event_loop/core.cpp:34-38 | a dispatch resumes the parked poller with the response to the last ready request, records that as handed over last, and clears the handle |
| `PollOrder.ReadyInArrivalOrder` | event_loop/core.cpp:179-182 | the ready store holds some of the requests that have arrived, in their order |
| `PollOrder.ReadyStoreBounded` | event_loop/core.cpp:33-39 | while polling goes on from a loop head with k ready requests there are never more than max(k, 1) at one |
| `PollOrder.PolledInCompletionOrder` | event_loop/core.cpp:179-182 | a poller that finds at most one request ready at a loop head gets it and then those that arrive in order of completion, each once |
| `PollOrder.DispatchTakesOldest` | event_loop/core.cpp:34-38 | a dispatch takes the oldest ready request exactly if it is the only one |
| `OrderFindings.NewestIsPolledFirst` | event_loop/core.cpp:34-38 | a reachable dispatch that hands over the newer of two |
| `SlotRecords.RecordedSlot` | coroutine/io_awaitables.hpp:50-51 | an awaitable request records its coroutine's slot, or 0 if that is not stored yet |
| `SlotRecords.StepFreesEmptySlotIff` | event_loop/core.cpp:319-325 | after any run that has freed harmlessly, the next step keeps live tasks out of the freed slots exactly if the request whose completion finished a coroutine was made through an awaitable when that coroutine was stored, or slot 0 holds no live task; for every kind of request |
| `SlotRecords.FreedSlotsAreEmptyIff` | event_loop/core.cpp:319-357 | over any possible run, no freed slot ever holds a live task exactly if every step frees so; then no insertion assigns over one |
| `SlotRecords.CarefulCallersLoseNoTask` | event_loop/core.cpp:350-357 | if no coroutine finishes in the handling of a request of its own that it had not made through an awaitable when stored, every possible run is legal; first requests, children, batches and polls may be used freely otherwise |
| `Eviction.HandleHeldIff` | event_loop/core.cpp:33-38 | the handles that the library holds, in requests still to be handled, as the polling handle and in tasks awaited, are those of just the coroutines suspended for an operation, a batch, a poll or another task that has not lost hold of them, and of batches with responses to come |
| `Eviction.HandleOfDestroyedIff` | coroutine/task.cpp:57-79 | after an insertion the library holds the handle of a destroyed coroutine exactly if the freed slot that it took held an unfinished task suspended for one of these |
| `Eviction.GoesOnDestroyedIff` | coroutine/task.cpp:57-79 | it goes on in a destroyed frame, by a handle or because the frame is on its call stack, exactly if that task was suspended so, running or returning |
| `Storing.UnfreedChange` | event_loop/event_manager.hpp:29-48 | a step leaves a finished task in the store, unfreed, only where one finishes or is inserted finished, and takes one away only by freeing its slot |
| `Storing.FinishedIsFreedIff` | event_loop/core.cpp:319-325 | a stored task that finishes while a completion is handled is freed at its end exactly if it is the coroutine resumed, seen to be done, and had made the request when stored, or the request was not made so and its slot is 0 |
| `Storing.InsertDefinedIff` | event_loop/event_manager.hpp:29-40 | all insertions that may follow move only unfinished tasks and assign over finished ones exactly if the new task has not finished and, where it appends to a full vector, all finished ones in it are freed, or, where it reuses a slot, only they |
| `Storing.InsertionAfterRunIff` | event_loop/event_manager.hpp:29-40 | over any run that has freed harmlessly: exactly if the new task has not finished and, if it appends to a full vector, every task that finished in the store has been freed |
| `EvictionFindings.LiveSlotIsFreed` | event_loop/core.cpp:319-357 | whatever task is in slot 0 before `start`, a continuation in which two more tasks are stored and its slot is freed |
| `EvictionFindings.LiveTaskIsDestroyed` | event_loop/event_manager.hpp:29-40 | and one in which an insertion destroys it; the library keeps its handle exactly if it was waited for |
| `EvictionFindings.DestroyedIsResumed` | event_loop/core.cpp:173-330 | and in which the loop then resumes it by its own completion |
| `EvictionFindings.DestroyedPollerIsResumed` | event_loop/core.cpp:34-38 | or, if it is a poll, with a request that is ready |
| `EvictionFindings.DestroyedParentIsResumed` | coroutine/task.cpp:11-20 | or, if it awaits a child, by the child that returns |
| `StoreFindings.FinishedTaskIsInserted` | event_loop/core.cpp:350-357 | a reachable run in which a task that finished while it was registered is inserted |
| `StoreFindings.FinishedTaskIsRelocated` | event_loop/event_manager.hpp:35-38 | and then relocated by growth |
| `StoreFindings.ParentIsRelocated` | coroutine/task.cpp:11-20 | a reachable run in which a stored task that finished inside its child's `final_suspend` is never freed, and relocated |
| `EventLoop.CounterDifference` | event_loop/core.cpp:116 | the difference of the 32-bit queue counters is the number queued although they wrap |
| `EventLoop.EventManager.SubmitQueuedEntries` | event_loop/core.cpp:340-348 | what is taken is counted as in flight; an error or nothing taken changes no counter |
| `EventLoop.EventManager.GetUringSqe` | event_loop/core.cpp:359-363 | an entry is given exactly to a manager not dying or dead with room in its queue |
| `EventLoop.TakenIsOffered` | event_loop/core.cpp:114-118 | so many tries take all that is queued exactly if that much is offered, else what is offered |
| `EventLoop.EventManager.Flush` | event_loop/core.cpp:115-118 | the loop takes exactly what its tries do, whatever fails or takes nothing on the way, and uses that many submissions |
| `EventLoop.EventManager.CancelAll` | event_loop/core.cpp:114-149 | it succeeds exactly if the tries of the first flush offer to take the queue and those of the second the cancel entry; and what is queued and taken either way |
| `EventLoop.EventManager.BeginKill` | event_loop/core.cpp:105-149 | a second kill changes nothing; a first one leaves the manager dying, with that outcome |
| `EventLoop.KillFailsIff` | event_loop/core.cpp:140-149 | with nothing queued before, the kill fails exactly if none of the next tries takes anything |
| `EventLoop.ZerosFail` | event_loop/core.cpp:140-149 | such a sequence of submissions |
| `EventLoop.MachineKillFlushes` | event_loop/core.cpp:112-143 | the machine's kill is the one whose flushes succeed |
| `KillFailure.StuckKillIsResumed` | event_loop/core.cpp:53-57 | after a kill whose flushes failed, whatever else runs, the next completion seen makes the loop resume the kill task, which has returned |
| `EventLoop.EventManager.FillBatch` | event_loop/io_ops.cpp:273-277 | the requests of a batch that get entries are its first ones, as many as there is room for |
| `BatchSubmission.Manager.SubmitAndWait` | event_loop/io_ops.cpp:262-306 | with failing and partial submissions and any completion order: 0 and each of the first min(n, C) requests answered once with its own result, or an error: that of the submission at the start, with nothing done, or that of the first one that fails while any is queued, with just those answered that were taken before, none in flight and the rest queued |
| `BatchSubmission.FailsExactlyIf` | event_loop/io_ops.cpp:286-304 | a series of submissions ends in an error exactly if one fails before which fewer were offered to be taken than are queued: its code is that one's, and what was taken is what was offered |
| `BatchSubmission.Manager.ProcessRequest` | event_loop/io_ops.cpp:103-260 | the entry is filled with the request's own type and parameters, or nothing changes |
| `BatchSubmission.Manager.SubmitSome` | event_loop/io_ops.cpp:286-294 | the count of queued requests is that of the ring throughout and never wraps |
| `BatchSubmission.Manager.AnswerSubmitted` | event_loop/io_ops.cpp:296-300 | one response for each request submitted, whichever completes first |
| `BatchSubmission.Manager.NextResponse` | event_loop/event_manager.hpp:72-83 | the channel then holds the response of one of the submitted requests |
| `BatchSubmission.AnswersPermute` | event_loop/io_ops.cpp:296-300 | the answers are the same in whatever order the requests complete |
| `Tasks.Program.OneOwner` | coroutine/task.cpp:39-79 | a live promise points at no status or at that of the one live task that owns it, which has not finished |
| `Tasks.Program.CoReturn` | coroutine/task.cpp:22-26 | the return code goes to the status the promise points at, a released one exactly if the frame was destroyed under the running coroutine |
| `Tasks.Program.Finish` | coroutine/task.cpp:16-20 | whatever the awaiter did, `final_suspend` writes to a released status exactly if the task was assigned over while its coroutine was running or returning |
| `Tasks.EvTask.constructor` | coroutine/task.cpp:39-44 | a new task owns a new status that its promise points at |
| `Tasks.EvTask.Move` | coroutine/task.cpp:46-55 | a move hands over handle, status and the promise's pointer, and leaves nothing behind; it writes to a promise that is gone exactly if the task has finished |
| `Tasks.EvTask.Assign` | coroutine/task.cpp:57-79 | a move assignment does so too, releases the status assigned over and destroys the frame of an unfinished task, cutting it off from its coroutine if that is running or returning |
| `Tasks.EvTask.Destroy` | coroutine/task.cpp:160-163 | the destructor releases the status and leaves an unfinished promise pointing nowhere |
| `Tasks.EvTask.StartBegins` | coroutine/task.cpp:97-108 | a task is resumed by `start` once |
| `Tasks.EvTask.AwaitSuspend` | coroutine/task.cpp:142-150 | the awaiter continues at once exactly if the frame is gone, else it is recorded |
| `Tasks.EvTask.AwaitResume` | coroutine/task.cpp:153-158 | the value is what the coroutine returned |
| `Tasks.EvTask.SetMetadata` | coroutine/task.cpp:81-88 | it fails exactly on a task without handle, and writes to a promise that is gone exactly if the task has finished |
| `Tasks.ReturnsWhileStarted` | coroutine/task.cpp:97-115 | a coroutine that returns while it is started gives no channel, and its result can be had |
| `Tasks.AwaiterDestroysTask` | coroutine/task.cpp:11-20 | an awaiter that destroys the task during `final_suspend` leaves no status to write |
| `Tasks.AwaiterTakesResult` | coroutine/task.cpp:11-26 | one that does not gets the value before the task is marked done |
| `Tasks.AwaiterAssignsOverTask` | coroutine/task.cpp:57-79 | an awaiter that assigns over the task makes `final_suspend` mark a released status done |
| `Channel.ResultOfOwnRequest` | coroutine/io_awaitables.hpp:65-88 | tag, parameters, published and consumed alternative agree for every request and result: no channel failure, an operation error exactly for a negative result, its number the negated result |
| `Channel.PackCarriesRequest` | event_loop/core.cpp:197-317 | for each of the twelve types, every field of the response in terms of the request's parameters and the result: which descriptor, how much was read or written, and for a vectored read its first buffer exactly if it succeeded with any |
| `Channel.WrongTypeIsAFailure` | communication/communication_channel.hpp:21-30 | a response answers consumption of its own type and no other |
| `Channel.StoredErrnoIs128Only` | coroutine/io_awaitables.hpp:82-85 | the error byte is 256 less the errno, so it is the errno for 128 alone |
| `Channel.CommunicationChannel.Publish` | communication/communication_channel.hpp:13-18 | whatever was held is replaced |
| `Channel.CommunicationChannel.Consume` | communication/communication_channel.hpp:20-30 | a value of the right type is given once; another stays |
| `Channel.IOAwaitable.constructor` | coroutine/io_awaitables.hpp:90-96 | the request has the type of the union member filled, and an error exactly if there was no entry |
| `Channel.IOAwaitable.AwaitSuspend` | coroutine/io_awaitables.hpp:46-63 | handle, metadata and channel are recorded; a submission that takes nothing resumes at once with its error |
| `Channel.IOAwaitable.AwaitResume` | coroutine/io_awaitables.hpp:65-88 | an error there already, or the result of the channel, which is empty afterwards if it held one of the type; otherwise it is left alone |
| `SlotStore.ItemStore.Insert` | event_loop/event_manager.hpp:29-40 | the item goes to an index that was not live, whichever freed one is taken, and nothing else changes |
| `SlotStore.ItemStore.Erase` | event_loop/event_manager.hpp:46-48 | the index is not live any more; the store stays in order exactly for indices it has |
| `SlotStore.ItemStore.Get` | event_loop/event_manager.hpp:42-44 | the live item at the index |
| `SlotStore.RunIsMapRun` | event_loop/event_manager.hpp:21-49 | over any run the store is a map |
| `SlotStore.LookupGivesLast` | event_loop/event_manager.hpp:21-49 | an index is live exactly if last inserted at, and gives that item; live and freed indices partition the vector's |
| `SlotStore.SizeIsPeak` | event_loop/event_manager.hpp:29-40 | the vector is as long as the number of items ever live at once |
| `RingCount.CountRun` | event_loop/core.cpp:60-88 | over any constructions and kills the count is that of live rings, zero exactly when there is none to attach to |
| `RingCount.LiveRings` | event_loop/core.cpp:60-88 | after any events a manager's ring is live exactly if it was constructed, successfully, and has not completed its kill, with the descriptor it was then given |
| `RingCount.CountStep` | event_loop/core.cpp:156-164 | and its decrement never wraps |
| `RingCount.FailureCountsNothing` | event_loop/core.cpp:64-85 | a construction counts exactly if it succeeds |
| `RingCount.SharedIsLiveIff` | event_loop/core.cpp:60-88 | after any events that leave a ring alive, the shared descriptor is a live ring's exactly if the manager that set it, the last one constructed while there was none, has not completed its kill, or a ring made while another one lived was given the same number and is alive |
| `RingCount.SharedIsSettersIff` | event_loop/core.cpp:60-88 | where no ring made while another one lives gets that number, only the former |
| `RingCount.SharedOutlivesItsRing` | event_loop/core.cpp:60-88 | a run in which it is that of a closed ring |
| `RingCount.SharedIsReused` | event_loop/core.cpp:60-88 | a run in which the number is a live ring's again, but not the setter's |
| `RingCount.Rings.ConstructManager` | event_loop/core.cpp:60-88 | whether the ring is new or attached, whose descriptor is shared afterwards, and a manager that is dead exactly if its ring could not be set up, else not started |
| `RingCount.Rings.CompleteKill` | event_loop/core.cpp:156-164 | the end of the kill task |

## Left out

- The kernel's side of io_uring and liburing, real files, sockets, buffers and paths: parameters are opaque values.
- A failed `io_uring_wait_cqe`, exceptions in coroutines, console output.
- A submission that fails after an entry was filled for an awaitable or a non-awaitable operation: the entry stays queued while its data are released. `Channel.IOAwaitable.AwaitSuspend` has only its effect on the awaitable.
- Awaitable operations on a dying or dead manager, which dereference a null manager.
- The twelve awaitables, the twelve non-awaitable operations and the queue's push functions one by one: they are one shape with a tag. What the non-awaitable ones return is the same for success and for a refusal.
- `submit_and_wait` while others have entries queued: it counts their submissions as its own. Batches begun on a dead manager, whose ring is gone.
- A `submit_and_wait` whose submissions go on taking nothing: it retries for ever; the model's submissions take everything after finitely many such tries.
- Return codes are unsigned 64-bit in the code, so that -1 is the largest; they are integers here.
- `EvTask::resume` with response data; the `coro_finished` pointer of a request, which nothing reads.
- BatchSubmission.Manager.SubmitAndWait: starts from an empty queue, as the sole user of the ring.
- `start`, `await_message`, `event_handler`, `register_coro` and `poll` are steps on values in `Machine`, not methods: each hands control to other code in its middle. Updates in place of the manager's fields are modelled in `EventLoop` only for its submission queue, its life state and its requests.
- What callers do directly with a task: `EvTask::start`, plain `EvTask::resume`, and destroying tasks, are not moves of the machine; `Tasks` has the first and the last.
- Invariant.InvStep: does not cover an insertion that assigns over an unfinished task, after which code runs in destroyed frames; SlotRecords.FreedSlotsAreEmptyIff says exactly when there is none.
- Tasks.EvTask.StartBegins: the coroutine runs between this and StartEnds; what it does there are operations of their own.
- The mutex and threads: constructions and kills of managers are serial.
- The errno enumeration, type traits, examples, tests and build files.
