# A verified model of cfutures

cfutures is a small C library of promises, futures and a pool of worker threads.
This project models it in three layers and proves what it guarantees, and where it
falls short of it.

**The objects** (`WorkQueue`, `Futures`, `FuturePools`, `Deadline`): the linked work
queue, the future with its callback list, the promise, the list of executors, as
classes that change in place. Each method is one critical section or one call made by
a single thread, and is proved against a function in `QueueModel` or `FutureModel`;
what callers rely on is then proved of those functions over whole histories of calls.

**One shared future** (`FutureMachine`): a transition system with any number of threads
that fulfil or reject one future, wait for it, get its value or add callbacks to it, as
often as they like, which is the public promise API. `FutureSafety` proves that it
refines the sequential future of `FutureModel`, that no wake-up is lost, when `future_get`
aborts, and what overlapping walks run; `FutureProgress` that it comes to rest and how;
`FutureRequests` that every call does what it was asked for, once.

**The pool** (`PoolMachine`): a transition system with any number of clients inside
`future_pool_execute`, any number of later `future_wait`, `future_get` and
`future_add_callback` calls, n workers and a destroyer. A step is the taking of a
mutex, the body or the release of a critical section, or one unlocked access, so
steps of different threads interleave at that grain. `PoolInvariant` says what every
reachable state satisfies; `StepFrames` says what each kind of step can touch, and
`LockSteps`, `ClosureSteps`, `CallSteps`, `WakeSteps` and `ShutdownSteps` prove that
each step keeps the invariant; the results are in `PoolSafety`, `PoolMemory`,
`PoolRefinement`, `PoolProgress`, `PoolRequests` and `PoolShutdown`, and four runs that end badly in
`PoolWitnesses`. The work queue of the machine is the same
`QueueModel` that the linked list is proved to implement.

The field `variant` picks the queue. `AsWritten` is the code. `Repaired` is the code
without src/queue.c:139-140; it is not in the repository, and results about it are
there to show what those two lines cost. A result that does not mention the variant
holds of both. In the same way `FreeThenRead` is the loop of `queue_destroy` as written
and `ReadThenFree` a repair of it.

## What the code does not do

* **The queue is not FIFO and loses items.** A pop that leaves one item clears `tail`
  (src/queue.c:139-140); an enqueue made then links the new item to nothing that `head`
  reaches, and the next pop forgets it. `FifoExactlyWhenNoLateEnqueue` gives the exact
  condition, `FifoFails` five calls that break it, `AClosureIsLost` a run of the whole
  pool, and `ResolvedExactlyWhenInTime` the consequence: a submission is answered if and
  only if the queue was not in that state when it was enqueued.
* **A promise can leak.** If the worker reads the head of the callback chain before the
  client has linked `cleanup_execute`, the promise is never freed
  (`PromiseFateIsSealed`; `APromiseLeaks` is such a run). It is never freed twice or used after it is freed.
* **A callback added too late never runs** (src/future.c:205-216 does not look at
  `is_resolved`), although include/future.h:65 promises a call on completion:
  `TheHeadReadDecides` and `RunsOncePerLaterResolution` say exactly which do run.
* **Destruction can abandon queued work.** A woken worker may act on its cancellation
  instead of looking at the queue, and then `queue_destroy` frees nodes whose closures
  never ran (`AShutdownAbandons`). `AfterShutdown` says which futures stay unresolved.
  `ShutdownServesTheQueue` says exactly which runs abandon nothing: those in which no worker
  acts on its cancellation while it alone is left and the queue is not empty.
  `TheCallDecides` says exactly when no run can: when, as `future_pool_destroy` is called,
  nothing is queued or some worker is neither asleep nor just woken. A caller who first
  waits for the futures it was given meets that (`WaitBeforeDestroying`).
* **`queue_destroy` reads `head->next` from the node it has just freed**
  (src/queue.c:85-86). This is the only use of freed memory in the pool, and a destruction
  commits it if and only if it finds something in the queue, that is, under the condition
  just given (`MemorySafe`, `DestructionIsCleanExactly`; `AShutdownReadsFreedMemory` is a
  run).
* **A popped node stays referred to.** `head->prev` of what is left still points to the node
  that `queue_pop` frees (src/queue.c:107, 138). Nothing reads `prev`, so it does no harm;
  `WorkQueue.Queue.Unlink` says that it is the only such pointer.

## Assumptions

Memory is sequentially consistent and allocation succeeds. Mutexes and condition
variables behave as POSIX.1-2017 says: a waiter releases the mutex and blocks in one
step, wakes signalled or spuriously, and must take the mutex again. Cancellation
follows section 2.9.5 of its System Interfaces volume: of the calls a worker makes only
`pthread_cond_wait` is a cancellation point; a worker already woken may act on a request
or go on; if it acts, its signal is not lost to the others. A closure's function is a
total function of its argument, reaches no cancellation point and takes no lock of the
pool. Nobody submits to a pool once its destruction has begun, and its destruction
begins when no client is inside `queue_enqueue`.

## Model

| member | source | states |
|---|---|---|
| QueueModel.ExactHistory | src/queue.c:105-141 | over any run, popped then reachable items are, in order, those enqueued while the last pop had not left one item; dropped then stray items are, in order, the others |
| QueueModel.DetachedMeansLastPopLeftOne | src/queue.c:139-140 | the mode that loses items is exactly the one the last pop enters when it finds two items |
| QueueModel.NothingInvented | src/queue.c:95-150 | over any run, enqueued = popped + reachable + dropped + stray as multisets |
| QueueModel.NothingReordered | src/queue.c:95-150 | the popped values are a subsequence of the enqueued ones |
| QueueModel.FifoExactlyWhenNoLateEnqueue | src/queue.c:169-186 | the FIFO order the self test asserts holds on a run if and only if no enqueue came while the last pop had left one item |
| QueueModel.FifoFails | src/queue.c:134-141 | five calls after which the third value is gone |
| QueueModel.RepairedIsFifo | src/queue.c:121-150 | without lines 139-140 the queue is FIFO on every run and drops nothing |
| WorkQueue.Queue.constructor | src/queue.c:60-71 | an empty attached queue |
| WorkQueue.Queue.Enqueue | src/queue.c:105-112 | the pointer updates append in attached mode and extend the unreachable chain in detached mode |
| WorkQueue.Queue.Unlink | src/queue.c:134-141 | the pointer updates are exactly the two-mode pop; of pointers to the node taken only `prev` of the new first item is left, which nothing reads, so its owner may read and free it unlocked |
| WorkQueue.Queue.Pop | src/queue.c:121-150 | waits exactly on an empty queue; else returns the first reachable value and releases its node, to which only `prev` of the new first item still points |
| WorkQueue.Queue.Destroy | src/queue.c:83-87 | frees and reads the nodes reachable from head, and no other, in the order as written or repaired |
| WorkQueue.DrainLogAt | src/queue.c:84-87 | node k is freed and its `next` read in accesses 2k and 2k+1, freed first as written and read first if repaired, and there are no others |
| WorkQueue.NothingTwice | src/queue.c:84-87 | in either order no node is freed twice and no `next` is read twice |
| WorkQueue.DrainUsesFreedExactly | src/queue.c:85-86 | the loop touches a node it has freed if and only if it is as written and the list is not empty |
| WorkQueue.NodesAreDistinct | src/queue.c:37-42 | no node is twice in a chain |
| WorkQueue.Queue.NextReachesOnlyChain | src/queue.c:37-51 | every walk along next from head is a prefix of the chain, so it is acyclic |
| FutureModel.WalkVisitsEachOnce | src/future.c:153-163 | one walk runs every callback linked before it once, newest first, and none linked during it; what they link is linked, in the order they run |
| FutureModel.StateByHistory | src/future.c:165-197 | flags, value and code as functions of the last fulfil and the last reject |
| FutureModel.VisitsSeeResolved | include/future.h:35-37 | a callback always sees a resolved future |
| FutureModel.RunsOncePerLaterResolution | src/future.c:205-216 | a callback runs exactly once per resolution made after the call that linked it |
| FutureModel.GetByHistory | src/future.c:143-151 | when future_get blocks, aborts, or returns which value |
| Futures.Future.constructor | src/future.c:101-115 | an unresolved future without callbacks |
| Futures.Future.AddCallback | src/future.c:205-216 | links one node in front, leaves the others in place; whether the list can be walked depends on its args |
| Futures.Future.Execute | src/future.c:90-97 | one callback runs, and may link more |
| Futures.Future.ExecuteCallbacks | src/future.c:153-163 | the pointer walk is the walk of the model though the list grows under it |
| Futures.Future.SetValue | src/future.c:165-180 | fulfils and walks |
| Futures.Future.SetRejected | src/future.c:182-197 | rejects and walks |
| Futures.Future.Get | src/future.c:143-151 | answers as the model, without the wait |
| Futures.Future.NodesAreDistinct | src/future.c:36-41 | the callback list has no cycle |
| Futures.Promise.constructor | src/promise.c:41-50 | a promise with its own fresh future |
| Futures.Promise.Fulfil | src/promise.c:72-76 | resolves its future with the value |
| Futures.Promise.Reject | src/promise.c:78-82 | resolves its future with the code |
| FuturePools.Executor.constructor | src/executor.c:61-71 | an executor of its thread, not yet in a list |
| FuturePools.Closure.Finish | src/executor.c:53-54 | fulfils the promise of the closure with fn(args) |
| FuturePools.Executor.Turn | src/executor.c:50-56 | one turn fulfils the future of the next closure, and no other, with its own fn of its own args |
| FuturePools.FuturePool.constructor | src/future_pool.c:42-60 | n executors in one list, last made first, over an empty queue |
| FuturePools.FuturePool.ExecutorsAreDistinct | src/future_pool.c:53-57 | the list has no executor twice |
| FuturePools.FuturePool.Execute | src/future_pool.c:69-83 | enqueues a closure of fn and args whose promise has the returned future, with the cleanup linked and fit to run |
| FuturePools.ExecuteTurnGet | src/future_pool.c:129-139 | on an idle pool, execute, one turn of a thread and get give fn(args) |
| FuturePools.FuturePool.Destroy | src/future_pool.c:86-106 | the events of a teardown, in order, and the nodes still queued freed |
| FuturePools.TeardownInOrder | src/executor.c:74-93 | each thread is cancelled, joined, freed, in that order and once, later threads first, the queue after all of them, and nothing else happens |
| FutureSafety.StepKeepsInv | src/future.c:165-197 | every step of every thread on the future keeps the invariant |
| FutureSafety.AgreesWithTheModel | src/future.c:165-216 | whenever the mutex is free, all fields are what the sequential future makes of the critical sections so far, in their order |
| FutureSafety.LastWriterWins | src/future.c:170-187 | at any time value and code are those of the last fulfil and the last reject to have entered |
| FutureSafety.OneHolder | src/future.c:134-141 | one holder of the mutex, none while it runs callbacks or sleeps |
| FutureSafety.NoLostWaiterWakeUps | src/future.c:174-192 | once the future is fulfilled or rejected and the mutex is free, nobody sleeps on it |
| FutureSafety.WaitersPassOnlyResolved | src/future.c:134-141 | nobody gets past future_wait before the future is resolved |
| FutureSafety.GetAbortsExactly | src/future.c:143-151 | the first assert never fails, the second exactly if no fulfil has set is_fulfilled by then, which with the mutex free is when the sequential future_get aborts |
| FutureSafety.GetReturnsTheModels | src/future.c:143-151 | the value returned is the sequential future's at that moment, even while another thread resolves |
| FutureSafety.WalksSeeResolved | src/future.c:153-157 | the assert of future_execute_callbacks holds |
| FutureSafety.EachWalkRunsEachOnce | src/future.c:153-163 | however walks overlap, each runs the callbacks linked before its own head read once, newest first, and those linked before its resolution are among them |
| FutureSafety.RunsOncePerWalk | src/future.c:153-163 | over all walks a callback never runs more often than there are walks over it, and in the end exactly as often |
| FutureProgress.EveryRunIsFinite | src/future.c:134-216 | without new calls and spurious wake-ups the threads stop after Measure(s) steps at most |
| FutureProgress.SomeRunRests | src/future.c:134-216 | a resting state can be reached from every state that the invariant allows |
| FutureProgress.HolderCanGo | src/future.c:168-179 | who holds the mutex can itself take its next step |
| FutureProgress.SettledAtRest | src/future.c:134-197 | at rest all resolutions are over and all callbacks added; if there was a resolution each future_wait has returned and each future_get has returned a value or aborted; else all of them sleep |
| FutureRequests.ThreadsDoWhatTheyWereAsked | src/promise.c:72-82 | on every run the i-th resolution is the i-th fulfil or reject called, with its argument, and the j-th call the j-th wait, get or add called |
| FutureRequests.EachTakesEffectOnce | src/future.c:165-216 | no fulfil, reject or link takes effect more often than the run asks for it, and at rest each has exactly as often |
| FutureRequests.OutcomesAreOwed | src/future.c:134-151 | only future_get returns a value, one that some fulfil of the run was called with; only future_get aborts, and then some reject was called; future_wait just returns |
| FutureRequests.ResolvedExactlyWhenAsked | src/future.c:165-197 | at rest the future is resolved if and only if the run fulfils or rejects it |
| FutureRequests.FulfilledExactlyWhenAsked | src/future.c:170-171 | at rest it is fulfilled if and only if the run fulfils it |
| FutureRequests.EveryResolutionTakesEffect | src/promise.c:72-82 | a fulfil or reject may be called at any time, and when the threads rest it has taken effect and the future is resolved |
| FutureRequests.EveryCallSettles | src/future.c:134-216 | so may a wait, a get or an add, and when the threads rest it is settled; an added callback is linked |
| FutureRequests.SpuriousWakeUp | src/future.c:137-138 | a waiter may wake for no reason, and is then asleep again with nothing changed |
| FutureRequests.LinkedInTimeRuns | src/future.c:158-162 | a callback linked before a resolution reads the list head is run by it |
| FutureRequests.TheHeadReadDecides | src/future.c:158-162 | in every continuation a resolution runs a callback if and only if it was linked when the list head was read |
| Deadline.DeadlineExact | src/internal.h:32-46 | the deadline is normalised and exact, and tv_nsec never leaves 32 bits |
| Deadline.DeadlineMonotone | src/internal.h:32-46 | deadlines are ordered as the waits are |
| PoolSafety.StepKeepsInv | src/executor.c:50-56 | every step of every thread keeps the invariant |
| PoolSafety.LockDiscipline | src/queue.c:53-58 | one holder a mutex, one mutex a thread, none held by a worker or a caller across a wait, or across a fn or a callback; the queue's is free from pthread_mutex_destroy on |
| PoolSafety.ClosuresConserved | src/executor.c:51-55 | once enqueued, a closure is in exactly one place: queued, stray, dropped, held by one worker, or freed |
| PoolSafety.RepairedLosesNothing | src/queue.c:134-141 | without lines 139-140 none is ever stray or dropped |
| PoolSafety.NoLostWorkerWakeUps | src/queue.c:114-132 | while a worker sleeps there are at least as many workers woken by a signal, and yet to look, as reachable items; spurious wake-ups do not count |
| PoolSafety.NoLostWaiterWakeUps | src/future.c:134-141 | nobody sleeps on a resolved future of the pool whose mutex is free |
| PoolSafety.SpuriousWakeUpOfWorker | src/queue.c:131-132 | a worker may wake for no reason, and is then asleep again with nothing changed |
| PoolSafety.SpuriousWakeUpOfCaller | src/future.c:137-138 | so may a waiter on an unresolved future |
| PoolSafety.AnswersAreRight | src/future.c:143-151 | future_get gives fn(args) of its own ticket, and its asserts hold |
| PoolSafety.ResolvedOnceWithResult | src/future.c:168-176 | no future is resolved twice; who sees is_resolved without the lock sees the result |
| PoolSafety.CallbacksExactlyOnce | src/future.c:153-163 | when a worker is done, exactly the callbacks linked before its head read have run, once each, newest first |
| PoolSafety.OnlyTheWalkRuns | src/future.c:159-162 | callbacks run in the walk and nowhere else |
| PoolSafety.CallbackSeesResolved | include/future.h:35-37 | a callback runs for the first time, within the walk's head read, on a resolved future |
| PoolSafety.PromiseLifetime | src/future_pool.c:62-67 | freed at most once, and exactly if the cleanup was linked before the head read |
| PoolMemory.MemorySafe | src/queue.c:83-87 | in any interleaving a step touches freed memory if and only if it is the loop of queue_destroy, as written, after its first turn; nothing is freed twice |
| PoolMemory.DestructionIsCleanExactly | src/queue.c:84-87 | a run that destroys the pool touches freed memory if and only if queue_destroy is as written and leaves a non-empty queue behind |
| PoolMemory.DrainIsCleanExactly | src/queue.c:80-87 | the same from the start of queue_destroy on, by what it finds in the queue, which stays as it is |
| PoolSafety.AfterShutdown | src/future_pool.c:87-106 | all workers joined; the unresolved futures are exactly those of closures still queued or lost; queued nodes freed, lost ones leaked |
| PoolSafety.ShutdownInOrder | src/executor.c:74-93 | a thread acts on a cancellation only after every later executor was freed, its executor is freed only after it ended, the queue goes last |
| PoolRefinement.StepRefines | src/executor.c:50-56 | a submission opens an entry for the fn and args submitted; every other step fills one pending entry with its own fn of its own args, or is invisible |
| PoolRefinement.RunRefines | src/future_pool.c:69-83 | every run, whatever the interleaving, is a run of the table, step by step with the same submissions |
| PoolRefinement.GetReadsTheTable | src/future.c:143-151 | a returned value is the table's answer |
| PoolRefinement.RunStays | src/future.c:165-197 | an answer, a loss, a finished walk and a linked callback stay as they are for ever |
| PoolRefinement.EnqueueDecides | src/queue.c:105-112 | a ticket is missing in every continuation if and only if the queue was detached at its enqueue, and then no future_get on it returns |
| PoolRefinement.PromiseFateIsSealed | src/future_pool.c:79-80 | after the walk the promise's fate never changes, and it was freed exactly if the head read found the cleanup |
| PoolProgress.StepProgress | src/executor.c:50-56 | every step of the library's threads uses up some of the measure |
| PoolProgress.EveryRunIsFinite | src/executor.c:50-56 | at most Measure(s) of them happen before rest, however they interleave |
| PoolProgress.SomeRunRests | src/executor.c:50-56 | a resting state can be reached from every state that the invariant allows |
| PoolProgress.HolderCanGo | src/queue.c:101-118 | whichever client, worker or caller holds a mutex can itself take its next step, so there is no deadlock |
| PoolProgress.NothingHeldAtRest | src/future.c:168-179 | at rest no mutex is held |
| PoolProgress.ServedAtRest | src/queue.c:131-132 | at rest the queue is empty, all workers sleep, exactly the missing tickets are unresolved, and each call has returned with the outcome of its kind, but for waits and gets on missing tickets, which sleep |
| PoolProgress.ShutDownAtRest | src/future_pool.c:87-106 | a shutdown that can go no further is complete |
| PoolProgress.ResolvedExactlyWhenInTime | src/queue.c:105-112 | a submission is answered if and only if the queue was not detached at its enqueue |
| PoolRequests.TicketsAndCallsAreThoseAskedFor | src/future_pool.c:69-83 | on every run ticket t has the fn and args of the t-th submission, call r is the r-th call made, on its future and of its kind, and there are as many workers as asked for |
| PoolRequests.GetReturnsTheSubmittedResult | src/executor.c:50-56 | from end to end: a future_get that returned gives fn(args) of the submission whose future it was called on |
| PoolRequests.CallbacksAreThoseAdded | src/future.c:205-216 | a future has callback id once for each future_add_callback of id on it that got that far, and no more |
| PoolRequests.OnlyAddedCallbacksRun | src/future.c:158-162 | what a walk runs is the cleanup or a callback added to that future |
| PoolRequests.TheHeadReadDecides | src/future.c:158-162 | in every continuation a callback has run when the worker is done if and only if it was linked when the worker read the list head |
| PoolRequests.LinkedInTimeRuns | src/future.c:158-162 | so does every callback linked at any moment before that |
| PoolRequests.EveryRequestIsAnswered | src/future.c:134-151 | any wait, get or add may be made on a returned future the queue has not lost, and has returned, a get with fn(args), by the time the serving pool rests |
| PoolRequests.SomeRunAnswers | src/future.c:134-151 | and there is a continuation in which it comes to rest |
| PoolRequests.EverySubmissionIsServed | src/future_pool.c:69-83 | anything may be submitted to a serving pool, and by the time it rests the future is resolved with fn(args) unless the queue has lost it |
| PoolShutdown.ShutdownServesTheQueue | src/future_pool.c:87-106 | on a run that destroys the pool these are equivalent: no cancellation took the last worker from a non-empty queue; nothing is left in the queue; exactly the lost tickets are unresolved; no freed memory was touched |
| PoolShutdown.TheCallDecides | src/future_pool.c:87-106 | no continuation of a call of future_pool_destroy abandons work, or touches freed memory, if and only if nothing is queued or some worker is busy when it is called |
| PoolShutdown.WaitBeforeDestroying | src/future_pool.c:87-106 | if every future the queue has not lost is resolved when it is called, none does |
| PoolWitnesses.AClosureIsLost | src/queue.c:134-141 | one worker and three submissions suffice to lose one |
| PoolWitnesses.APromiseLeaks | src/future_pool.c:79-80 | one worker and one submission suffice to leak a promise |
| PoolWitnesses.AShutdownAbandons | src/executor.c:74-93 | one worker cancelled just after it was woken leaves its item in the queue |
| PoolWitnesses.AShutdownReadsFreedMemory | src/queue.c:85-86 | and queue_destroy then reads `next` from that item's node after it freed it |

## Left out

- WorkQueue.Queue.Pop: the wait is one result of the method (None); blocking and re-checking are in the pool machine.
- Futures.Future.Execute: a callback is known by what it links to the same future; one that resolves the future from inside is, in `FutureMachine`, a resolution like any other.
- Futures.Future.SetValue: one thread; the mutex and the broadcast are in the two machines.
- Futures.Future.SetRejected: one thread; the mutex and the broadcast are in `FutureMachine`.
- Futures.Future.Get: the wait is the answer Blocks; waiting is in the two machines.
- FuturePools.Executor.constructor: the thread is a number; what it does is in the pool machine.
- FuturePools.Executor.Turn: one turn by one thread; the endless loop, its interleavings, cancellation and the freeing of the closure are in the pool machine.
- FuturePools.FuturePool.Destroy: cancel, join and free are entries of a log; what threads do meanwhile is in the pool machine.
- PoolSafety.NoLostWaiterWakeUps: futures of the pool, which a worker fulfils once; fulfils and rejects in any mix are in `FutureSafety.NoLostWaiterWakeUps`.
- Deadline.DeadlineExact: the time of day is a parameter, and the width of tv_sec is not bounded.
- Freeing a future (future_destroy) while a thread may still walk its callbacks; the callers must not, and nothing in the library stops them, so the machines never free a future.
- Freeing of callback nodes: callback_destroy has no caller, so callback nodes leak.
- Null arguments of a callback in the machines: callback_execute asserts that there are none.
- Cancellation inside a closure's function or a callback, and threads that wait on futures of their own pool from inside a closure.
- Rejected futures in the pool machine: the pool never rejects.
- Weak memory, failing allocation, the internals of the thread library.
- Self tests, exports, version macros and build files.
