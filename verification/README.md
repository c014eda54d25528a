# A model of command-executor

command-executor is a Rust thread pool: commands are submitted through a bounded blocking queue and
executed by a fixed number of threads, so that a fast producer is slowed down to the pace of the
threads. This project models the pool, both of its queues and the chains of pools built in the
examples, and proves what they keep in every run.

## The modules

* `Fifo.dfy` is the specification of the queue: an atomic bounded FIFO, as a log of the pushes and
  pops that took effect, with the timeout budget shared by all wait loops. `BlockingQueue.dfy` (the
  monitor with cached flags), `CrossbeamQueue.dfy` (the retry loops over an array queue) and
  `QueueAdapter.dfy` (the dispatch between them) are imperative and meet that one specification.
  What the other threads do while a caller waits, how long it waits and what the clock shows are
  parameters of each call (`Turn`), so a contract speaks about every interleaving, and says at which
  look the call ends and how (`Ends`); the turns leave no choice (`Fifo.OneEnd`).
* `Monitor.dfy` is `BlockingQueue` step by step: any number of threads, each with its own place in
  the code, the two mutexes, the wait sets of the two condition variables, spurious wake-ups and
  expiring timers. `MonitorWakeups.dfy` proves for each side, producers and consumers, that no
  wake-up is lost, `MonitorStranded.dfy` that this holds for exactly the callers that meet the
  conditions of the side, and `MonitorRefinement.dfy` that the queue refines the atomic FIFO.
* `Pool.dfy` is the pool as a transition system over the atomic queue. `Enabled` and `Apply` follow
  `src/thread_pool.rs` action by action: the worker loop (lines 160-176), the barrier commands
  (42-75), `in_all_threads` (189-211), `shutdown` (236-250), `join` (253-284) and submission
  (287-301). A command is known by its submission number. `PoolInvariant.dfy`, `PoolSafety.dfy`,
  `PoolShutdown.dfy`, `PoolReturn.dfy`, `PoolCalls.dfy` and `PoolErrors.dfy` hold the results about
  all its runs. `PoolPlay.dfy` has the operations of the owner as programs of these steps, and proves
  that they get through. `ThreadPool.dfy` is the class with the fields and methods of the source; each
  method records the steps it makes, so the results hold for the object, and does exactly what the
  program of its operation does while the workers take turns as the schedule says.
* `Chain.dfy` couples any number of pools: a worker that finishes a command submits to the next
  pool. One definition covers `pipeline.rs` (Pass stages) and the accumulating stage of
  `fetch_thread_local.rs` and `flush_thread_local.rs`. `ChainConservation.dfy` proves
  that it delivers, `ChainProgress.dfy` that it completes, and `ChainCapacity.dfy` for which sizes it
  does; `ChainLinks.dfy` proves that the links set by `set_next` are in place. `LinkPlay.dfy` and
  `ChainPlay.dfy` have what the main thread of the examples does, as a program, and prove that it gets
  through; `Flow.dfy` is that main function.
* `Counting.dfy` has sums and the pigeonhole principle, `Wrappers.dfy` the Option type.

## Side conditions

* Commands terminate and do not panic. `shutdown` and `join` take `&mut self`, so no call of the
  pool is in progress when `shutdown` begins.
* Progress results need a queue size and a thread count of at least 1, and, for `in_all_threads`, at
  most one call in progress or a single thread; those about chains need that every queue is at least
  as large as its thread count, and no less (`ChainCapacity.ChainSafeIff`). The safety results hold
  without these, for pools and for chains, except for the bounds (`PoolSafety.Backpressure`,
  `ChainProgress.ChainBackpressure`): they are about queue sizes of at least 1, because a
  `BlockingQueue` of size 0 accepts without limit, while the pool of the model then accepts nothing.
* After `shutdown` clients submit nothing. `submit` and `try_submit` make sure of that, but the public
  `unchecked_submit` (`src/thread_pool.rs` 291-293), which before `shutdown` does what `submit` does,
  skips the check of `expired`. A command sent by it after `shutdown` is not a step of the model: it
  could be left in the queue, and it takes room from the stop tokens.
* The no-lost-wake-up results for producers need every enqueue to use `Duration::MAX`, and those for
  consumers need this of every dequeue and no enqueue in progress together with `wait_empty`, apart
  from queues with very few threads or a single place. The
  pool's workers always meet the second: they dequeue without a timeout, and `wait_empty` is called
  only inside `shutdown`, which excludes submission. The first is broken by `try_submit`
  (`src/thread_pool.rs` 298-301) with a finite timeout: on `QueueType::BlockingQueue` it can take the
  notification meant for another client's `submit` or `in_all_threads` and leave that asleep inside
  enqueue though there is room. So on that queue the progress results of the pool, which let a blocked
  submission go on whenever there is room (`PoolCalls.OnlyCallReturns`, `PoolCalls.OverlapSafeIff`, and
  the chains), suppose that no client uses `try_submit` with a finite timeout. The retry loops of
  `CrossbeamBlockingQueue` need no notification.
* `Duration::MAX` is a wait that never expires. Atomic accesses are sequentially consistent.

## Where the code and its documentation differ

Each of these is stated with the exact condition under which the code does what one expects of it.

* `shutdown` is documented as terminating after completing all pending tasks
  (`src/thread_pool.rs` 233-235), but when it returns the last commands can still be executing
  (`PoolReturn.ShutdownReturnsEarly`); completion is a fact about `join`. Its return means completion
  if and only if everything accepted had been executed before the call
  (`PoolReturn.CompleteAtReturnIff`), for instance because `in_all_threads` was called last. The test
  at `tests/test_thread_pool.rs` 192-201 reads what the commands wrote before it joins.
* `shutdown` can block for good: in CompletePending mode if and only if the queue is smaller than the
  number of threads (`PoolShutdown.CompletePendingSafeIff`), in Immediate mode if and only if the
  queue has no room for the pending commands and one stop token per thread
  (`PoolShutdown.ImmediateSafeIff`); so with a full queue no queue size is safe.
* `in_all_threads` is documented as halting the threads until f can be executed; two overlapping
  calls can halt them for good (`PoolCalls.OverlappingCallsDeadlock`). Up to n calls at a time are
  safe if and only if n is at most 1 or the pool has one thread (`PoolCalls.OverlapSafeIff`).
* An Immediate `shutdown` is documented as terminating each thread after its current task
  (`src/thread_pool.rs` 233-234), but every worker that is inside dequeue at the stop takes one more
  command (`PoolReturn.TakenAfterStop`). No pending command is begun after the stop for sure if and
  only if none is pending at the call (`PoolReturn.NothingBegunIff`).
* A producer of `BlockingQueue` can be left asleep though there is room: never if and only if no
  enqueue has a finite timeout, or there are less than three threads, or no bound
  (`MonitorStranded.ProducerStrandedIff`). A consumer can be left asleep over an element: never if and
  only if no dequeue has a finite timeout or there are less than three threads, and no enqueue overlaps
  `wait_empty` or there are less than four threads or only one place
  (`MonitorStranded.ConsumerStrandedIff`).
* A chain shut down in order can block for good: never if and only if every stage has a queue at least
  as large as its thread count, whatever the sources (`ChainCapacity.ChainSafeIff`).
* A `BlockingQueue` of capacity 0 is not bounded (`MonitorRefinement.BoundedIffPositive`).
* `CrossbeamBlockingQueue::wait_empty` looks at the queue once more after its loop
  (`src/crossbeam_blocking_queue.rs` 47), so even without a timeout it can return false
  (`CrossbeamQueue.UnlimitedWaitReturnsFalse`); it can be relied on if and only if nobody enqueues
  (`CrossbeamQueue.LastLookReliableIff`). The queue was empty at some moment of the call all the same.

## Model

| member | source | states |
|---|---|---|
| Fifo.LegalIsFifo | README.md:12-15 | in every history the elements put in are those taken out followed by those inside, and never more than the capacity are inside |
| Fifo.OneEnd | src/blocking_queue.rs:115-206 | what the others do and how long the waits last determine at which look a call ends, and whether with what it waits for or out of time |
| BlockingQueueMonitor.BlockingQueue.constructor | src/blocking_queue.rs:38-46 | a new queue is empty, not full, and consistent |
| BlockingQueueMonitor.BlockingQueue.Len | src/blocking_queue.rs:57-59 | the length is that of the contents given by the history |
| BlockingQueueMonitor.BlockingQueue.IsEmpty | src/blocking_queue.rs:69-71 | true exactly when the history leaves nothing inside |
| BlockingQueueMonitor.BlockingQueue.IsFull | src/blocking_queue.rs:75-77 | true exactly when the contents number the capacity |
| BlockingQueueMonitor.BlockingQueue.PushBack | src/blocking_queue.rs:146-154 | one push takes effect and the cached flags agree with the deque again |
| BlockingQueueMonitor.BlockingQueue.PopFront | src/blocking_queue.rs:196-204 | one pop of the front element takes effect and the cached flags agree with the deque again |
| BlockingQueueMonitor.BlockingQueue.TryEnqueue | src/blocking_queue.rs:115-156 | whatever the others do, the call makes exactly one push of its element, or none and hands it back not before the timeout; it waits as long as the queue is full at each look, and ends at the first look that finds room, or at the first wait after which the time is up |
| BlockingQueueMonitor.BlockingQueue.Enqueue | src/blocking_queue.rs:110-112 | without a timeout the element is never handed back |
| BlockingQueueMonitor.BlockingQueue.TryDequeue | src/blocking_queue.rs:165-206 | whatever the others do, the call makes exactly one pop of the front element, or returns nothing not before the timeout; it waits as long as the queue is empty at each look, and ends at the first look that finds an element, or at the first wait after which the time is up |
| BlockingQueueMonitor.BlockingQueue.Dequeue | src/blocking_queue.rs:160-162 | without a timeout it always returns an element |
| BlockingQueueMonitor.BlockingQueue.WaitEmpty | src/blocking_queue.rs:83-107 | changes nothing and returns whether the queue is empty, at the first look that finds it empty, or at the first wait after which the time is up |
| CrossbeamQueue.CrossbeamBlockingQueue.TryEnqueue | src/crossbeam_blocking_queue.rs:54-78 | the same specification as for BlockingQueue, look by look, by retrying |
| CrossbeamQueue.CrossbeamBlockingQueue.TryDequeue | src/crossbeam_blocking_queue.rs:84-103 | the same specification as for BlockingQueue, look by look, by retrying |
| CrossbeamQueue.CrossbeamBlockingQueue.WaitEmpty | src/crossbeam_blocking_queue.rs:33-48 | the loop ends as in BlockingQueue; the value is exactly whether what the others do before the last look leaves the queue empty |
| CrossbeamQueue.UnlimitedWaitReturnsFalse | src/crossbeam_blocking_queue.rs:33-48 | a wait_empty without a timeout that returns false |
| CrossbeamQueue.LastLookReliableIff | src/crossbeam_blocking_queue.rs:47 | the last look finds the queue empty whatever the others do if and only if they put nothing in |
| QueueAdapter.BlockingQueueAdapter.TryEnqueue | src/blocking_queue_adapter.rs:99-108 | one specification for whichever queue is inside, look by look; with room the element is put in at once |
| QueueAdapter.BlockingQueueAdapter.TryDequeue | src/blocking_queue_adapter.rs:121-130 | one specification for whichever queue is inside, look by look; an element that is there is returned at once |
| QueueAdapter.BlockingQueueAdapter.WaitEmpty | src/blocking_queue_adapter.rs:77-86 | one specification for whichever queue is inside, look by look |
| QueueAdapter.EnqueueMeaning | src/blocking_queue_adapter.rs:88-97 | an enqueue that has returned has put its element last, in a history that is first in, first out and bounded |
| QueueAdapter.DequeueMeaning | src/blocking_queue_adapter.rs:110-119 | dequeued elements are a prefix of the enqueued ones, in order, ending with the one returned |
| Monitor.ReachableInv | src/blocking_queue.rs:115-206 | in every run, whatever the interleaving: mutual exclusion, the meaning of the flags at each place in the code, the bound and the history |
| Monitor.FlagsAgree | src/blocking_queue.rs:143-155 | with the flags mutex free, empty and full agree with the deque; a reader of the deque never sees more than the capacity |
| Monitor.InTimeDequeueReturnsSome | src/blocking_queue.rs:193-205 | a dequeue that was not timed out holds the element it removed from the front |
| MonitorWakeups.WakeupKept | src/blocking_queue.rs:143-155 | each step keeps for a side: if it has a sleeper that is not notified, its notified threads are as many as there is to do for it; for producers with no timed enqueue about, for consumers with no timed dequeue and no enqueue together with wait_empty |
| MonitorWakeups.ProducersNotForgotten | src/blocking_queue.rs:198-203 | in every run without a timed enqueue, whatever consumers and waiters do: with a producer asleep and not notified, the notified producers are at least as many as the free places |
| MonitorWakeups.ConsumersNotForgotten | src/blocking_queue.rs:148-149 | in every run without a timed dequeue and without an enqueue overlapping wait_empty: with a consumer asleep and not notified, the notified consumers are at least as many as the elements |
| MonitorWakeups.NotAtRestMoves | src/blocking_queue.rs:115-206 | unless everyone in a call is asleep, a thread can take a step that is not a new call, a spurious wake-up or a timer |
| MonitorWakeups.RestMeansNothingToDo | src/blocking_queue.rs:115-206 | where a run careful for one side comes to rest, that side sleeps only with nothing to do for it |
| MonitorWakeups.FewNeverStranded | src/blocking_queue.rs:115-206 | with two threads at most nobody is ever left behind, whatever the timeouts |
| MonitorWakeups.NeverBothAsleep | src/blocking_queue.rs:115-206 | no deadlock: a run careful for both sides never rests with producers and consumers asleep |
| MonitorWakeups.WaitEmptyNotForgotten | src/blocking_queue.rs:83-107 | in any run no wait_empty caller sleeps over an empty queue |
| MonitorStranded.ConsumerLeftByTimeout | src/blocking_queue.rs:181-188 | for every capacity and three or more threads, a run in which only a dequeue is timed and wait_empty is not called, that leaves an untimed consumer asleep over an element |
| MonitorStranded.ConsumerLeftByWaitEmpty | src/blocking_queue.rs:148-149 | for every capacity but 1 and four or more threads, a run without any finite timeout, but with an enqueue during wait_empty, that leaves a consumer asleep over an element |
| MonitorStranded.ConsumerStrandedIff | src/blocking_queue.rs:165-206 | for each capacity and number of threads, over all runs of what callers may do: no consumer is ever left behind if and only if no dequeue may be timed or there are less than three threads, and no enqueue may overlap wait_empty or there are less than four threads or only one place |
| MonitorStranded.ProducerLeftByTimeout | src/blocking_queue.rs:131-138 | for every positive capacity and three or more threads, a run in which only an enqueue is timed, that leaves an untimed producer asleep though there is room |
| MonitorStranded.ProducerStrandedIff | src/blocking_queue.rs:115-156 | for each capacity and number of threads, over all runs of what callers may do: no producer is ever left behind if and only if no enqueue may be timed, or there are less than three threads, or the capacity is 0 |
| MonitorRefinement.StepRefines | src/blocking_queue.rs:115-206 | each step is one step of the atomic FIFO for the thread that makes it, or changes nothing a client can see |
| MonitorRefinement.BlockingQueueRefinesFifo | src/blocking_queue.rs:83-206 | every run of the queue is a run of the atomic bounded FIFO; a timed-out call changes nothing and gets its own element back |
| MonitorRefinement.BoundedIffPositive | src/blocking_queue.rs:150-153 | the capacity bounds the queue in every run if and only if it is positive |
| PoolInvariant.InvKept | src/thread_pool.rs:160-211 | every step keeps FIFO order, the account of every dequeued command, the tickets of each in_all_threads call, f's mutex and the barrier count |
| PoolInvariant.FullBarrierOpens | src/thread_pool.rs:42-49 | with every worker inside one call's barrier, all its tickets have been taken, one by each worker, and every command taken so far is done |
| PoolInvariant.BarrierKept | src/thread_pool.rs:205-211 | until the barrier opens everyone who arrived is there; once open, f is done everywhere and everything ahead of it is done |
| PoolSafety.TakenInSubmissionOrder | README.md:12-15 | after k commands have been taken the next one taken is submission number k, and the queue holds the numbers from k on |
| PoolSafety.AtMostOnce | src/thread_pool.rs:164-174 | no command is executed twice in any run, and none while it is queued |
| PoolSafety.CompletePendingExactlyOnce | src/thread_pool.rs:236-284 | when join is done, every command accepted before a CompletePending shutdown was executed exactly once and only EmptyCommands are left |
| PoolSafety.JoinedExecutedPrefix | src/thread_pool.rs:239-241 | when join is done, in either mode, the executed commands are a prefix of the submission order, once each, and the others are still queued |
| PoolSafety.FullFlush | src/thread_pool.rs:197-211 | when in_all_threads has returned, f was completed exactly once in each worker and every command ahead of the last barrier command was executed exactly once |
| PoolSafety.BodiesExclude | src/thread_pool.rs:66-75 | runs of f of in_all_threads_mut exclude each other, and in no state does anybody on the way to the barrier or inside it hold f's mutex |
| PoolCalls.MutCallExcludes | src/thread_pool.rs:189-195 | in every run from the start of an in_all_threads_mut call, no two workers are inside its f at a time |
| PoolCalls.ExcludesIff | src/thread_pool.rs:189-211 | in every pool with two threads or more: the runs of f of a call exclude each other in all runs if and only if it is one of in_all_threads_mut |
| PoolSafety.Backpressure | src/thread_pool.rs:85-89 | at most queue size plus threads commands are accepted and not finished, counting a barrier command until it has left the barrier |
| PoolShutdown.SlackConserved | src/thread_pool.rs:236-250 | after the stop no step changes queue length plus tokens to send minus workers inside dequeue |
| PoolShutdown.NoWorkerStranded | src/thread_pool.rs:247-249 | workers inside dequeue never outnumber queue length plus tokens not yet sent, so once all are sent nobody waits in vain |
| PoolShutdown.OneMoreEach | src/thread_pool.rs:164-165 | once stopped, each worker dequeues at most once more, and only if it was inside dequeue |
| PoolShutdown.MeasureFalls | src/thread_pool.rs:160-284 | a natural number falls at every step that is not a new submission |
| PoolShutdown.ShutdownRunsAreFinite | src/thread_pool.rs:236-284 | every run from the beginning of shutdown is bounded by the measure |
| PoolShutdown.ShutdownMoves | src/thread_pool.rs:236-284 | from the beginning of shutdown to the end of join something can always move, if the slack fits into the queue |
| PoolShutdown.ShutdownCompletesIff | src/thread_pool.rs:236-284 | shutdown and join get through if and only if the slack at the stop fits into the queue; then in every run, otherwise in none, and the slack is what is left in the queue |
| PoolShutdown.ImmediateSafeIff | src/thread_pool.rs:239-249 | over all runs, an Immediate shutdown that finds at most n commands queued can never get stuck if and only if the queue has room for n commands and one token per thread |
| PoolShutdown.BlockedImmediate | src/thread_pool.rs:239-249 | for every pool and number of pending commands without that room, a run in which an Immediate shutdown is blocked for good |
| PoolShutdown.CompletePendingSafeIff | src/thread_pool.rs:242-249 | over all runs, a CompletePending shutdown can never get stuck if and only if the queue size is at least the number of threads |
| PoolShutdown.BlockedShutdown | src/thread_pool.rs:242-249 | for every smaller queue, a run in which shutdown is blocked for good |
| PoolReturn.ReturnedCompleteIff | src/thread_pool.rs:242-250 | when a CompletePending shutdown has returned, everything accepted before it was executed once if and only if no worker is executing one of these commands |
| PoolReturn.CompleteAtReturnIff | src/thread_pool.rs:233-250 | every return of a CompletePending shutdown finds everything accepted executed, if and only if it all was executed before the call |
| PoolReturn.FlushedThenComplete | src/thread_pool.rs:197-211 | everything accepted is executed if the last command accepted belongs to an in_all_threads that has returned |
| PoolReturn.ShutdownReturnsEarly | src/thread_pool.rs:236-250 | in every pool shutdown can return with a command accepted before it unfinished |
| PoolReturn.TakenAfterStop | src/thread_pool.rs:164-165 | between the stop and the end of join exactly as many commands are taken as workers were inside dequeue at the stop |
| PoolReturn.NothingBegunIff | src/thread_pool.rs:233-241 | an Immediate shutdown never begins a pending command after the stop, if and only if none is pending at the call |
| PoolCalls.OnlyCallMoves | src/thread_pool.rs:205-211 | while one in_all_threads call is in progress, a worker or the caller can move |
| PoolCalls.OnlyCallReturns | src/thread_pool.rs:189-211 | the only call in progress returns: without new submissions every run is finite and none ends before it |
| PoolCalls.OverlappingCallsDeadlock | src/thread_pool.rs:186-195 | for every pool of more than one thread, a reachable state with two calls in progress neither of which ever returns |
| PoolCalls.OverlapSafeIff | src/thread_pool.rs:186-211 | from every reachable state with at most n calls in progress all of them return, if and only if the pool has one thread or n is at most 1 |
| PoolCalls.NeverJammedIff | src/thread_pool.rs:186-211 | no reachable state has two calls in progress from which neither ever returns, if and only if the pool has one thread |
| PoolCalls.SetThreadLocalVisible | src/thread_pool.rs:213-229 | after set_thread_local has returned every worker's slot holds the value, whatever it ran since, until it runs another one |
| PoolCalls.CommandReadsSlot | src/thread_pool.rs:213-229 | whatever command is submitted behind a set_thread_local and ahead of the next one reads its value, on whichever worker it runs, also while later ones are already queued |
| PoolCalls.SlotUnset | src/thread_pool.rs:213-229 | the slot of a worker that has run no set_thread_local is not set |
| PoolCalls.TakenBehindReleased | src/thread_pool.rs:205-211 | a command behind all barrier commands of a call is not taken before the barrier has opened |
| PoolErrors.LastErrorMeaning | src/command.rs:5-8 | a worker's result is the error returned by its last failing command, and Ok if none failed |
| PoolErrors.JoinReport | src/thread_pool.rs:253-284 | join reports one error for each worker that ran a failing command, the one its last failing command returned, in reverse creation order, and an error at all exactly when some executed command returned one |
| PoolPlay.TurnIsTheStep | src/thread_pool.rs:160-176 | a worker never has a choice: its turn is the one step of it that is possible, and nothing if none is |
| PoolPlay.CarriedIsRun | src/thread_pool.rs:189-284 | an operation under a schedule is a run of the protocol in which its program is made step by step, in order, and beside it only workers move |
| PoolPlay.BlockedAtStep | src/thread_pool.rs:189-284 | an operation that has not got through has used up its schedule and cannot make its next step |
| PoolPlay.CallGetsThrough | src/thread_pool.rs:183-211 | in_all_threads returns for some schedule from every state of an open pool without another call in progress |
| PoolPlay.ShutdownGetsThrough | src/thread_pool.rs:236-284 | shutdown and join get through for some schedule whenever the stop tokens are sure to fit |
| ThreadPoolObject.ThreadPool.constructor | src/thread_pool.rs:106-144 | a new pool is in the initial state of the protocol |
| ThreadPoolObject.ThreadPool.WorkerTurn | src/thread_pool.rs:164-174 | a worker's turn is whatever step of it the protocol allows, and nothing if none is allowed |
| ThreadPoolObject.ActedIsTheStep | src/thread_pool.rs:287-301 | another client's submission puts its command last if there is room, and does nothing otherwise |
| ThreadPoolObject.ThreadPool.TrySubmit | src/thread_pool.rs:298-301 | the command is accepted after whatever workers and other clients do while it waits, at the first look that finds room, or given back at the first reading of the clock that finds the shrinking budget used up, not before the timeout and without another look at the queue |
| ThreadPoolObject.ThreadPool.InAllThreads | src/thread_pool.rs:189-211 | does exactly what its program does under the schedule, as a call of the kind asked for; when it returns, f ran exactly once in each worker and everything accepted before the call was executed exactly once; it has not returned only with the schedule used up and the queue full or the barrier closed |
| ThreadPoolObject.ThreadPool.SetThreadLocal | src/thread_pool.rs:216-229 | does exactly what in_all_threads does; when it returns, every worker's slot holds the value |
| ThreadPoolObject.ThreadPool.Shutdown | src/thread_pool.rs:236-250 | does exactly what its program does under the schedule: marks the pool expired, waits as the mode asks, sets stopped and sends one EmptyCommand per thread after everything accepted; blocked only with the schedule used up |
| ThreadPoolObject.ThreadPool.Join | src/thread_pool.rs:253-284 | does exactly what its program does under the schedule: the last error of each failing worker in reverse creation order, all accepted commands executed exactly once in CompletePending mode; a later join reports nothing; before shutdown it does not return; blocked only with the schedule used up, on a worker that has not left |
| Chain.ChainOkKept | examples/pipeline.rs:134-157 | every pool of the chain makes a run of its own and the stages are shut down in order |
| Chain.NextStageOpen | src/thread_pool.rs:298-300 | as long as a worker of a stage can move, the next stage has not expired, so its submit never fails the assertion |
| ChainProgress.MoveCost | examples/pipeline.rs:142-164 | a natural number falls at every move of a chain of any length |
| ChainProgress.ChainMoves | examples/pipeline.rs:159-164 | a chain of any length, shut down and joined in order, can move until its end, unless the stop tokens of the current stage do not fit |
| ChainProgress.ChainCompletes | examples/pipeline.rs:142-164 | every run is bounded; at the end every worker has left; and with room for the tokens in every stage a run stops only there |
| ChainCapacity.ChainSafeIff | examples/pipeline.rs:142-164 | for all sizes, sources and kinds of stages: no run of a chain gets stuck before its end, from any start, if and only if every stage has a queue at least as large as its thread count |
| ChainCapacity.ChainStuck | examples/pipeline.rs:142-164 | from any start with nobody inside dequeue, a chain with too small a queue has a run that is stuck before its end |
| ChainProgress.ChainBackpressure | src/thread_pool.rs:85-89 | the stages together hold at most the sum of their queue sizes and thread counts, barrier commands counted until they have left the barrier |
| ChainConservation.OwnPlaces | examples/flush_thread_local.rs:68-78 | a worker's step moves values between queue, hand, thread-local set and next stage and loses none; only inserting a value already in the set merges |
| ChainConservation.ConservationThroughout | examples/flush_thread_local.rs:153-208 | at every step each value sent is queued, in execution, in a thread-local set or collected; with different sources in exactly one of these places |
| ChainConservation.ChainDelivers | examples/fetch_thread_local.rs:129-151 | at the end the collected set is the set of the sources; with different sources, or without accumulating stages, each came out as often as it was sent |
| ChainConservation.StagesExecuteOnce | examples/pipeline.rs:159-164 | in every stage every command was executed exactly once |
| ChainLinks.LinkInPlace | examples/pipeline.rs:126-148 | at every moment of every run each worker finds the link to the next stage that set_next has set |
| ChainPlay.StaysOnTrack | examples/pipeline.rs:150-164 | whatever the schedule, main's moves are a run of the chain, and what is left of its program is what is left to do in the state |
| ChainPlay.NextOrWorker | examples/pipeline.rs:150-164 | until its end, main's next move or a worker's is possible, if the current stop tokens fit |
| LinkPlay.AllGetLinked | examples/pipeline.rs:126-148 | main links all stages for some schedule |
| Flow.ExampleGetsThrough | examples/pipeline.rs:142-173 | whatever the stages and the sources, main gets to its end for some schedule, if every stage has room for its stop tokens |
| Flow.RunExample | examples/pipeline.rs:142-173 | is the program of main, whatever the schedule: at its end the set read back equals the set of the sources; before, main's next step or a worker's is possible, while it links the stages and, given room for the tokens, afterwards |

## Left out

- crossbeam's ArrayQueue and Backoff, and the standard library's Mutex, Condvar, Barrier and threads: foreign code; their standard meaning is part of the steps, without lock poisoning. No fairness is assumed: completion is stated as bounded runs that cannot stop before the end.
- Panicking commands, panic payloads, the panicking default error handler and the text of errors: not part of the protocol; an error is a number.
- File input and output, downloads, hashing, logging, thread names and the RwLock around the pools of the examples: only the flow of the items and the order of shutdown is kept.
- ThreadPoolObject.ThreadPool.Shutdown: only the first shutdown of a pool, because a second one serves nothing: it waits for a queue that nobody empties any more, or sends stop tokens to threads that have left or are leaving.
- ThreadPoolObject.ThreadPool.constructor: leaves out the start barrier, which only makes sure that all threads exist when `new` returns; the protocol begins after it.
- The thread pool over the steps of its queue: the pool's transition system uses the atomic queue that both queues are proved to refine; the two models are not composed into one.
- `ThreadPoolBuilder`, the display of `QueueType`, `command.rs`, `lib.rs`, and the benchmarks: setters and plumbing.
- Calls that never end: a method of the imperative models is given a finite schedule and says so when it is still blocked at its end.
