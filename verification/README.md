# Verification of thread_utils

A Dafny 4.11 model of the threading library: its two lock-free queues, the task manager, the
data-flow-graph run time, the thread pool, the blocked matrix product that runs as a data flow or on
the task manager, and the sequential queues.  Everything is proved for all inputs; the concurrent
parts are proved for every interleaving of any number of threads.

## How it is organised

The concurrent parts are machines over their shared accesses.  A state holds the shared memory, a
program counter with locals for each thread, and history that the program does not have (tickets,
the chain of linked nodes, where each operation is, how often it ran).  `Next` is one access of one
thread, compare-exchanges may fail spuriously, and a run is any schedule of steps.  An invariant is
proved inductive, and the results are read off it.  What a call promises is stated from its start to
its return, whatever the other threads do meanwhile; that nothing is left undone is stated of threads
that run alone, and of states in which no thread can take a step.  Where the program works on objects
in place and one thread at a time, the model is a class with the same fields and loops.

- `RingIndex`: masking, laps, and the live part of a power-of-two ring.
- `BoundedRing`: the Vyukov ring.  `LinkedQueue`: the Michael-Scott queue with its node pool.
  `BoundedRingCalls`, `LinkedQueueCalls`: their calls from start to answer, and calls left alone.
- `FiniteOverflowQueue` (module `SequentialQueues`): both queues as classes, and their composition.
  `OverflowRuns`: the same composition under concurrency, over the accesses of both machines.
  `OverflowCalls`: its calls left alone.  `AtomicBag`: the bag that it is to its callers.
- `CacheQueue`, `CommQueue`: the worker cache and the communicator queue as classes.
- `TaskManager`, `TaskManagerRuns`: the task manager and what its runs promise.  `TaskManagerCalls`:
  what becomes of the operations that calls push, permits and flags.  `TaskManagerAlone`: a worker that
  runs alone, shutdown, and rest.  `ManagerQueues`: the task manager over group queues that are called
  and answer.
- `ThreadPool`: the pool, its handles and their mutexes.  `ThreadPoolCalls`: launches and waits from
  start to return, a worker alone, and shutdown.
- `Graph` (module `Graphs`): building a graph and sending along its edges, as classes.
- `DataFlow`, `DataFlowData`, `DataFlowWake`: the workers of the data-flow run time over any graph:
  concurrency cap, conservation of data, wake-ups.  `DataFlowCalls`: calls from start to return, permits
  and shutdown.  `DataFlowAlone`: one thread left alone, and rest.  `DataFlowReach`: which queues data
  can come to.  `DataFlowDrive`, `DataFlowStranding`: where the scan of one worker leads, and from that
  the runs that strand data.
- `Common`: vocabulary and arithmetic that several parts share.
- `Tiles`, `BlockedProduct`, `BlockedProductRuns`: tiles, and the matrix product as a machine over
  handler calls in any order.  `DgemmTasks`: its handlers on arrays, tied to that machine.
  `DirectProduct`: the product run by the task manager without a data-flow graph.

The layers fit together.  `DataFlow.StatesExclude` and `DataFlowData` justify that
`BlockedProduct` takes a state handler as one step and executes each message once;
`BlockedProductRuns.SumsDoNotOverlap` justifies the same for the sum task; `LinkedQueue` justifies
that `ThreadPool` takes its queue as atomic.  For the queues of the task manager there are two steps:
the overflow queue shows its callers the calls and answers of a bag whose calls take effect at one
moment (`AtomicBag.EveryRunIsAtomic`), and the task manager over such bags runs as `TaskManager` does,
where a call is one step and a pop may miss (`ManagerQueues.EveryRunIsAManagerRun`).  In
`DirectProduct` the task manager and the product are one machine: a zero operation counter means that
C is done (`DirectProduct.WaitMeansProduct`).

One thing does not fit.  `BlockedProductRuns.CompleteRunsSendTheResult` and
`CompleteRunsComputeTheProduct` speak of runs that cannot go on, in which every message has been
delivered and handled.  The run time does not guarantee that for nodes like the driver's, whose states
have cap one and whose split task has cap three in one group of forty workers
(tests/dgemm/dgemm.cpp:294-336): by `DataFlowStranding.StrandsExactlyWhenCapped` each queue of the
states and of the split task can be left with data and every worker asleep, in some run with some
outside data and some results.  What has been sent is right in any case (`ResultIsTheProduct`); that a
result is sent is not promised.

## What the proofs found

- The ring needs at least two cells.  With `SIZE` 1, which the compile-time check accepts, a second
  push overwrites the first value (`BoundedRing.OneCellOverruns`).
- Data can be stranded: left in a queue with no permit and every worker of the group asleep.  In any
  graph, at any queue, some run strands data if and only if the node's `max_thread_count` is smaller
  than the number of workers of its group and data can come to the queue, for a state node from
  elsewhere than the node itself (`DataFlowStranding.StrandsExactlyWhenCapped`).  Either the workers
  inside have just seen an empty queue, and the one that was woken for the data, or brought it, is
  turned away by the check on `thread_count`; or, at a task that sends data to itself, a worker stalled
  between its late `fetch_add` and the decrement keeps the count up while another leaves data behind.
  A state that alone feeds its queue always looks at it once more.  State nodes have cap one, so any
  other queue of a state strands data in a group of two workers or more: in the driver also the queue
  of finished tiles, which comes to the sum state by way of the sum task.
- After an overflow, `TU_FiniteOverflowQueue` reorders (`SequentialQueues.OverflowReorders`).  A run
  is first in, first out if and only if no push of it finds room in the ring while the overflow part
  holds data (`SequentialQueues.FifoExactlyInOrder`).
- The matrix product never sends its result when a dimension is empty: the counter starts at zero
  and is only tested after a decrement (`BlockedProductRuns.CompleteRunsSendTheResult`).
- `tu_tp_op_done` may see zero while a worker has yet to notify and to release the handle's mutex:
  some run gets there from the start, with any number of workers (`ThreadPool.PollerMayBeEarly`).  With
  the count at zero the handle may be destroyed if and only if its mutex is free or in the hands of a
  waiter (`ThreadPool.FinishedAtZero`).
- `tu_add_output` gives the node the sink as such: from then on its results of every output type of
  the graph are sunk, not only those of the type it was added for (`Graphs.Dfg.Result`).

## Model

| member | source | states |
|---|---|---|
| `RingIndex.MaskIsRemainder` | src/thread_utils/data_structures/ring_buffer.hpp:8-11 | `idx & (2^k - 1)` is `idx % 2^k`, for every index |
| `RingIndex.ValidSizeIsPow2` | src/thread_utils/data_structures/ring_buffer.hpp:7-8 | the compile-time check on the size accepts exactly the powers of two |
| `RingIndex.SlotIsRemainder` | src/thread_utils/data_structures/cache_queue.hpp:43-77 | for every accepted size, masking selects the cell `idx % size` |
| `RingIndex.SameSlot` | src/thread_utils/data_structures/ring_buffer.hpp:11 | counters that select the same cell are at least one lap apart |
| `RingIndex.NextLap` | src/thread_utils/data_structures/ring_buffer.hpp:11 | one lap later the same cell is selected again |
| `BoundedRing.InitInv` | src/thread_utils/data_structures/finite_lock_free_queue.hpp:61-66 | the constructor establishes the ring invariant, for every accepted size of at least two |
| `BoundedRing.NextKeepsInv` | src/thread_utils/data_structures/finite_lock_free_queue.hpp:68-114 | every atomic access of any thread, spurious exchange failures included, keeps it |
| `BoundedRing.RunKeepsInv` | src/thread_utils/data_structures/finite_lock_free_queue.hpp:68-114 | so does every interleaving of any number of pushers and poppers |
| `BoundedRing.TicketFifo` | src/thread_utils/data_structures/finite_lock_free_queue.hpp:68-114 | in every run from the constructor `head <= tail <= head + size`, each ticket has one winner, and the pop of ticket i gets the value of the push of ticket i |
| `BoundedRing.StepRefinesQueue` | src/thread_utils/data_structures/finite_lock_free_queue.hpp:78-88 | the machine refines a queue: winning a tail ticket appends, winning a head ticket removes the first |
| `BoundedRing.PublishedStays` | src/thread_utils/data_structures/finite_lock_free_queue.hpp:87-88 | a published value is not overwritten before its pop releases the cell |
| `BoundedRing.PushWins` | src/thread_utils/data_structures/finite_lock_free_queue.hpp:77-79 | a successful tail exchange finds its cell free and serving exactly this ticket |
| `BoundedRing.PopWins` | src/thread_utils/data_structures/finite_lock_free_queue.hpp:101-103 | a successful head exchange finds its cell full and serving exactly this ticket |
| `BoundedRing.PopFalseMeaning` | src/thread_utils/data_structures/finite_lock_free_queue.hpp:105-106 | when `pop` is about to answer false, `head` equals its h, and the ring is empty or the producer of ticket h has not published |
| `BoundedRing.PushFalseMeaning` | src/thread_utils/data_structures/finite_lock_free_queue.hpp:81-82 | when `push` is about to answer false, `tail` equals its t, and the ring is full or the consumer of ticket t - size has not released |
| `BoundedRingCalls.AnswersMean` | src/thread_utils/data_structures/finite_lock_free_queue.hpp:68-114 | every step of every thread: a call comes to answer false only from its test, `tail` (or `head`) being at its ticket and the ring being full (empty) or the cell still being released (published); never from a lost exchange; true and a value only from the store that ends its own ticket |
| `BoundedRingCalls.PushTakesEffectOnce` | src/thread_utils/data_structures/finite_lock_free_queue.hpp:68-90 | a whole `push` in any run: one that answers true has won exactly one ticket, with its value; one that answers false has won none |
| `BoundedRingCalls.PopTakesEffectOnce` | src/thread_utils/data_structures/finite_lock_free_queue.hpp:92-114 | a whole `pop` in any run: one that answers has won exactly one ticket and returns the value pushed under it; one that answers false has won none |
| `BoundedRingCalls.LonePush` | src/thread_utils/data_structures/finite_lock_free_queue.hpp:68-90 | a `push` left alone at any of its accesses, after any number of spurious failures, comes to the answer and the contents of a queue |
| `BoundedRingCalls.LonePop` | src/thread_utils/data_structures/finite_lock_free_queue.hpp:92-114 | the same for a `pop` |
| `BoundedRingCalls.LoneCalls` | src/thread_utils/data_structures/finite_lock_free_queue.hpp:68-114 | whole calls left alone: `push` fails exactly on a full ring and else appends, `pop` fails exactly on an empty one and else takes the first |
| `BoundedRing.SoloPush` | src/thread_utils/data_structures/finite_lock_free_queue.hpp:68-90 | with no other call in flight `push` fails exactly on a full ring, and else appends |
| `BoundedRing.SoloPop` | src/thread_utils/data_structures/finite_lock_free_queue.hpp:92-114 | with no other call in flight `pop` fails exactly on an empty ring, and else takes the first value |
| `BoundedRing.OneCellOverruns` | src/thread_utils/data_structures/finite_lock_free_queue.hpp:76-88 | a ring of one cell accepts a second push before any pop and loses the first value |
| `BoundedRing.BoundHoldsFromTwoCells` | src/thread_utils/data_structures/finite_lock_free_queue.hpp:38-40 | of the accepted sizes, exactly those of at least two keep `tail <= head + size` in every run |
| `LinkedQueue.InitInv` | src/thread_utils/data_structures/lock_free_queue.hpp:82-92 | the constructor establishes the invariant of chain, pool, tags and threads |
| `LinkedQueue.NextKeepsInv` | src/thread_utils/data_structures/lock_free_queue.hpp:113-207 | every atomic access of any thread keeps it, node release and spurious failures included |
| `LinkedQueue.RunKeepsInv` | src/thread_utils/data_structures/lock_free_queue.hpp:113-207 | so does every interleaving |
| `LinkedQueue.LinkIsAtTheEnd` | src/thread_utils/data_structures/lock_free_queue.hpp:124-128 | the link exchange succeeds only on the last node of the chain, never on a released one |
| `LinkedQueue.StepRefinesQueue` | src/thread_utils/data_structures/lock_free_queue.hpp:113-170 | the link exchange appends exactly the pushed value, the head exchange removes exactly the first value and that value is returned; no other access changes the queue |
| `LinkedQueue.RunIsFifo` | src/thread_utils/data_structures/lock_free_queue.hpp:113-170 | over whole runs, what was taken followed by what is left is what was linked, in order |
| `LinkedQueue.FalseMeansEmpty` | src/thread_utils/data_structures/lock_free_queue.hpp:146-152 | every false answer of `pop` has a moment between call and answer, its load of `next`, at which the queue was empty |
| `LinkedQueueCalls.AnswersMean` | src/thread_utils/data_structures/lock_free_queue.hpp:112-170 | every step of every thread: a `push` leaves its retry loop only by putting its own value at the back, a `pop` only by taking the first value, which it will return, or to answer false for a queue that was empty at a moment of the call |
| `LinkedQueueCalls.PushTakesEffectOnce` | src/thread_utils/data_structures/lock_free_queue.hpp:112-137 | a whole `push` in any run puts exactly its value at the back, once, and takes nothing |
| `LinkedQueueCalls.PopTakesEffectOnce` | src/thread_utils/data_structures/lock_free_queue.hpp:139-170 | a whole `pop` in any run takes exactly the value it returns, once, from the front; one that answers false takes nothing, and the queue was empty at a moment of the call |
| `LinkedQueueCalls.SwingReaches` | src/thread_utils/data_structures/lock_free_queue.hpp:135-136 | a `push` whose last exchange does not fail spuriously leaves the tail at its node or past it |
| `LinkedQueueCalls.LonePush` | src/thread_utils/data_structures/lock_free_queue.hpp:112-137 | a `push` left alone at any of its accesses, wherever the others stopped and after any number of spurious failures, returns with its value at the back |
| `LinkedQueueCalls.LonePop` | src/thread_utils/data_structures/lock_free_queue.hpp:139-170 | the same for a `pop`, the tail lagging or not |
| `LinkedQueueCalls.LoneCalls` | src/thread_utils/data_structures/lock_free_queue.hpp:112-170 | whole calls left alone answer as a queue does |
| `LinkedQueue.StaleExchangeFails` | src/thread_utils/data_structures/lock_free_queue.hpp:119-168 | a stalled push or pop whose node was dequeued, released or not, cannot succeed with its stale exchange |
| `LinkedQueue.LiveNext` | src/thread_utils/data_structures/lock_free_queue.hpp:119-150 | the `next` of a node not yet dequeued leads to its successor, or is null exactly at the end |
| `LinkedQueue.DestructorFreesEachNodeOnce` | src/thread_utils/data_structures/lock_free_queue.hpp:95-110 | with no call in flight the two loops of the destructor delete every allocated node exactly once |
| `SequentialQueues.FiniteQueue.constructor` | src/thread_utils/data_structures/finite_lock_free_queue.hpp:61-66 | the stamps `0, 1, ...` for every size the compile-time check accepts; they are those of an empty queue if and only if there are at least two cells |
| `SequentialQueues.FiniteQueue.Push` | src/thread_utils/data_structures/finite_lock_free_queue.hpp:68-90 | the retry loop on arrays: fails exactly when full, else appends, however many exchanges fail spuriously |
| `SequentialQueues.FiniteQueue.Pop` | src/thread_utils/data_structures/finite_lock_free_queue.hpp:92-114 | the retry loop on arrays: fails exactly when empty, else takes the oldest |
| `SequentialQueues.LockFreeQueue.constructor` | src/thread_utils/data_structures/lock_free_queue.hpp:82-92 | one dummy node, empty queue |
| `SequentialQueues.LockFreeQueue.Push` | src/thread_utils/data_structures/lock_free_queue.hpp:112-137 | appends, also when the tail was left lagging and when exchanges fail |
| `SequentialQueues.LockFreeQueue.Pop` | src/thread_utils/data_structures/lock_free_queue.hpp:139-170 | false exactly when empty, else the first value; the old head goes to the pool without disturbing the chain |
| `SequentialQueues.LockFreeQueue.ReleaseNode` | src/thread_utils/data_structures/lock_free_queue.hpp:192-207 | the node heads the pool, its `next` overwritten |
| `SequentialQueues.FiniteOverflowQueue.Push` | src/thread_utils/data_structures/finite_overflow_queue.hpp:37-43 | into the ring if it has room, else into the overflow queue |
| `SequentialQueues.FiniteOverflowQueue.Pop` | src/thread_utils/data_structures/finite_overflow_queue.hpp:45-51 | from the ring if it is not empty, else from the overflow queue |
| `SequentialQueues.PopTakesFirst` | src/thread_utils/data_structures/finite_overflow_queue.hpp:45-51 | a pop fails exactly when both parts are empty, and otherwise takes the first in order |
| `SequentialQueues.PushGoesLast` | src/thread_utils/data_structures/finite_overflow_queue.hpp:37-43 | a push goes last in pop order if and only if the overflow part is empty or the ring full |
| `SequentialQueues.Conserves` | src/thread_utils/data_structures/finite_overflow_queue.hpp:37-51 | in every run, overflow or not, popped plus kept is pushed plus initial, as multisets |
| `SequentialQueues.StaysBehind` | src/thread_utils/data_structures/finite_overflow_queue.hpp:37-51 | two elements in the queue come out, or stay, in their order, whatever is called |
| `SequentialQueues.FifoInOrder` | src/thread_utils/data_structures/finite_overflow_queue.hpp:37-51 | a run whose every push meets that condition is first in, first out |
| `SequentialQueues.FifoExactlyInOrder` | src/thread_utils/data_structures/finite_overflow_queue.hpp:37-51 | with elements that can be told apart, a run is first in, first out if and only if its every push meets that condition |
| `SequentialQueues.FifoWithoutOverflow` | src/thread_utils/data_structures/finite_overflow_queue.hpp:37-51 | a run that never overflows meets it |
| `SequentialQueues.OverflowReorders` | src/thread_utils/data_structures/finite_overflow_queue.hpp:37-51 | a concrete run with an overflow in which a later push overtakes an earlier one |
| `OverflowRuns.MoveIsBagStep` | src/thread_utils/data_structures/finite_overflow_queue.hpp:37-51 | under concurrency, over the accesses of both parts, each step is a step of a client of a bag: a push puts its value in once, a pop takes a value out once or misses, nobody else notices |
| `OverflowRuns.NextKeepsInv` | src/thread_utils/data_structures/finite_overflow_queue.hpp:37-51 | every step keeps the invariants of both parts and of the calls in progress |
| `OverflowRuns.BagIsConserved` | src/thread_utils/data_structures/finite_overflow_queue.hpp:37-51 | in every interleaving what pops took and what the two parts hold is what pushes put in, as multisets |
| `OverflowRuns.FalsePopMeaning` | src/thread_utils/data_structures/finite_overflow_queue.hpp:45-51 | a pop that answers false had a moment in its call at which both parts were empty, or some push had put its value in and not returned |
| `OverflowCalls.LoneCall` | src/thread_utils/data_structures/finite_overflow_queue.hpp:37-51 | a call left alone at any of its accesses comes to its answer, in either part |
| `OverflowCalls.LonePush` | src/thread_utils/data_structures/finite_overflow_queue.hpp:37-43 | a whole `push` left alone puts its value at the back of the ring, and of the overflow queue exactly when the ring is full |
| `OverflowCalls.LonePop` | src/thread_utils/data_structures/finite_overflow_queue.hpp:45-51 | a whole `pop` left alone answers false exactly when both parts are empty, and else takes the first of the ring, or of the overflow queue if the ring is empty |
| `AtomicBag.Mirror` | src/thread_utils/data_structures/finite_overflow_queue.hpp:37-51 | whichever of the excused pops are said to have missed already, some run of the bag with the same calls and answers gets to where the queue is |
| `AtomicBag.EveryRunIsAtomic` | src/thread_utils/data_structures/finite_overflow_queue.hpp:37-51 | so the overflow queue is linearizable: every interleaving shows, in the same order, the calls and answers of a run of a bag in which each push and each pop takes effect at one moment of its call, a pop missing only when the bag is empty or a push has put its value in and not returned |
| `CacheQueues.CacheQueue.constructor` | src/thread_utils/data_structures/cache_queue.hpp:40-44 | empty, for every power-of-two size |
| `CacheQueues.CacheQueue.Cache` | src/thread_utils/data_structures/cache_queue.hpp:69-80 | appends; the front is evicted exactly when the ring is full |
| `CacheQueues.CacheQueue.Pop` | src/thread_utils/data_structures/cache_queue.hpp:82-90 | takes the newest element; false exactly when empty |
| `CacheQueues.CacheQueue.Count` | src/thread_utils/data_structures/cache_queue.hpp:92-95 | the number of elements, never more than the size |
| `CacheQueues.EvictsOldestFirst` | src/thread_utils/data_structures/cache_queue.hpp:69-80 | over any number of pushes, evictions followed by what is kept are the input in order, and exactly the newest stay |
| `TaskManager.InitInv` | src/thread_utils/task_manager/task_manager.cpp:144-158 | the started task manager satisfies the invariant |
| `TaskManager.NextKeepsInv` | src/thread_utils/task_manager/task_manager.cpp:67-282 | every step of any thread keeps it: each operation is in exactly the place, bag or hands it is said to be in, the counter counts those not yet retired, each state has at most one owner |
| `TaskManager.RunKeepsInv` | src/thread_utils/task_manager/task_manager.cpp:67-282 | so does every interleaving |
| `TaskManager.ZeroMeansQuiescent` | src/thread_utils/task_manager/task_manager.cpp:255-267 | counter zero means every operation ever pushed, uncounted cached ones included, has run exactly once, and all queues, caches and state counters are empty |
| `TaskManagerRuns.CounterCountsPending` | src/thread_utils/task_manager/task_manager.cpp:103-265 | in every run `operation_counter` is the number of counted operations not yet retired, so never negative |
| `TaskManagerRuns.WaitMeansAllRan` | src/thread_utils/task_manager/task_manager.cpp:49-55 | whenever `tu_tm_wait_completion` may return, all earlier work has run exactly once and nothing is queued, cached or running |
| `TaskManagerRuns.RunsAtMostOnce` | src/thread_utils/task_manager/task_manager.cpp:193-267 | no operation runs twice |
| `TaskManagerRuns.StateExecsExclude` | src/thread_utils/task_manager/task_manager.cpp:208-236 | two threads draining one state are one thread, its recorded owner, and the counter is positive |
| `TaskManagerRuns.StateQueueIsAttended` | src/thread_utils/task_manager/task_manager.cpp:213-228 | an operation in a state queue has an owner, or a thread between push and `fetch_add` |
| `TaskManagerRuns.CacheFillsAsCacheQueue` | src/thread_utils/task_manager/task_manager.cpp:82-85 | a worker's cache is filled exactly as `TU_CacheQueue` does, and what that evicts is counted and pushed next |
| `TaskManagerRuns.NoLostWakeUp` | src/thread_utils/task_manager/task_manager.cpp:95-113 | before shutdown a non-empty group queue means a permit, a pusher before its release, or a worker still draining |
| `TaskManagerRuns.ShutdownReachesEveryWorker` | src/thread_utils/task_manager/task_manager.cpp:160-171 | after `group_fini` released its permits no worker of the group can block for ever on the semaphore or go back to work |
| `TaskManagerCalls.StepCounts` | src/thread_utils/task_manager/task_manager.cpp:193-267 | a step of a thread starts the exec of at most one operation, its own, and runs no other |
| `TaskManagerCalls.CallsAppend` | src/thread_utils/task_manager/task_manager.cpp:67-113 | the operation that `tu_tm_push_op`, `tu_tm_push_state` or `tu_tm_push_task` pushes has the group and the state that the call names, a task no state; it is the only new one |
| `TaskManagerCalls.OperationsGoTheirWay` | src/thread_utils/task_manager/task_manager.cpp:95-267 | every step of every thread: an operation keeps its group and state, and moves only from its pusher to its group's queue, into the hands of a worker of that group, to be run by it or carried to its state's queue, and so on to its end |
| `TaskManagerCalls.PushedForItsGroup` | src/thread_utils/task_manager/task_manager.cpp:67-113 | in every run what a call pushes for a group stays an operation of it, and only a worker of the group takes it out of a group queue |
| `TaskManagerCalls.PushGoesOn` | src/thread_utils/task_manager/task_manager.cpp:103-112 | a push in progress goes on with each step of its thread: to the end of its group's queue, then to the release of one permit |
| `TaskManagerCalls.PermitsChange` | src/thread_utils/task_manager/task_manager.cpp:112-276 | a group's semaphore gains one permit from each push that returns and one for each worker at shutdown, and loses one for each of its own workers that wakes; nothing else changes it |
| `TaskManagerCalls.ParkedMeansIdle` | src/thread_utils/task_manager/task_manager.cpp:38-55 | in every run a worker whose `parked` flag is up runs nothing, has an empty cache and has subtracted all it ran; one whose flag is down is at work or about to raise it |
| `TaskManagerCalls.CachePopsNewest` | src/thread_utils/task_manager/task_manager.cpp:247-253 | a worker runs its cache to the end, the newest operation first, before it pops the group queue again |
| `TaskManagerCalls.ThenTheCache` | src/thread_utils/task_manager/task_manager.cpp:260-263 | after every operation it runs, counted or cached, it turns to its cache |
| `TaskManagerAlone.LoneWorker` | src/thread_utils/task_manager/task_manager.cpp:255-282 | one permit is enough for any number of operations: a worker that is awake, anywhere in its loop, comes back to the semaphore when left alone, whatever each pop takes; its group queue is then empty, and each operation that was in it, in its cache or its hands has run once and is off the books, or is in the queue of a state that another thread serves |
| `TaskManagerAlone.FiniShuts` | src/thread_utils/task_manager/task_manager.cpp:160-165 | a `group_fini` that raises the flag of each worker and then releases leaves a permit for every worker still to wake |
| `TaskManagerAlone.LoneExit` | src/thread_utils/task_manager/task_manager.cpp:160-282 | from then on each worker of the group exits when it runs, wherever it is |
| `TaskManagerAlone.RestMeansExited` | src/thread_utils/task_manager/task_manager.cpp:160-171 | and the group comes to rest only with every worker gone, so that `join` returns |
| `TaskManagerAlone.RestMeansCompletion` | src/thread_utils/task_manager/task_manager.cpp:49-55 | before shutdown, over groups that have workers, a run comes to rest only with every operation run once, the counter at zero and every worker parked: `tu_tm_wait_completion` returns |
| `ManagerQueues.MissInEffect` | src/thread_utils/task_manager/task_manager.cpp:255-258 | a moment at which a pop from the bag may miss is one at which `TaskManager.MayMiss` holds of the group queue |
| `ManagerQueues.MoveRefines` | src/thread_utils/task_manager/task_manager.cpp:95-113 | each step of the task manager over called queues, other threads going on between call and answer, is one step of `TaskManager` or none |
| `ManagerQueues.EveryRunIsAManagerRun` | src/thread_utils/task_manager/task_manager.cpp:67-282 | so each of its runs is a run of `TaskManager`, the same but for what is in the queues, which agrees as multisets |
| `ManagerQueues.WaitMeansAllRan` | src/thread_utils/task_manager/task_manager.cpp:49-55 | and on a zero counter every operation has run once and the bags are empty |
| `ThreadPool.NextKeepsInv` | src/thread_utils/tools/thread_pool.cpp:18-107 | every access of submitters, waiters and workers keeps the invariant: the decrement and the test after it are two, and `tu_tp_fini` raises the flags one by one before its release |
| `ThreadPool.RunKeepsInv` | src/thread_utils/tools/thread_pool.cpp:30-107 | so does every interleaving |
| `ThreadPool.CountIsOpenJobs` | src/thread_utils/tools/thread_pool.cpp:33-100 | `process_count` is at every moment the number of jobs of the handle still submitted, queued or running |
| `ThreadPool.WaitMeansAllRan` | src/thread_utils/tools/thread_pool.cpp:66-69 | when `tu_tp_op_wait` sees zero, each job of the handle ran exactly once and no worker is left in `tu_tp_progress_op` for it |
| `ThreadPool.ZeroMeansAllRan` | src/thread_utils/tools/thread_pool.cpp:62-64 | also a poll that sees zero means every job ran exactly once |
| `ThreadPool.ZeroIsReachedUnderTheMutex` | src/thread_utils/tools/thread_pool.cpp:98-107 | but whenever the count reaches zero a worker still holds the mutex, with the notification to come |
| `ThreadPool.PollerMayBeEarly` | src/thread_utils/tools/thread_pool.cpp:62-107 | and it happens: with any workers and handles some run from the start gets to a zero count with a worker about to notify |
| `ThreadPool.FinishedAtZero` | src/thread_utils/tools/thread_pool.cpp:62-107 | exactly when a zero count means the handle may be destroyed: if and only if its mutex is free, or held by a waiter |
| `ThreadPool.RestMeansAllRan` | src/thread_utils/tools/thread_pool.cpp:71-96 | before shutdown the pool comes to rest only with every job run and every count zero |
| `ThreadPoolCalls.WaitEndsFinished` | src/thread_utils/tools/thread_pool.cpp:66-69 | whoever moves, a wait goes on until its test finds the count at zero, with every job run and no worker left with the handle |
| `ThreadPoolCalls.WaitReturnsFinished` | src/thread_utils/tools/thread_pool.cpp:66-69 | over whole calls, in every run: between the start of `tu_tp_op_wait` and its return there is a moment at which the jobs of the handle are all run, once, and no worker is left with it |
| `ThreadPoolCalls.LaunchDelivers` | src/thread_utils/tools/thread_pool.cpp:30-60 | a launch that returns has handed over all its jobs, for its handle, and released one permit for each |
| `ThreadPoolCalls.LaunchInOrder` | src/thread_utils/tools/thread_pool.cpp:51-56 | it hands them over in the order in which they were given |
| `ThreadPoolCalls.JobsAreFifo` | src/thread_utils/tools/thread_pool.cpp:83-96 | in every run the workers take jobs in the order in which they were handed over |
| `ThreadPoolCalls.PermitsChange` | src/thread_utils/tools/thread_pool.cpp:18-77 | each worker that wakes takes one permit; a launch gives one for each job and shutdown one for each worker; nothing else changes the semaphore |
| `ThreadPoolCalls.LastNotifies` | src/thread_utils/tools/thread_pool.cpp:98-107 | the waiters are notified exactly when a worker finds the count at zero, and before it frees the mutex |
| `ThreadPoolCalls.LoneWait` | src/thread_utils/tools/thread_pool.cpp:66-69 | a waiter whose jobs are done returns when it runs, and leaves the mutex free |
| `ThreadPoolCalls.LoneWorker` | src/thread_utils/tools/thread_pool.cpp:71-107 | one permit is enough for any number of jobs: a worker that is awake runs alone all that is queued, each once, and sleeps |
| `ThreadPoolCalls.FiniReachesEveryWorker` | src/thread_utils/tools/thread_pool.cpp:18-22 | from the return of the release in `tu_tp_fini` on, in every run, all flags are up and each worker that has still to wake has a permit |
| `ThreadPoolCalls.RestMeansStopped` | src/thread_utils/tools/thread_pool.cpp:23-27 | after that the pool comes to rest only with every worker stopped, so that `join` returns |
| `ThreadPoolCalls.LoneStop` | src/thread_utils/tools/thread_pool.cpp:71-81 | and each worker stops when it runs alone, wherever it is |
| `Graphs.ExecNode.constructor` | src/thread_utils/dfg/graph.cpp:7-23 | an empty queue per input type, no receivers |
| `Graphs.Graph.constructor` | src/thread_utils/dfg/graph.cpp:49-58 | an empty graph with the given boundary types |
| `Graphs.Graph.AddNode` | src/thread_utils/dfg/graph.cpp:60-68 | a new node with no receivers; the wiring invariant is kept |
| `Graphs.Graph.Edge` | src/thread_utils/dfg/graph.cpp:328-341 | fails, changing nothing, exactly when sender or receiver lacks the type; else the output has the receiver and its queue besides those it had, the other outputs are as before, and the edge joins those drawn; at every moment an output's receivers are those to which an edge of its type was drawn, its `queues` their input queues |
| `Graphs.Graph.Edges` | src/thread_utils/dfg/graph.cpp:372-383 | the same for every common type, and for no other |
| `Graphs.Graph.AddInput` | src/thread_utils/dfg/graph.cpp:216-229 | registers an input node exactly when both sides have the type |
| `Graphs.Graph.AddOutput` | src/thread_utils/dfg/graph.cpp:255-277 | registers an output node; the sink is per node, not per type |
| `Graphs.QueueOfOne` | src/thread_utils/dfg/graph.cpp:339-340 | a queue listed for some receivers is the queue of exactly one of them |
| `Graphs.Dfg.PushAll` | src/thread_utils/dfg/graph.cpp:433-435 | each queue gets the data exactly once |
| `Graphs.Dfg.NotifyAll` | src/thread_utils/dfg/graph.cpp:393-438 | each group gets one release for each of its receivers |
| `Graphs.Dfg.Send` | src/thread_utils/dfg/graph.cpp:433-438 | one copy for each receiver, none for any other queue of the graph, one release each |
| `Graphs.Dfg.Result` | src/thread_utils/dfg/graph.cpp:402-440 | one copy for each node to which an edge of the type was drawn from this one, and none elsewhere; the sink gets it if the graph puts the type out; null is refused |
| `Graphs.Dfg.PushData` | src/thread_utils/dfg/dfg.cpp:109-129 | nothing for an unknown type, else one copy and one release for each input node |
| `Graphs.Dfg.Dequeue` | src/thread_utils/dfg/graph.cpp:469-480 | nothing exactly when all input queues are empty, else the first datum of one of them |
| `DataFlow.CapHolds` | src/thread_utils/dfg/dfg.cpp:224-236 | in every run over every graph `thread_count` is the number of workers between `fetch_add` and decrement, and at most `max_thread_count` process the node, despite the racy check |
| `DataFlow.StatesExclude` | src/thread_utils/dfg/graph.cpp:65-68 | a state node, created with cap one, is processed by one worker at a time |
| `DataFlow.NextKeepsGates` | src/thread_utils/dfg/dfg.cpp:214-266 | every step keeps the gates of all nodes |
| `DataFlowData.NextKeepsData` | src/thread_utils/dfg/dfg.cpp:154-212 | every step keeps what queues, deliveries and hands of workers hold |
| `DataFlowData.OneCopyEach` | src/thread_utils/dfg/graph.cpp:433-435 | in every run a call has put exactly one copy into the queue of each receiver it came to, none elsewhere |
| `DataFlowData.ReturnedCallsAreComplete` | src/thread_utils/dfg/graph.cpp:433-438 | a `tu_result` or `tu_dfg_push_data` that returns has come to all its receivers and notified each |
| `DataFlowData.QueuesAreFifo` | src/thread_utils/dfg/dfg.cpp:183-212 | queues are first in, first out, and a popped datum is done or in exactly one worker's hand |
| `DataFlowData.DataIsConserved` | src/thread_utils/dfg/dfg.cpp:154-212 | for each node and type, pushed = executed + executing + queued |
| `DataFlowCalls.CallsReachTheirReceivers` | src/thread_utils/dfg/graph.cpp:402-440 | in every run, whatever other threads do: when `tu_result` or `tu_dfg_push_data` returns, each node that the graph names as receiver of the type has got exactly one copy, no other queue any, and all of them were notified |
| `DataFlowCalls.CallsKeepOrder` | src/thread_utils/dfg/graph.cpp:433-438 | in every run each call has its own delivery; `tu_result` has pushed to all receivers before it notifies one, `tu_dfg_push_data` notifies each before the next |
| `DataFlowCalls.PermitsChange` | src/thread_utils/dfg/dfg.cpp:93-256 | a notification gives one permit to the receiver's group, shutdown one for each worker, a worker that wakes takes one of its own group; nothing else changes a semaphore |
| `DataFlowCalls.TermShutsDown` | src/thread_utils/dfg/dfg.cpp:96-100 | `tu_dfg_term`, group by group, leaves all flags up and a permit for every worker that has still to wake |
| `DataFlowAlone.LoneCall` | src/thread_utils/dfg/graph.cpp:433-438 | a call left alone returns |
| `DataFlowAlone.LoneScan` | src/thread_utils/dfg/dfg.cpp:214-266 | the scan of a worker left alone ends, from any place, wherever the others have stopped and in whatever order it looks at queues |
| `DataFlowAlone.LonePassesFull` | src/thread_utils/dfg/dfg.cpp:224-228 | a worker that comes to a full node passes by and leaves its count alone |
| `DataFlowAlone.VisitBegins` | src/thread_utils/dfg/dfg.cpp:228-233 | a worker that the `fetch_add` admits begins a visit, with nothing taken yet |
| `DataFlowAlone.LoneVisit` | src/thread_utils/dfg/dfg.cpp:180-212 | a visit left alone empties a state; from a task it takes `max_dequeue_count` data, at least one, or all there are if that is less; other nodes lose nothing, and the process count grows by what was taken |
| `DataFlowAlone.LoneStop` | src/thread_utils/dfg/dfg.cpp:250-266 | once `tu_dfg_term` has come past a group, each of its workers stops when it runs, asleep, in its scan or inside an exec that calls nothing more |
| `DataFlowAlone.RestMeansStopped` | src/thread_utils/dfg/dfg.cpp:93-107 | and they come to rest only stopped, so that `join` returns |
| `DataFlowAlone.RestMeansExecuted` | src/thread_utils/dfg/dfg.cpp:183-266 | before that, a run comes to rest only with every datum executed that was pushed to a node whose cap is at least its group's worker count, and the workers of the group asleep |
| `DataFlowWake.Open` | src/thread_utils/dfg/dfg.cpp:225-228 | a worker of a group no larger than the cap always finds the node open |
| `DataFlowWake.NextKeepsAttended` | src/thread_utils/dfg/dfg.cpp:183-266 | every step keeps: a non-empty queue has a permit, a release owed, or a worker bound to visit it |
| `DataFlowWake.NothingStranded` | src/thread_utils/dfg/dfg.cpp:214-266 | so no data is stranded, in any run over any graph, at a node whose cap is at least its group's worker count |
| `DataFlowReach.NextKeepsReach` | src/thread_utils/dfg/dfg.cpp:183-266 | every step keeps: a queue with data is one that a way from outside leads to, and data that only the state itself can have sent have a worker at the state that will look at that queue before it leaves |
| `DataFlowReach.DataCameAlongAWay` | src/thread_utils/dfg/graph.cpp:402-440 | in every run data are only in queues that a way from the inputs leads to, through nodes that admit a worker |
| `DataFlowReach.StrandedRunMayBeLeft` | src/thread_utils/dfg/dfg.cpp:183-212 | so no run strands data at a queue of a state that the state alone feeds |
| `DataFlowDrive.Parks` | src/thread_utils/dfg/dfg.cpp:214-266 | with everybody else standing still, wherever, every scan of a worker ends with the worker asleep |
| `DataFlowDrive.ComesInside` | src/thread_utils/dfg/dfg.cpp:214-266 | a worker on its way to an open node gets to stand inside it, its queues empty and nothing executed in the pass |
| `DataFlowDrive.ComesToDoor` | src/thread_utils/dfg/dfg.cpp:225-228 | it can also be stopped between the check on `thread_count` and the `fetch_add` |
| `DataFlowDrive.Fetches` | src/thread_utils/dfg/dfg.cpp:183-266 | a worker bound for a queue with data at an open node comes to execute a datum there |
| `DataFlowDrive.ParksOutside` | src/thread_utils/dfg/dfg.cpp:225-266 | a worker that finds a node full empties the other open nodes of its group and sleeps, the full node's queues untouched |
| `DataFlowStranding.Completes` | src/thread_utils/dfg/graph.cpp:433-438 | a delivery under way can be completed while nobody else moves: every receiver has data and its group a permit |
| `DataFlowStranding.Carries` | src/thread_utils/dfg/dfg.cpp:183-266 | along any way from the inputs a worker comes to execute at any node before the end, others standing still |
| `DataFlowStranding.FillUp` | src/thread_utils/dfg/dfg.cpp:225-243 | workers fed from outside, or by one that executes at any node, come to stand inside the node with nothing to do until it is full |
| `DataFlowStranding.NeighbourStrands` | src/thread_utils/dfg/dfg.cpp:225-266 | a worker that brings the last datum from another node to a full one is itself turned away, and the datum stays |
| `DataFlowStranding.FillsBatch` | src/thread_utils/dfg/dfg.cpp:183-212 | a worker of a task that sends data to its own node leaves some there when its batch is full |
| `DataFlowStranding.LoopStrands` | src/thread_utils/dfg/dfg.cpp:225-240 | at a task that feeds itself a worker stalled between `fetch_add` and decrement turns the others away from such data |
| `DataFlowStranding.CappedStrands` | src/thread_utils/dfg/dfg.cpp:225-266 | in any graph, at any queue that data can come to (for a state, not only from itself), and with any cap below the number of workers, some run from the start leaves data with no permit and every worker asleep |
| `DataFlowStranding.StrandsExactlyWhenCapped` | src/thread_utils/dfg/dfg.cpp:214-266 | for every queue of every graph, with any groups, caps and batches: some run leaves data there with no permit and every worker asleep if and only if the cap is smaller than the number of workers of the group and data can come to the queue, for a state by a way whose last step is from another node or from outside |
| `DataFlowStranding.InputsStrandExactlyWhenCapped` | src/thread_utils/dfg/dfg.cpp:109-129 | at every queue that outside data is pushed to, the cap alone decides |
| `Tiles.SplitTask` | tests/dgemm/dfg_dgemm.cpp:8-38 | the nested loops of the split send the tiles of the grid, in order |
| `Tiles.EachTileOnce` | tests/dgemm/dfg_dgemm.cpp:13-35 | each tile is sent exactly once and nothing else |
| `Tiles.StartsInside` | tests/dgemm/dgemm.cpp:270-272 | a tile exists exactly when it starts inside the side: the driver's tile counts are right |
| `Tiles.TilesPartition` | tests/dgemm/dfg_dgemm.cpp:19-24 | every entry lies in exactly one tile, edge tiles included |
| `Tiles.AllBlocks` | tests/dgemm/dfg_dgemm.cpp:52-54 | the products over all inner tiles add up to the whole scalar product |
| `BlockedProductRuns.TotalIsNumberOfJobs` | tests/dgemm/dgemm.cpp:326 | the counter of the sum state starts at the number of partial products |
| `BlockedProductRuns.StartInv` | tests/dgemm/dgemm.cpp:315-330 | the initial states of the product and sum states satisfy the invariant, given that count |
| `BlockedProductRuns.NextKeepsInv` | tests/dgemm/dfg_dgemm.cpp:8-165 | every handler call, in any order, keeps it |
| `BlockedProductRuns.RunKeepsInv` | tests/dgemm/dfg_dgemm.cpp:8-165 | so does every run |
| `BlockedProductRuns.ArriveKeeps` | tests/dgemm/dfg_dgemm.cpp:78-114 | the null-slot assertions never fail, and the join stays exact |
| `BlockedProductRuns.JoinIsExact` | tests/dgemm/dfg_dgemm.cpp:78-114 | the jobs sent are at every moment exactly those whose A and B tile have both arrived, each once |
| `BlockedProductRuns.TakePCKeepsCount` | tests/dgemm/dfg_dgemm.cpp:158-163 | the counter is positive before every decrement and reaches zero exactly with the last job |
| `BlockedProductRuns.SumsDoNotOverlap` | tests/dgemm/dfg_dgemm.cpp:60-76 | sum tasks in flight work on different C tiles, hence on different entries of C |
| `BlockedProductRuns.ResultComesLast` | tests/dgemm/dfg_dgemm.cpp:150-165 | in every run at most one result is sent, and only after every partial product was added |
| `BlockedProductRuns.ResultIsTheProduct` | tests/dgemm/dfg_dgemm.cpp:150-165 | whatever the order of arrivals and completions, when a result was sent C is its initial value plus A * B |
| `BlockedProductRuns.CompleteRunsSendTheResult` | tests/dgemm/dfg_dgemm.cpp:116-165 | a run in which every message was delivered and handled has done every job, and has sent its result if and only if no dimension is empty |
| `BlockedProductRuns.CompleteRunsComputeTheProduct` | tests/dgemm/dfg_dgemm.cpp:60-165 | such a run has computed C + A * B |
| `BlockedProductRuns.NextKeepsMatrix` | tests/dgemm/dfg_dgemm.cpp:60-76 | every handler call keeps: each entry of C is its initial value plus the blocks of the jobs added so far |
| `BlockedProductRuns.EveryRunEnds` | tests/dgemm/dfg_dgemm.cpp:8-165 | every run is finite: its length plus the calls still to come is fixed by the problem, so each call brings the end one nearer |
| `DirectProduct.CallUsesUp` | tests/dgemm/dgemm.cpp:167-236 | a handler call uses up its own message, which was there once, and no other |
| `DirectProduct.MoveKeepsInv` | tests/dgemm/dgemm.cpp:100-236 | every step of the task manager and of the handlers it runs keeps: each message still to be handled is in the hands of an exec or of the caller, or is exactly one pushed operation that has not run, and the other way round |
| `DirectProduct.HandlersExclude` | tests/dgemm/dgemm.cpp:167-236 | two execs of handlers that share data exclude each other: those for tiles of A and B, which share the slots of the product state, and those for C tiles, partial products and finished sums, which share the sum state |
| `DirectProduct.DueIsCounted` | tests/dgemm/dgemm.cpp:238-242 | work that is due keeps the operation counter from zero, unless the caller has still to push it |
| `DirectProduct.WaitMeansProduct` | tests/dgemm/dgemm.cpp:238-242 | when `tu_tm_wait_completion` returns after the three pushes, in every run with any groups and workers, C is its initial value plus A * B and every operation has run once |
| `DgemmTasks.ProductState.constructor` | tests/dgemm/dgemm.cpp:315-321 | all slots free |
| `DgemmTasks.ProductState.PairWithB` | tests/dgemm/dfg_dgemm.cpp:86-94 | the loop pairs the A tile with every B tile present in the row of its column |
| `DgemmTasks.ProductState.PairWithA` | tests/dgemm/dfg_dgemm.cpp:105-113 | the loop pairs the B tile with every A tile present in the column of its row |
| `DgemmTasks.ProductState.ExecTileA` | tests/dgemm/dfg_dgemm.cpp:78-95 | stores the tile in its slot and sends the jobs the machine sends |
| `DgemmTasks.ProductState.ExecTileB` | tests/dgemm/dfg_dgemm.cpp:97-114 | the same for a B tile |
| `DgemmTasks.SumState.constructor` | tests/dgemm/dgemm.cpp:323-330 | empty queues and slots, counter at the number of partial products |
| `DgemmTasks.SumState.ExecTileC` | tests/dgemm/dfg_dgemm.cpp:116-131 | on arrays, what the machine's sum state does with a C tile |
| `DgemmTasks.SumState.ExecTileP` | tests/dgemm/dfg_dgemm.cpp:133-148 | the same for a partial product |
| `DgemmTasks.SumState.ExecPCTiles` | tests/dgemm/dfg_dgemm.cpp:150-165 | the same for a finished sum, the last one sending the result |
| `DgemmTasks.SumTask` | tests/dgemm/dfg_dgemm.cpp:60-76 | the in-place loops add the partial product to exactly the entries of the C tile |
| `DgemmTasks.TilesFit` | tests/dgemm/dfg_dgemm.cpp:43-66 | the shapes asserted by the product and sum tasks hold for every job |
| `DgemmTasks.ProductIsBlock` | tests/dgemm/dfg_dgemm.cpp:48-54 | the product asked of the library is the block the job stands for |
| `DgemmTasks.SumTaskAddsBlock` | tests/dgemm/dfg_dgemm.cpp:68-74 | the loops, given that product, do what the machine's sum step does |
| `CommQueues.CommQueue.constructor` | tests/mpi/comm_queue.hpp:20-27 | all indices from 1 are free, in order, for every capacity |
| `CommQueues.CommQueue.Add` | tests/mpi/comm_queue.hpp:116-139 | appends at a fresh address, the one freed last or a new one |
| `CommQueues.CommQueue.Unlink` | tests/mpi/comm_queue.hpp:148-176 | the pointer updates of `remove`, node by node |
| `CommQueues.CommQueue.Remove` | tests/mpi/comm_queue.hpp:148-176 | takes out the element at any live address and nothing else, keeps the others in order, puts the address first on the free list, returns the next address; 0 does nothing |
| `CommQueues.CommQueue.Clear` | tests/mpi/comm_queue.hpp:207-215 | no element is left, all addresses are free in order, and the memory keeps its size |
| `CommQueues.CommQueue.Iterate` | tests/mpi/comm_queue.hpp:62-107 | `begin` to `end` terminates and visits the elements in order |
| `CommQueues.CommQueue.At` | tests/mpi/comm_queue.hpp:191-196 | the value at a live address |
| `CommQueues.CommQueue.Size` | tests/mpi/comm_queue.hpp:200 | the number of elements |
| `CommQueues.CommQueue.Empty` | tests/mpi/comm_queue.hpp:204 | true exactly when there are none |
| `CommQueues.CommQueue.Copy` | tests/mpi/comm_queue.hpp:43-50 | an independent queue with the same elements at the same addresses |
| `CommQueues.ApplyKeepsForm` | tests/mpi/comm_queue.hpp:116-215 | used and free addresses always share out 1 to memory size - 1 |
| `CommQueues.StableAddress` | tests/mpi/comm_queue.hpp:116-196 | through any run of adds and removes of other elements an address keeps its value and is not handed out again |
| `CommQueues.DropTakesOut` | tests/mpi/comm_queue.hpp:148-176 | removing an address takes out the one element at it, and changes nothing else but the free list; an unknown address changes nothing |
| `CommQueues.AfterDropGone` | tests/mpi/comm_queue.hpp:116-176 | once removed, an address denotes nothing, through any run, until an add hands it out again |
| `CommQueues.ResetEmpties` | tests/mpi/comm_queue.hpp:207-215 | emptying the queue frees every address, in order, and keeps the memory |
| `CommQueues.OneElementPerAddress` | tests/mpi/comm_queue.hpp:116-176 | a live address denotes one element |
| `CommQueues.MemoryIsThePeak` | tests/mpi/comm_queue.hpp:119-122 | the memory grows to the larger of capacity and peak size, never beyond |

## Left out

- The weak memory model: accesses are sequentially consistent, and the chosen memory orders are not modelled.
- Wrap-around of `size_t` counters, tags and semaphores, and the semaphore's maximum: counters are unbounded.
- Fairness: no scheduler is modelled, so that a call ends is stated of a thread left alone, whose exchanges fail spuriously any finite number of times, and that work ends of runs that come to rest.  A waiter on a condition variable may test again at any time, so what a missing notification would do is not seen; `ThreadPoolCalls.LastNotifies` says that there is one.
- ManagerQueues.EveryRunIsAManagerRun: the last step of the composition, that a queue may be replaced by a bag with the same calls and answers in the same order, is the usual one and is not stated as a lemma of its own.  The queue of a state stays atomic: its pop may miss at any time and is tried again.
- The machines are values with a step function rather than classes, because interleaved steps of several calls have no method boundary; update in place is captured by the sequential classes.
- LinkedQueue.NextKeepsInv: concurrent `allocate_node` is not modelled; only the constructor calls it, on an empty pool, and pushes allocate with `new`.
- SequentialQueues.LockFreeQueue.Push: nodes live in one growing sequence and pointers are indices, so aliasing with other heap objects is not modelled.
- The cache size of the task manager is the constant of its header; the default-constructed `TU_CacheQueue` of size 0 is not part of the model.
- OverflowRuns.FalsePopMeaning: the ring has at least two cells; with one it is not a queue (`BoundedRing.OneCellOverruns`).
- SequentialQueues.FiniteQueue.Push: a ring of at least two cells, as for `Pop`; with one cell a push overwrites and the next pop would retry for ever.
- ThreadPool.NextKeepsInv: a handle is submitted again only when its count is zero, as the interface demands; an unused handle counts as zero, although the field is not initialised by the program.
- DataFlow.NextKeepsGates: what an exec function computes is open, and which types it emits when is chosen by the schedule; the sink and the results queue appear only in `Graph`.
- `tu_dfg_term`: it may come to the groups in any order, and does not wait for the workers of one before it comes to the next; what `join` waits for is stated as rest (`DataFlowAlone.RestMeansStopped`).
- Graphs.Graph.Edge: sender and receiver are nodes of the graph; null node pointers are left out, and so are sub-graphs as sender or receiver.  A graph that holds a sub-graph cannot be run: `dfg_register_nodes` calls itself on the graph it was called with, not on the sub-graph, and never returns (src/thread_utils/dfg/dfg.cpp:59-60).
- Graphs.Graph.Edges: the same.
- Graphs.Graph.AddInput: a sub-graph in the place of the node, for which the program calls itself on the sub-graph's own nodes, is left out, as for edges.
- Graphs.Graph.AddOutput: the same (src/thread_utils/dfg/graph.cpp:258-260).
- The plural helpers `tu_add_inputs` and `tu_add_outputs`, `tu_exec`, and `tu_graph_check`: loops over the modelled singular forms, or checks without an effect on data.
- DgemmTasks.ProductIsBlock: `cblas_dgemm` is its specification, the product of the two tiles; entries are integers, so rounding is left out.
- DirectProduct.WaitMeansProduct: a handler takes effect on the states and on C when its exec begins (`HandlersExclude` and `BlockedProductRuns.SumsDoNotOverlap` say why that is no loss), and what it sends is pushed one by one before the exec ends.  This version has no counter of partial products and no result message, and its sum task sends C back as a plain C tile: it is the machine with a count that is never used up.  The memory of tiles is left out.
- Move constructors, allocation and deallocation (except the destructor of the linked queue), and `copy` of elements with side effects.
- `TU_LockQueue`, the asynchronous worker, profiling, timers, printing and logging: they would only add easy members.
- `src/thread_utils/dfg/type.cpp`, which is not built.
- The MPI communicator, its buffer pool, and the OpenBLAS and Hedgehog bindings.
