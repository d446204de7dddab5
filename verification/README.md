# Models of the infrastructure layer

Dafny models of the concurrent, reactive and text-processing cores of the library, with proofs of the
properties their design relies on. `dafny verify dfyconfig.toml` checks the whole project.

Code shared by several threads is a state machine: one function per thread step, `Step` for the step of
one thread, `Run` for a whole schedule, and an invariant proved of every schedule. What happens between
two steps is whatever the schedule says, so every interleaving is covered. Atomics are sequentially
consistent and tickets, counters and sizes do not wrap around. Code run by one thread is a class whose
fields are those of the original object; results of system calls, clock readings and the doings of user
callbacks are parameters.

| module | what it models |
|---|---|
| QueueSpec | a bounded queue as its callers see it: claim, publish, take, give back, and the two spurious failures |
| MpmcBoundedQueue, MpmcMemory, MpmcRefinement | the lock-free ring queue: every load, store and compare-and-swap is a step; its array with power-of-two mask; each step is an event of QueueSpec |
| MpmcCalls | whole calls of it, among others and undisturbed |
| DbPool, DbPoolInvariant, DbPoolLocal, DbPoolOwnership, DbPoolLaws, DbPoolSafety | the connection pool over QueueSpec, its counters, registry, waiters, maintenance thread and creators |
| DbPoolCalls, DbPoolAlone, DbPoolRound | whole calls of the pool: how they may end among others, and what one thread, undisturbed, does in a call or a round of maintenance |
| DbPoolScan, DbPoolRuns | what one maintenance scan keeps and discards; runs from the start to where one would not expect the pool to come |
| CircularQueue, BlockingQueue, BlockingQueueSafety, GuardedQueue | the ring, the blocking queue on it with two condition variables, and the thread pool draining it |
| BlockingQueueCalls | what each kind of enqueue and dequeue may answer, and who may lose an item |
| AsyncLogger, AsyncLoggerSafety | the logger that batches events and submits them to the pool, in its blocking mode |
| AsyncLoggerBatches | what it hands on and when, and that urgent events are flushed |
| AsyncLoggerProgress, AsyncLoggerRuns | that it comes to rest, and where it does not |
| TimerQueue, TimerManager | timers of an event loop: two indexes, the timerfd, callbacks that add and cancel |
| EventLoop | functor handoff to the loop thread and its wakeup |
| Endian, Buffer, TcpConnection | byte order, the compacting network buffer, and the sending side of a connection |
| PollPoller | the `poll(2)` poller with its swap-removal |
| UriTemplate, UriMatch | compiling, printing, matching and expanding URI templates (the operators of sections 3.2.2 and 3.2.3 of RFC 6570) |
| Decimals, LogRotation, RotatingFileSink | file names of a rotation chain, the chain, and the size-rotated sink |
| HttpResponse, HttpClientParser, HttpRoundTrip | the response printer, the generated 123-state response parser, and their round trip |
| HttpWords, HttpRuns, HttpHead, HttpChunk | what the parser makes of every response head (sections 3.1.2 and 3.2 of RFC 7230) and every chunk header (section 4.1) |

Where the steps come from, for the parts that are functions of a state: `MpmcBoundedQueue.Access` is
`src/utils/mpmc_bounded_queue.h:50-114`; in `DbPool`, `BorrowStep` is `src/db/DBPool.cc:208-238`, `WaitStep`
and `SleepStep` 246-265, `PutStep` and `NoticeStep` 267-309, `DrainStep` 311-350, `ScanStep` and `RoundStep`
339-403, `ReplenishStep` 425-440, `CreateStep` 442-465, `DiscardStep` 468-479 and the stop in `CallStep`
177-185; `BlockingQueue.PushSection` and `PopSection` are `src/utils/mpmc_blocking_queue.h:110-337`; in
`AsyncLogger`, `LogSection` and `TakePending` are `src/logger/AsyncLogger.cc:118-153` and 233-243,
`SubmitStep` 245-271, `WriteStep` and `FlushStep` 200-231, `DestroySection` 34-85; `EventLoop.LoopStep` is
`src/net/EventLoop.cc:46-74` and 166-192, `QueueStep` 98-111; `HttpClientParser.Edges` and `Apply` are the
table of `src/net/http/httpclient_parser.rl.cc:104-3290`, state by state and action by action.

Where what one would expect does not hold, it is settled when it does:

- The pool's idle counter can be negative: a run from the start makes it -1
  (`DbPoolRuns.IdleCountGoesNegative`). It is negative exactly while more threads have put a connection back
  uncounted than the queue and the threads taking from it account for (`DbPoolSafety.IdleCountNegativeExactly`).
- A scan of the pool fixes what it has to spare before it looks at lifetimes. It puts back fewer connections
  than have to be idle exactly when more are past their lifetime than are still to spare
  (`DbPoolScan.ScanAccount`), and a run from the start leads there (`DbPoolRuns.ScanEndsBelowMinIdle`).
- The logger's destructor, run by the only worker of the pool while others keep its queue full, waits for room that
  nobody else makes: a run from the start leads there (`AsyncLoggerRuns.DestructorBlocksItself`), and it is the one
  way in which the logger does not come to rest (`AsyncLoggerProgress.StuckIsDone`).
- A timer cancelled by an earlier callback of its batch still runs once in that batch (`TimerManager.HandleRead`).
- A functor queued by the loop thread before `loop()` gets no wakeup (`EventLoop.PollSeesPending`,
  `EventLoop.SilentFunctorWaits`), and a `quit` is honoured exactly if it finds the loop looping
  (`EventLoop.QuitSticks`, `EventLoop.QuitOutsideIsLost`).
- A URI template with a repeated variable name loses the earlier value, and matches can be undone exactly for
  distinct names (`UriMatch.ExpandsBackExactlyWhenDistinct`).
- Of a header line whose value stands on a continuation line the parser finds the field twice, empty and with its
  value, and a `connection` field only empty, though it takes note of the close (`HttpHead.LineRun`); and a head whose
  last line is one of the three known fields without a value is read, but not taken to be finished
  (`HttpHead.AnyHeadParses`).
- A `content-length` header of the user's is printed as well as the printer's own, which comes last and counts
  (`HttpRoundTrip.PrintThenParse`).
- A status or a body length comes back from the response parser exactly if it is below 2^31
  (`HttpWords.ReadsBackExactly`).
- A channel removed from the poller keeps its index, and updating a channel keeps the poller consistent exactly
  when it is registered or its index says it is new (`PollPoller.UpdateChannel`).

## Model

| member | source | states |
|---|---|---|
| `MpmcMemory.BoundedQueue.constructor` | src/utils/mpmc_bounded_queue.h:31-42 | the capacity is rounded up to a power of two, at least 2 and less than twice what was asked, and cell i starts numbered i |
| `MpmcMemory.MaskIsRemainder` | src/utils/mpmc_bounded_queue.h:31-42 | masking a ticket with capacity less one is the remainder by the capacity |
| `MpmcMemory.BoundedQueue.EnqueueAccess` | src/utils/mpmc_bounded_queue.h:50-82 | each access of `enqueue` to cursors and cells, done in place on the array, is exactly the model's step |
| `MpmcMemory.BoundedQueue.DequeueAccess` | src/utils/mpmc_bounded_queue.h:85-114 | the same of `dequeue` |
| `MpmcBoundedQueue.StepInv` | src/utils/mpmc_bounded_queue.h:50-114 | every access of every thread keeps the invariant tying each slot's sequence number to both cursors and to every thread in flight |
| `MpmcBoundedQueue.OwnedSlotsDiffer` | src/utils/mpmc_bounded_queue.h:50-114 | no two threads are on the data of one slot at once |
| `MpmcBoundedQueue.EveryInterleaving` | src/utils/mpmc_bounded_queue.h:50-114 | the invariant, and with it 0 <= enqueuePos - dequeuePos <= capacity, holds after any schedule of any number of producers and consumers |
| `MpmcBoundedQueue.HistoryOnlyGrows` | src/utils/mpmc_bounded_queue.h:50-114 | each ticket is claimed by one producer and one consumer for good, and a delivery once made never changes |
| `MpmcBoundedQueue.DeliveredInTicketOrder` | src/utils/mpmc_bounded_queue.h:85-114 | the consumer of ticket p returns the value stored by its producer; what has been delivered is exactly the tickets below the dequeue cursor whose consumer has returned, none lost or twice |
| `MpmcBoundedQueue.FullIsExplained` | src/utils/mpmc_bounded_queue.h:52-78 | the access at which `enqueue` reports full finds capacity tickets out, or the slot of its ticket claimed by a consumer that has not yet released it |
| `MpmcBoundedQueue.EmptyIsExplained` | src/utils/mpmc_bounded_queue.h:87-110 | `dequeue` reports empty only if the head ticket was unclaimed, or claimed and not yet published |
| `MpmcCalls.EndsExactlyWithAnswer` | src/utils/mpmc_bounded_queue.h:50-114 | a call ends with an access exactly if it has its answer then; at every other access, a slot filled by another producer included, it goes on as the same call |
| `MpmcCalls.EveryEnqueue` | src/utils/mpmc_bounded_queue.h:50-82 | every `enqueue` of every run: once over, it has reported full and claimed no ticket since its start, or reported success and claimed exactly one, under which its item stands |
| `MpmcCalls.EveryDequeue` | src/utils/mpmc_bounded_queue.h:85-114 | every `dequeue` of every run: once over, it has reported empty and taken no ticket, or taken exactly one and returned the value stored under it |
| `MpmcRefinement.StepRefines` | src/utils/mpmc_bounded_queue.h:50-114 | every access is an event of the sequential queue or changes nothing its callers can see |
| `MpmcRefinement.AloneEnqueue` | src/utils/mpmc_bounded_queue.h:50-82 | undisturbed, `enqueue` appends its item, or reports full exactly when the queue holds capacity items |
| `MpmcRefinement.AloneDequeue` | src/utils/mpmc_bounded_queue.h:85-114 | undisturbed, `dequeue` returns the oldest item, or reports empty exactly when there is none |
| `MpmcCalls.AloneAnswers` | src/utils/mpmc_bounded_queue.h:50-114 | from any reachable state, whatever others have left half done, a call nobody disturbs any more answers within seven accesses |
| `DbPoolSafety.StartInv` | src/db/DBPool.cc:119-175 | a pool just constructed and initialised satisfies the invariant |
| `DbPoolSafety.StepIsPossible` | src/db/DBPool.cc:208-479 | every access a thread comes to is possible in the state it comes to it in |
| `DbPoolSafety.RunInv` | src/db/DBPool.cc:208-479 | the ownership, counting, registry, waiting and stopping laws together hold after any run of borrowers, releasers, creators and the maintenance thread |
| `DbPoolSafety.OneOwner` | src/db/DBPool.cc:228-238 | every live connection is in exactly one place - idle queue, one borrower, or the hands of one thread - once, and nothing else is live |
| `DbPoolSafety.WithinLimit` | src/db/DBPool.cc:425-440 | queued connections <= total <= maxSize at all times, although replenishing reads the total and then adds to it |
| `DbPoolSafety.SpinIsTransient` | src/db/DBPool.cc:267-281 | while a thread spins to put a connection back the idle queue is never genuinely full |
| `DbPoolSafety.NoLostWakeup` | src/db/DBPool.cc:246-309 | while a waiter has failed its locked re-check, or sleeps, and the head of the queue can be taken, some thread has its look at the waiter count or its notification still ahead |
| `DbPoolSafety.LookSeesWaiter` | src/db/DBPool.cc:295-304 | that look sees the waiter and leads to the notification |
| `DbPoolSafety.SleepersMeanEmpty` | src/db/DBPool.cc:246-265 | when nobody is putting a connection back or about to notify, a sleeping waiter means an empty idle queue |
| `DbPoolSafety.StopReachesSleepers` | src/db/DBPool.cc:177-206 | after the stop flag is set nobody sleeps on without its notification still to come |
| `DbPoolCalls.RunReachable` | src/db/DBPool.cc:246-265 | over any run a thread leaving the wait has a connection in hand, or its time is up, or the pool is stopped; only waiters run out of time |
| `DbPoolCalls.EveryGet` | src/db/DBPool.cc:208-265 | every `getConnection` of every run: once over, it has lent a connection that was this thread's alone, or returned without one because its time was up or the pool stopped |
| `DbPoolCalls.EveryReturn` | src/db/DBPool.cc:267-309 | every connection given back, created or scanned, in every run, comes into the idle queue or is destroyed |
| `DbPoolAlone.AloneGet` | src/db/DBPool.cc:208-265 | undisturbed, `getConnection` lends the oldest idle connection and flags too few being left; with none it sleeps, counted as a waiter, or returns without one if the pool is stopped |
| `DbPoolAlone.AloneWoken` | src/db/DBPool.cc:254-261 | a woken waiter whose time is not up looks again: over a published head it ends with that connection lent, otherwise it sleeps again or stops |
| `DbPoolAlone.AloneTimedOut` | src/db/DBPool.cc:254-265 | a sleeper whose time is up is out, no waiter any more, with nothing else changed |
| `DbPoolAlone.AloneReturn` | src/db/DBPool.cc:267-309 | undisturbed, a valid connection returned comes behind the idle ones and whoever waits is woken; any other is discarded, uncounted and off the registry; too few being idle is flagged |
| `DbPoolAlone.AloneCreate` | src/db/DBPool.cc:442-465 | undisturbed, a creation task adds a registered connection behind the idle ones and wakes waiters, or gives its place up |
| `DbPoolSafety.IdleCountAtRest` | src/db/DBPool.cc:228-281 | the idle counter is exact whenever no thread is between moving a connection and counting it |
| `DbPoolSafety.IdleCountNegativeExactly` | src/db/DBPool.cc:228-281 | it is negative exactly while more threads have put a connection back uncounted than the queue and the threads taking from it account for |
| `DbPoolRuns.IdleCountGoesNegative` | src/db/DBPool.cc:228-281 | a run from the start of a pool of one connection makes it -1: a connection put back but not yet counted is taken and counted off first |
| `DbPoolSafety.RegistryIsLive` | src/db/DBPool.cc:196-205 | the registry, from which `shutdown` deletes, is the live connections, less those a thread is about to enlist or, having struck them off, to delete |
| `DbPoolSafety.DiscardFindsIt` | src/db/DBPool.cc:468-479 | a discard finds what it strikes off, and what it deletes is live and no longer in the registry, so that nothing is deleted twice |
| `DbPoolSafety.StepIsQueueEvent` | src/db/DBPool.cc:228-281 | every access to the idle queue, failed attempts included, is an event the lock-free queue is proved to refine |
| `DbPoolSafety.ReturnIsQueueEvent` | src/utils/mpmc_bounded_queue.h:111-113 | so is the return of a slot |
| `DbPoolScan.ScanAccount` | src/db/DBPool.cc:367-391 | after any run, of the connections a finished scan found healthy no more were discarded as idle for too long than were to spare, and as many as have to be idle were put back except for those past their lifetime; fewer than have to be idle exactly when more were past it than were still to spare |
| `DbPoolRound.AloneRound` | src/db/DBPool.cc:339-440 | a whole round, undisturbed, for all answers of the checks: unanswering connections go, then those past their lifetime and, while some are to spare, those idle too long; the others are back in order and waiters woken; and as many as are missing are asked for, up to the limit |
| `DbPoolRuns.ScanMayKeepNone` | src/db/DBPool.cc:367-391 | from any beginning of a second round, whatever number of healthy connections it has, there is a run of it that puts none back |
| `DbPoolRuns.ScanEndsBelowMinIdle` | src/db/DBPool.cc:339-403 | a run from the start to where two healthy connections are idle and one has to be, and a round from there that discards one as idle for too long and the other for its age and leaves none |
| `CircularQueue.Ring.WithCapacity` | src/utils/circular_q.h:41-46 | a ring made for n items is empty, has room for n and has overrun nothing |
| `CircularQueue.Ring.PushBack` | src/utils/circular_q.h:47-61 | pushing appends, dropping the oldest item and counting it exactly when there is no room; a ring without slots ignores it |
| `CircularQueue.Ring.PopFront` | src/utils/circular_q.h:74-79 | popping removes the oldest item |
| `CircularQueue.Ring.IsFull` | src/utils/circular_q.h:86-94 | full means as many items as there is room for |
| `CircularQueue.Ring.Size` | src/utils/circular_q.h:96-107 | the size computed from head and tail is the number of items |
| `CircularQueue.AdvanceAppends` | src/utils/circular_q.h:47-61 | writing at the tail and advancing it appends to what lies between head and tail, around the end |
| `CircularQueue.AdvanceOverwrites` | src/utils/circular_q.h:47-61 | when the tail meets the head, moving the head on leaves the newest items |
| `CircularQueue.PushKeepsSuffix` | src/utils/circular_q.h:47-61 | after any pushes the ring holds a suffix of everything pushed, and a push loses at most one item |
| `GuardedQueue.Guarded.EnqueueSection` | src/utils/mpmc_blocking_queue.h:110-251 | what every kind of enqueue does under the mutex, on the ring, is the model's step |
| `GuardedQueue.Guarded.DequeueSection` | src/utils/mpmc_blocking_queue.h:253-312 | the same of every kind of dequeue; what it takes is the oldest item |
| `GuardedQueue.Guarded.StopSection` | src/utils/mpmc_blocking_queue.h:313-337 | the first stop sets the mode and goes on to notify, later ones do nothing |
| `BlockingQueueSafety.StartInv` | src/utils/mpmc_blocking_queue.h:20-28 | a new queue satisfies the invariant |
| `BlockingQueueSafety.RunInv` | src/utils/mpmc_blocking_queue.h:110-337 | over any run: while consumers sleep, items <= woken consumers + notices to come, the same of free slots and producers; after a stop no sleeper without a `notify_all` to come; items taken once and in order |
| `BlockingQueueSafety.NotifyFindsSleeper` | src/utils/mpmc_blocking_queue.h:119-126 | a `notify_one` can always go on, waking some sleeper if there is one |
| `BlockingQueueSafety.SleepIsJustified` | src/utils/mpmc_blocking_queue.h:253-275 | once all notices have been given, a sleeping consumer means an empty queue and a sleeping producer a full one |
| `BlockingQueueSafety.StoppedPoolRanEverything` | src/utils/thread_pool.cc:24-57 | after `stop_gracefully` every accepted task not overwritten has run exactly once, and accepted = executed + overrun |
| `BlockingQueueSafety.OneWorkerStartsInOrder` | src/utils/thread_pool.cc:44-57 | with one worker tasks start in the order they were accepted |
| `BlockingQueueCalls.PushDecides` | src/utils/mpmc_blocking_queue.h:110-251 | under the mutex: exactly over a full running queue do the waiting kinds sleep, unless their time is up; otherwise every kind is answered, accepted or refused for a reason its kind has, and exactly `try_enqueue` over a full queue counts a discard |
| `BlockingQueueCalls.PopDecides` | src/utils/mpmc_blocking_queue.h:253-312 | the same of the kinds of `dequeue` and an empty queue |
| `BlockingQueueCalls.EveryPush` | src/utils/mpmc_blocking_queue.h:110-251 | every enqueue of every run: once answered, its item was accepted by a running queue with room, or over the oldest item by an overwriting call, or refused by a stopped queue, or by a full one if it would not, or no longer, wait |
| `BlockingQueueCalls.EveryPop` | src/utils/mpmc_blocking_queue.h:253-312 | every dequeue of every run: once answered, it took the oldest item, or nothing for one of the reasons its kind has |
| `BlockingQueueCalls.TimeRunsOut` | src/utils/mpmc_blocking_queue.h:144-183 | an `enqueue_for` whose time runs out while it sleeps is answered at its next look |
| `BlockingQueueCalls.OnlyOverwritesLose` | src/utils/mpmc_blocking_queue.h:185-213 | a step loses an item, the oldest, exactly if it is an overwriting enqueue over a full running queue, and each loss is counted once |
| `BlockingQueueCalls.WithoutOverwriteNothingIsLost` | src/utils/mpmc_blocking_queue.h:110-337 | over any run without an overwriting enqueue no overrun is counted and every item accepted is in the ring or was taken |
| `BlockingQueueCalls.LosslessPoolRanEverything` | src/utils/thread_pool.cc:24-57 | so a pool used without it, once stopped gracefully, has run every task it accepted |
| `BlockingQueueCalls.StoppedNobodySleeps` | src/utils/mpmc_blocking_queue.h:313-337 | once the stops are through nobody sleeps any more |
| `AsyncLoggerSafety.StartInv` | src/logger/AsyncLogger.cc:10-32 | a new logger satisfies the invariant |
| `AsyncLoggerSafety.RunInv` | src/logger/AsyncLogger.cc:34-271 | the invariant holds after any run of log calls, flushes, workers, a pool stop, the pool going away and destruction |
| `AsyncLoggerSafety.NeverTwice` | src/logger/AsyncLogger.cc:200-222 | at no moment has a sink an event more often than it was logged |
| `AsyncLoggerSafety.EachSinkEachEventOnce` | src/logger/AsyncLogger.cc:118-271 | at rest with nothing pending each sink has every event it admits exactly as often as logged and no other, for any number of workers, whatever else the pool is used for, and whether or not it was stopped or is gone |
| `AsyncLoggerSafety.DestructionDelivers` | src/logger/AsyncLogger.cc:34-85 | after destruction, by a caller or by the worker that drops the last reference, nothing is left behind: the same holds without assuming an empty batch |
| `AsyncLoggerSafety.SinkFollowsMutexOrder` | src/logger/AsyncLogger.cc:139-153 | with one worker and no stop a sink's output is at all times a prefix of what the batches ask of it in the order of the batch mutex, and all of it at rest |
| `AsyncLoggerSafety.FlushCovers` | src/logger/AsyncLogger.cc:155-198 | with one worker and no stop everything logged before a flush, and nothing else, precedes the flush in every sink |
| `AsyncLoggerBatches.LogHandsOn` | src/logger/AsyncLogger.cc:139-153 | a logged event hands on the batch exactly if it fills it, is at or above the flush level or comes when the interval is over; the batch is to be flushed exactly in the second case |
| `AsyncLoggerBatches.RunKept` | src/logger/AsyncLogger.cc:118-271 | over any run what is pending is less than a batch and holds nothing at or above the flush level, every batch submitted is to be flushed if, and but for a pool that is gone only if, it holds such an event, and every such event written is flushed behind or some thread is yet to flush it |
| `AsyncLoggerBatches.UrgentIsFlushed` | src/logger/AsyncLogger.cc:118-231 | at rest every event at or above the flush level is in each sink that admits it as often as it was logged, with a flush behind every copy, and fewer events than a batch are pending |
| `AsyncLoggerProgress.EveryRunEnds` | src/logger/AsyncLogger.cc:118-271 | from any reachable state, however threads are scheduled, no more steps are taken without new calls than there is work left |
| `AsyncLoggerProgress.StuckIsDone` | src/logger/AsyncLogger.cc:34-271 | where no thread can go on every call is over and the queue empty, except where the destructor, run by the only worker, waits for room in the full queue |
| `AsyncLoggerProgress.ComesToRest` | src/logger/AsyncLogger.cc:34-271 | and from every reachable state one of the two is come to |
| `AsyncLoggerProgress.SelfBlockedForever` | src/logger/AsyncLogger.cc:67-72 | that exception lasts for as long as nobody stops the pool |
| `AsyncLoggerRuns.DestructorBlocksItself` | src/logger/AsyncLogger.cc:67-72 | and it occurs: a run from the start to it |
| `TimerQueue.SameSize` | src/net/TimerManager.cc:122-144 | two indexes that agree have equally many timers, as the code asserts on every entry and exit |
| `TimerQueue.InsertAgrees` | src/net/TimerManager.cc:223-250 | a timer not in the active index is in neither, and putting it in both keeps them in agreement |
| `TimerQueue.RemoveAgrees` | src/net/TimerManager.cc:122-144 | taking an entry and its active timer out keeps them in agreement |
| `TimerQueue.Due` | src/net/TimerManager.cc:166-191 | `lower_bound` of the sentry separates exactly the timers due at `now` from the later ones |
| `TimerManager.TimerManager.Insert` | src/net/TimerManager.cc:223-250 | every assert holds; the timer goes in both indexes under its expiration; the result tells whether it is now the earliest |
| `TimerManager.TimerManager.AddTimerInLoop` | src/net/TimerManager.cc:110-120 | adding keeps everything consistent and the timerfd in time for the earliest timer |
| `TimerManager.TimerManager.CancelInLoop` | src/net/TimerManager.cc:122-144 | cancelling takes effect exactly for an active timer or one in the batch being called; every assert holds |
| `TimerManager.TimerManager.GetExpired` | src/net/TimerManager.cc:166-191 | exactly the timers due leave both indexes, in order of expiration; every assert holds |
| `TimerManager.TimerManager.Restart` | src/net/Timer.cc:8-18 | a repeating timer is due one interval after `now`, any other is invalid |
| `TimerManager.TimerManager.Reset` | src/net/TimerManager.cc:193-221 | each timer of the batch that repeats and was not cancelled is back in both indexes, every other of it is gone, timers outside it are untouched, and the timerfd is set no later than max(earliest, arming time + 100us) |
| `TimerManager.TimerManager.Perform` | src/net/TimerManager.cc:87-144 | what one operation of another thread or a callback does: a timer created is on its way, one on its way becomes active, one cancelled is out of both indexes and counts as cancelled exactly if it was active or in the batch being called |
| `TimerManager.TimerManager.HandleRead` | src/net/TimerManager.cc:146-164 | whatever the callbacks do, exactly the due timers run, each once and in order, none that was cancelled before; one cancelled meanwhile does not come back; afterwards the timerfd is in time again |
| `EventLoop.RunInv` | src/net/EventLoop.cc:46-192 | the invariant of the handoff holds after any run of the loop and any number of queuing threads |
| `EventLoop.RunOnceInOrder` | src/net/EventLoop.cc:176-192 | functors run at most once, in the order of queueing, and none is lost on the way |
| `EventLoop.WakeupRunsPending` | src/net/EventLoop.cc:55-72 | woken in poll, the loop by itself notes the wakeup and runs everything pending, in order, before it tests for quit again |
| `EventLoop.QueueTells` | src/net/EventLoop.cc:98-111 | `queueInLoop` puts its functor last and signals exactly if it is called from another thread or while functors are being run |
| `EventLoop.HandedOverIsRun` | src/net/EventLoop.cc:98-192 | a functor another thread hands to a polling loop is run by it, behind those before it |
| `EventLoop.PollSeesPending` | src/net/EventLoop.cc:98-111 | the loop is never in poll over a pending functor without a readable wakeup or a thread about to signal, except one queued silently before the first round |
| `EventLoop.SilentFunctorWaits` | src/net/EventLoop.cc:98-111 | that exception does occur: a run in which the loop blocks with such a functor pending |
| `EventLoop.PollSeesQuit` | src/net/EventLoop.cc:76-84 | the loop is never in poll, told to quit, without a readable wakeup or a thread about to signal |
| `EventLoop.QuitSticks` | src/net/EventLoop.cc:46-74 | a `quit` that finds the loop looping holds until it has come out, and no other poll is begun |
| `EventLoop.QuitOutsideIsLost` | src/net/EventLoop.cc:46-57 | one that finds it outside `loop()` is forgotten on entry, and the loop polls |
| `EventLoop.QuitComesOut` | src/net/EventLoop.cc:46-84 | one from another thread that finds it polling has it run what is pending and come out at its next test |
| `Endian.ByteswapTwice` | src/net/base/endian.h:16-43 | swapping the bytes of an integer twice gives it back |
| `Endian.StoredIsNetworkOrder` | src/net/base/endian.h:51-77 | on a machine of either byte order, a value swapped on little-endian machines is stored in network order |
| `Endian.LoadedFromNetworkOrder` | src/net/base/endian.h:51-77 | and network order in memory is read as the value it denotes |
| `Endian.IntegerRoundTrip` | src/net/base/endian.h:16-43 | signed and unsigned integers of any width survive network order |
| `Buffer.Buffer.Retrieve` | src/net/Buffer.h:83-98 | retrieving drops that many bytes from the front, all of them if there are fewer |
| `Buffer.Buffer.Compact` | src/net/Buffer.h:256-270 | the copy to index 8, forward and overlapping, keeps the content because the reader index exceeds 8 |
| `Buffer.Buffer.MakeSpace` | src/net/Buffer.h:256-270 | there is room for the bytes asked for, the content is unchanged, and it compacts only when the reader index exceeds 8 |
| `Buffer.Buffer.Append` | src/net/Buffer.h:161-171 | appending appends |
| `Buffer.Buffer.Prepend` | src/net/Buffer.h:201-207 | prepending puts the bytes in front and leaves the rest |
| `Buffer.Buffer.ReadFd` | src/net/Buffer.cc:10-35 | a scatter read that overflows into the stack buffer appends all bytes read, in order |
| `Buffer.Buffer.AppendInt` | src/net/Buffer.h:181-194 | a typed append adds the integer in network order |
| `Buffer.Buffer.RetrieveInt` | src/net/Buffer.h:127-145 | a typed retrieve reads the integer the first bytes denote in network order and drops them |
| `Buffer.IntegersComeBack` | src/net/Buffer.h:127-229 | an integer prepended is read first and one appended last, each as it was, around whatever was there |
| `TcpConnection.TcpConnection.SendInLoop` | src/net/TcpConnection.cc:233-294 | bytes taken by the socket and bytes buffered are together what was accepted; a payload is dropped exactly on EPIPE or ECONNRESET of a direct write or after close; the write-complete and high-water notices queued are exactly those due |
| `TcpConnection.TcpConnection.HandleWrite` | src/net/TcpConnection.cc:153-187 | a write event moves exactly the bytes written from buffer to wire; it shuts the write side exactly if it empties the buffer while disconnecting, and queues the write-complete notice exactly if it empties it |
| `TcpConnection.TcpConnection.ShutdownInLoop` | src/net/TcpConnection.cc:296-304 | the write side is shut unless bytes are waiting |
| `TcpConnection.TcpConnection.BeginShutdown` | src/net/TcpConnection.cc:93-103 | only the call that finds the connection connected goes on |
| `TcpConnection.TcpConnection.HandleClose` | src/net/TcpConnection.cc:189-200 | closing ends write interest |
| `TcpConnection.TcpConnection.OfferInLoop` | src/net/TcpConnection.cc:233-294 | a payload that comes there is taken whole unless the connection is closed or a direct write finds it broken |
| `TcpConnection.TcpConnection.SendPayload` | src/net/TcpConnection.cc:38-50 | `send` is heard exactly if the connection is connected; from another thread the payload goes into a functor, behind those before it |
| `TcpConnection.Drive` | src/net/TcpConnection.cc:36-321 | over any events, until close: wire + buffer = accepted, write interest exactly while the buffer is non-empty, the write side shut only over an empty buffer; a connection being shut down is shut unless bytes are still to be written or a functor is yet to end it; the sends heard are those between establishing and the first event that ends the connection, each is offered once in the order of its thread or still waits in a functor, what is accepted is those taken, and while the connection is up and no write finds it broken all are |
| `PollPoller.PollPoller.UpdateChannel` | src/net/Poller.cc:184-210 | every channel's index leads to its own entry, and there are no others, exactly when the channel is registered or its index is new |
| `PollPoller.PollPoller.RemoveChannel` | src/net/Poller.cc:212-236 | the last entry takes the gap and its channel is told; every other channel keeps its entry; the removed one keeps its old index |
| `PollPoller.PollPoller.FillActiveChannels` | src/net/Poller.cc:238-253 | stopping after as many entries with events as were counted misses none |
| `PollPoller.PollPoller.Poll` | src/net/Poller.cc:160-182 | the active channels are exactly those whose entry has events, each once, with its events |
| `UriTemplate.Parse` | src/mcp/server/UriTemplate.cc:13-91 | the loop over the template computes its compilation, with the same errors in the same order |
| `UriTemplate.CompiledPrintsBack` | src/mcp/server/UriTemplate.cc:13-91 | an accepted template prints back from its segments, which are well-formed |
| `UriTemplate.PrintedCompilesBack` | src/mcp/server/UriTemplate.cc:13-91 | well-formed segments are what their printed form compiles to |
| `UriTemplate.AcceptsExactlyPrinted` | src/mcp/server/UriTemplate.cc:13-91 | the templates accepted are exactly the printed forms of well-formed segments |
| `UriTemplate.RefusedFor` | src/mcp/server/UriTemplate.cc:13-91 | a template refused is good up to an expression that has the fault reported: not closed, empty, with an operator not supported, without a name, or with several |
| `UriTemplate.FaultsAreFaults` | src/mcp/server/UriTemplate.cc:13-91 | and one beginning with an expression that has a fault is refused for that fault |
| `UriMatch.Match` | src/mcp/server/UriTemplate.cc:93-173 | the matching loop finds the values that make the segments cover the whole URI, the last occurrence of a name winning |
| `UriMatch.MatchedExpands` | src/mcp/server/UriTemplate.cc:93-173 | the matched values put back in their places give the URI; they are non-empty, free of slashes unless reserved, and each following literal first occurs right after its value |
| `UriMatch.ComeBackExactlyWhenFitting` | src/mcp/server/UriTemplate.cc:93-173 | matching an expansion gives its values back exactly when they are of that kind |
| `UriMatch.MatchThenExpand` | src/mcp/server/UriTemplate.cc:93-173 | with distinct names a match expands back to the URI |
| `UriMatch.ExpandThenMatch` | src/mcp/server/UriTemplate.cc:93-173 | and an expansion of fitting values matches back to the same table |
| `UriMatch.RepeatedNameLoses` | src/mcp/server/UriTemplate.cc:163-164 | for every template with a repeated name and no two variables in a row some URI matches and does not come back |
| `UriMatch.ExpandsBackExactlyWhenDistinct` | src/mcp/server/UriTemplate.cc:93-173 | all matches of a template can be undone exactly if its names are distinct, or if two variables stand side by side and nothing matches |
| `LogRotation.SplitByExtension` | src/logger/public.cc:162-180 | stem and extension make up the name; it is split at the one place it can be, or nowhere if there is none |
| `LogRotation.NamesDiffer` | src/logger/rotater/RotationStrategy.cc:55-64 | no two indexes have the same file name |
| `LogRotation.RotationConserves` | src/logger/rotater/RotationStrategy.cc:66-81 | shifting a chain of files, with gaps or without, loses what it evicts and nothing else, in order |
| `RotatingFileSink.RotatingFileSink.RenameChain` | src/logger/rotater/RotationStrategy.cc:66-81 | the loop shifts the chain from the oldest file down; it fails exactly if a file there is to be renamed and its rename fails, and stops there |
| `RotatingFileSink.RotatingFileSink.Rotate` | src/logger/sinks/RotatingFileLogSink.h:143-158 | a rotation leaves exactly the shifted chain with an empty active file, and files outside the chain alone; if a rename fails the content of the active file, and that only, is lost besides |
| `RotatingFileSink.RotatingFileSink.SinkIt` | src/logger/sinks/RotatingFileLogSink.h:112-133 | a record that fits is appended and nothing rotated, one that does not stands alone in a new active file before the chain shifted by one; after it the active file is below its limit or is that record; it is refused exactly if the rotation it needs fails |
| `RotatingFileSink.Open` | src/logger/sinks/RotatingFileLogSink.h:41-67 | limits of zero are refused; what is found on disk is the start of the stream |
| `RotatingFileSink.Drive` | src/logger/sinks/RotatingFileLogSink.h:76-158 | over any writes and rotations without a failed rename, evicted bytes, files from oldest to newest and the active file are together everything written, in order |
| `HttpClientParser.HttpResponseParser.Execute` | src/net/http/httpclient_parser.rl.cc:96-3313 | the loop over the buffer is a run of the table from its current state, stopping at the end of the header, on an error or at the end of the bytes |
| `HttpResponse.Dump` | src/net/http/HttpResponse.cc:69-107 | the loops over headers and cookies print the status line, the fields shown and the body |
| `HttpWords.NameReads` | src/net/http/httpclient_parser.rl.cc:584-2950 | every name of token characters is read through without error; it ends in the state of a known name exactly if it spells that name, in any case |
| `HttpWords.BadByteFails` | src/net/http/httpclient_parser.rl.cc:584-2950 | and any other byte in a name, but a colon or the end of the line, is a syntax error |
| `HttpWords.ValueReads` | src/net/http/httpclient_parser.rl.cc:1126-3059 | the state a field value ends in is that of `close`, `chunked` or a number exactly if it says so, but for case, behind `connection`, `transfer-encoding` or `content-length` |
| `HttpWords.ReadsBackExactly` | src/net/http/httpclient_parser.rl.cc:634-640 | a number comes back exactly if it is below 2^31 |
| `HttpHead.LineRun` | src/net/http/httpclient_parser.rl.cc:584-3190 | any header line - its name in any case, any blanks, CRLF or LF, its value on it or, for a known one, on a continuation line - is read without error; the field is found as written, and a close, a chunked coding and a length are learned exactly from the lines that tell them |
| `HttpHead.AnyHeadParses` | src/net/http/httpclient_parser.rl.cc:104-3313 | any status line and any such lines, in front of any body: the parser stops without error exactly where the body begins and has found everything they tell; it is finished exactly if the last line is not a known field without a value |
| `HttpHead.LearnsAll` | src/net/http/httpclient_parser.rl.cc:584-3190 | of all lines the fields are found in order, and a close and a chunked coding exactly if some line tells of them |
| `HttpHead.LastLengthCounts` | src/net/http/httpclient_parser.rl.cc:620-646 | of several lengths the last one counts |
| `HttpChunk.AnyChunkParses` | src/net/http/httpclient_parser.rl.cc:144-330 | any chunk header, with any extensions: the parser is finished exactly at its end and has found the size, whether it is the last chunk, and the extensions |
| `HttpRoundTrip.PrintThenParse` | src/net/http/HttpResponse.cc:69-107 | parsing a printed well-formed response, with cookies, for a websocket or not, stops without a syntax error exactly at the body and recovers status, reason and all fields in order; the close flag and the chunked coding are those the fields tell of, the length is that of a body that is not empty, whatever header the user set, a version the parser does not know is reported |
| `HttpRoundTrip.DumpThenExecute` | src/net/http/HttpResponseParser.cc:109-119 | what the printer writes the parser object reads: everything recovered, an error exactly for an unknown version, and but for a websocket finished |

## Left out

- The C++ memory model and the wrap-around of counters and sizes: atomics are sequentially consistent, tickets and sizes unbounded.
- Fairness: calls of the queues, the pool and the event loop are proved to end undisturbed, and the logger to come to rest under any schedule that goes on, but not that a thread is ever scheduled.
- `scanBorrowedLeaks`, `maintenanceLoop`'s timing and `notifyMaintenance` of the pool: the maintenance thread may start a round at any time.
- The teardown of `DBPool::shutdown` after its threads are joined, failing initial connections, connection states and SQL.
- A failed put of `enqueueIdle` is the thread staying where it is; the release of a slot by a consumer of the idle queue is a step of its own that may come at any later time.
- Other users of the logger's pool write to none of its sinks, and their tasks end.
- `AsyncLogger` with the overflow strategies that discard or overwrite, sinks that throw, levels changed while running, and `stop_immediately` of its pool.
- AsyncLoggerSafety.SinkFollowsMutexOrder: one worker and no stop only, because with more workers, or once callers write themselves, sinks are not in the order of the mutex.
- Timed waits of the blocking queue: a timeout is a choice of the schedule at a wake-up, not a clock.
- TimerManager.TimerManager.HandleRead: the clock of the timerfd and the one timers are read off are taken to be the same and later than zero.
- Timers created by other threads while callbacks run are additions among the callbacks' own; a callback's work besides the manager is not modelled.
- Functors that run at once because `runInLoop` is called on the loop thread are not counted in the queueing order, and functors left pending when a loop is destroyed are not run.
- Buffer.Buffer.RetrieveAsString: at most the readable bytes, as its callers are asked to see to; beyond them the original reads undefined bytes.
- `TcpConnection` callbacks, the input side and uniqueness of the close callback across threads: `forceClose` checks and sets the state in two steps.
- `PollPoller` timeouts, `EPollPoller` and `SelectPoller`; an update through an index beyond the array, which has no defined effect.
- Rotation with a handler, `TimeBasedRotation`, failing writes and the buffering of the C library.
- HttpRoundTrip.PrintThenParse: responses in one call of the parser, since its marks are reset by every call.
- HttpHead.AnyHeadParses: a continuation line only where a known field's value stands on it, at its end; chunk headers are those of HttpChunk.
- `HttpResponse` setters, the case-insensitive map (headers come in its order), chunk bodies, and the request parser, whose machine is not part of this model.
- Redis, MySQL, JSON-RPC, compression, encryption, servlets and configuration: thin or dependent on other libraries.
