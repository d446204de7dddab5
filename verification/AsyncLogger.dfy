/**
 The asynchronous logger in its blocking mode, over a pool with any number of workers.

 Callers batch events under `batch_mutex_` and submit each batch, and each flush barrier, while
 still holding it; `submit` waits for room and fails once the pool is stopped, and then the caller
 writes the batch itself. Every write of one event to one sink is a step of its own. The pool is
 used through what is proved of it: a first-in first-out queue that is drained when it is stopped.
 Others may use the pool too. The destructor runs on whatever thread drops the last reference: a
 caller, or the worker that has finished the logger's last task.
 */
module AsyncLogger {

  datatype Event = Event(level: int, text: string)

  /** A batch of events, flushed afterwards if one of them asks for it, a flush barrier, or a task of another user. */
  datatype Task = Batch(events: seq<Event>, flush: bool) | Barrier | Foreign

  datatype Out = Wrote(event: Event) | Flushed

  datatype Sink = Sink(level: int, trace: seq<Out>)

  /** What a thread does after writing or flushing. */
  datatype Then =
    | NextTask            // a worker
    | Return              // a caller not holding the mutex
    | More(tasks: seq<Task>) // a caller holding it, with tasks still to submit

  datatype Pc =
    | Idle
    | LogEnter(event: Event)
    | LogLock(event: Event)
    | FlushEnter
    | FlushLock(poolGone: bool)
    | Submitting(tasks: seq<Task>)
    | Writing(events: seq<Event>, i: nat, k: nat, flush: bool, then_: Then)
    | Flushing(k: nat, then_: Then)
    | WorkerWait
    | WorkerExit

  datatype Option<T> = None | Some(value: T)

  /** `logged` and `submitted` are history: every event in `batch_mutex_` order, every task likewise. */
  datatype State = State(
    batchSize: nat,
    flushLevel: int,
    cap: nat,
    sinks: seq<Sink>,
    pending: seq<Event>,
    lock: Option<nat>,
    queue: seq<Task>,
    stopped: bool,
    gone: bool,
    destroyed: bool,
    threads: seq<Pc>,
    workers: set<nat>,
    logged: seq<Event>,
    submitted: seq<Task>)

  datatype Action =
    | CallLog(event: Event)
    | CallFlush
    | CallDestroy
    | SubmitForeign   // another user of the pool submits a task of its own
    | StopPool          // stop_gracefully
    | DropPool          // the last reference to the pool goes away
    | Go(expired: bool) // `expired`: the flush interval has passed since the batch began

  function Urgent(s: State, events: seq<Event>): bool {
    exists e :: e in events && e.level >= s.flushLevel
  }

  function Goto(s: State, t: nat, pc: Pc): State
    requires t < |s.threads|
  {
    s.(threads := s.threads[t := pc])
  }

  /** Where a thread is when done with the logger. */
  function Home(s: State, t: nat): Pc { if t in s.workers then WorkerWait else Idle }

  /** Where a caller holding the mutex goes with these tasks: on submitting, or out. */
  function Onward(s: State, t: nat, tasks: seq<Task>): State
    requires t < |s.threads|
  {
    if tasks == [] then Goto(s, t, Home(s, t)).(lock := None) else Goto(s, t, Submitting(tasks))
  }

  function Continue(s: State, t: nat, then_: Then): State
    requires t < |s.threads|
  {
    match then_
    case NextTask => Goto(s, t, WorkerWait)
    case Return => Goto(s, t, Home(s, t))
    case More(tasks) => Onward(s, t, tasks)
  }

  /** `takePendingBatch_` and the submission of what it took, with a barrier behind it for a flush. */
  function TakePending(s: State, t: nat, barrier: bool, finalBatch: bool): State
    requires t < |s.threads|
  {
    var tasks := (if s.pending == [] then [] else [Batch(s.pending, !finalBatch && Urgent(s, s.pending))])
      + (if barrier then [Barrier] else []);
    Onward(s.(pending := [], submitted := s.submitted + tasks, lock := Some(t)), t, tasks)
  }

  /** `sink_it_` under the mutex. */
  function LogSection(s: State, t: nat, event: Event, expired: bool): State
    requires t < |s.threads|
  {
    var s1 := s.(pending := s.pending + [event], logged := s.logged + [event]);
    if |s1.pending| >= s.batchSize || expired || event.level >= s.flushLevel then TakePending(s1, t, false, false)
    else Goto(s1, t, Idle)
  }

  /** `submit`: room is taken at once, a stopped pool refuses, otherwise the caller waits, mutex and all. */
  function SubmitStep(s: State, t: nat, tasks: seq<Task>): State
    requires t < |s.threads| && tasks != []
  {
    if s.stopped then
      match tasks[0]
      case Batch(events, _) => Goto(s, t, Writing(events, 0, 0, true, More(tasks[1..])))
      case Barrier => Goto(s, t, Flushing(0, More(tasks[1..])))
      case Foreign => Onward(s, t, tasks[1..])
    else if |s.queue| < s.cap then Onward(s.(queue := s.queue + [tasks[0]]), t, tasks[1..])
    else s
  }

  function WriteTo(sink: Sink, event: Event): Sink {
    if event.level >= sink.level then sink.(trace := sink.trace + [Wrote(event)]) else sink
  }

  function WriteStep(s: State, t: nat, pc: Pc): State
    requires t < |s.threads| && pc.Writing?
  {
    if pc.i >= |pc.events| then (if pc.flush then Goto(s, t, Flushing(0, pc.then_)) else Continue(s, t, pc.then_))
    else if pc.k >= |s.sinks| then Goto(s, t, Writing(pc.events, pc.i + 1, 0, pc.flush, pc.then_))
    else Goto(s.(sinks := s.sinks[pc.k := WriteTo(s.sinks[pc.k], pc.events[pc.i])]), t,
      Writing(pc.events, pc.i, pc.k + 1, pc.flush, pc.then_))
  }

  function FlushStep(s: State, t: nat, pc: Pc): State
    requires t < |s.threads| && pc.Flushing?
  {
    if pc.k >= |s.sinks| then Continue(s, t, pc.then_)
    else
      var sink := s.sinks[pc.k];
      Goto(s.(sinks := s.sinks[pc.k := sink.(trace := sink.trace + [Flushed])]), t, Flushing(pc.k + 1, pc.then_))
  }

  function WorkerStep(s: State, t: nat): State
    requires t < |s.threads|
  {
    if s.queue == [] then (if s.stopped then Goto(s, t, WorkerExit) else s)
    else
      var s1 := s.(queue := s.queue[1..]);
      match s.queue[0]
      case Batch(events, flush) => Goto(s1, t, Writing(events, 0, 0, flush, NextTask))
      case Barrier => Goto(s1, t, Flushing(0, NextTask))
      case Foreign => s1
  }

  /** The destructor runs when nothing refers to the logger: no call, no queued and no running task of its own. */
  predicate Unreferenced(s: State, t: nat) {
    && (forall task :: task in s.queue ==> task.Foreign?)
    && forall u :: 0 <= u < |s.threads| && u != t ==>
         s.threads[u].Idle? || s.threads[u].WorkerWait? || s.threads[u].WorkerExit?
  }

  /**
   What is left is handed on as the last batch, asking for no flush of its own. That it is submitted
   behind the mutex is seen by nobody, since nothing refers to the logger any more.
   */
  function DestroySection(s: State, t: nat): State
    requires t < |s.threads|
  {
    var s1 := s.(destroyed := true);
    if s.pending == [] then s1
    else if s.gone then
      Goto(s1.(pending := [], submitted := s.submitted + [Batch(s.pending, true)]), t,
        Writing(s.pending, 0, 0, true, Return))
    else TakePending(s1, t, false, true)
  }

  /** The last reference to the logger goes away. */
  function LastReference(s: State, t: nat): State
    requires t < |s.threads|
  {
    if s.destroyed || !Unreferenced(s, t) then s else DestroySection(s, t)
  }

  function CallStep(s: State, t: nat, a: Action): State
    requires t < |s.threads|
  {
    match a
    case CallLog(event) => if s.destroyed then s else Goto(s, t, LogEnter(event))
    case CallFlush => if s.destroyed then s else Goto(s, t, FlushEnter)
    case CallDestroy => LastReference(s, t)
    case SubmitForeign => if !s.stopped && |s.queue| < s.cap then s.(queue := s.queue + [Foreign]) else s
    case StopPool => s.(stopped := true)
    case DropPool => s.(stopped := true, gone := true)
    case Go(_) => s
  }

  function Step(s: State, t: nat, a: Action): (s': State)
  {
    if t >= |s.threads| then s
    else
      match s.threads[t]
      case Idle => CallStep(s, t, a)
      case LogEnter(event) =>
        if s.gone then
          Goto(s.(logged := s.logged + [event], submitted := s.submitted + [Batch([event], event.level >= s.flushLevel)]), t,
            Writing([event], 0, 0, event.level >= s.flushLevel, Return))
        else Goto(s, t, LogLock(event))
      case LogLock(event) => if s.lock.Some? then s else LogSection(s, t, event, a.Go? && a.expired)
      case FlushEnter => Goto(s, t, FlushLock(s.gone))
      case FlushLock(poolGone) =>
        if s.lock.Some? then s
        else if poolGone then
          Goto(s.(lock := Some(t), pending := [], submitted := s.submitted + [Batch(s.pending, true)]), t,
            Writing(s.pending, 0, 0, true, More([])))
        else TakePending(s, t, true, false)
      case Submitting(tasks) => if tasks == [] then s else SubmitStep(s, t, tasks)
      case Writing(_, _, _, _, _) => WriteStep(s, t, s.threads[t])
      case Flushing(_, _) => FlushStep(s, t, s.threads[t])
      case WorkerWait => if a.CallDestroy? then LastReference(s, t) else WorkerStep(s, t)
      case WorkerExit => s
  }

  function Run(s: State, moves: seq<(nat, Action)>): State
    decreases |moves|
  {
    if moves == [] then s else Run(Step(s, moves[0].0, moves[0].1), moves[1..])
  }

  function FirstThreads(n: nat): (ids: seq<nat>)
    ensures |ids| == n && forall i :: 0 <= i < n ==> ids[i] == i
  {
    seq(n, i => i)
  }

  function Start(batchSize: nat, flushLevel: int, cap: nat, levels: seq<int>, workers: nat, callers: nat): State {
    State(if batchSize == 0 then 1 else batchSize, flushLevel, cap,
      seq(|levels|, k requires 0 <= k < |levels| => Sink(levels[k], [])), [], None, [], false, false, false,
      seq(workers + callers, t => if t < workers then WorkerWait else Idle),
      set t | t in FirstThreads(workers), [], [])
  }
}
