/**
 The blocking queue and the thread pool over it, as a state machine.

 A critical section of `mutex_` is one step: nothing else touches the ring or the state while it is
 held, and `wait` gives it up and goes to sleep at once. Everything outside the mutex, the early
 look at the state, every `notify_one` and `notify_all`, each wakeup, is a step of its own, so a
 notification can come arbitrarily late, and a sleeper can wake by notice, by timeout or for no
 reason. The ring is used through its meaning, the drop-oldest bounded sequence of `CircularQueue`.
 */
module BlockingQueue {
  import CircularQueue

  datatype Option<T> = None | Some(value: T)

  datatype Mode = Running | Drain | Immediate

  datatype PushKind = PushWait | PushFor | PushOverwrite | PushTry

  /** `PopWork` is the `dequeue` of a pool worker, which runs what it gets and asks again. */
  datatype PopKind = PopWait | PopFor | PopTry | PopWork

  datatype Pc<T> =
    | Idle
    | PushEnter(push: PushKind, item: T)                          // the look at the state before the mutex
    | Pushing(push: PushKind, item: T, woken: bool, expired: bool) // about to take the mutex
    | PushAsleep(push: PushKind, item: T)                         // waiting on not_full_cv_
    | PushNotify                                                  // pushed, about to notify_one
    | Popping(pop: PopKind, woken: bool, expired: bool)
    | PopAsleep(pop: PopKind)                                     // waiting on not_empty_cv_
    | PopNotify(pop: PopKind, got: Option<nat>)                   // about to notify_one, then return
    | Starting(task: nat)                                         // a worker about to run its task
    | Delivering(task: nat)                                       // running the task, or returning the item
    | Exited
    | StopEnter(mode: Mode)
    | StopNotifyEmpty                                             // about to notify_all on not_empty_cv_
    | StopNotifyFull

  datatype Fate = Taken(thread: nat) | Dropped

  /**
   The queue, then history that no step reads: the items accepted, numbered in that order; for those
   that have left the ring, who took them; those whose consumer has them in hand, and those
   delivered; and the order in which workers started their tasks.
   */
  datatype State<T> = State(
    cap: nat,
    queue: seq<T>,
    mode: Mode,
    overrun: nat,
    discards: nat,
    threads: seq<Pc<T>>,
    workers: set<nat>,
    accepted: seq<T>,
    fates: seq<Fate>,
    taken: nat,
    holding: set<nat>,
    finished: set<nat>,
    started: seq<nat>)
  {
    predicate Full() { |queue| >= cap }
    predicate Stopped() { !mode.Running? }
  }

  datatype Effect<T> =
    | Nop
    | Push(item: T)
    | Discard
    | TakeFront
    | Deliver(task: nat)
    | Begin(task: nat)
    | SetMode(mode: Mode)
    | WakeOnePop
    | WakeOnePush
    | WakeAllPop
    | WakeAllPush

  /** `sleeper` is whom a `notify_one` of this step would wake. */
  datatype Action<T> =
    | CallPush(push: PushKind, item: T)
    | CallPop(pop: PopKind)
    | CallStop(mode: Mode)
    | Expire
    | WakeSpuriously
    | Go(sleeper: nat)

  // ----- The program -----

  /** `enqueue`, `enqueue_for`, `enqueue_overwrite`, `try_enqueue`, from taking the mutex to giving it up. */
  function PushSection<T>(s: State<T>, pc: Pc<T>): (Effect<T>, Pc<T>)
    requires pc.Pushing?
  {
    match pc.push
    case PushOverwrite => if s.Stopped() then (Nop, Idle) else (Push(pc.item), PushNotify)
    case PushTry =>
      if s.Full() || s.Stopped() then ((if s.Full() then Discard else Nop), Idle)
      else (Push(pc.item), PushNotify)
    case _ =>
      if s.Full() && !s.Stopped() then
        (Nop, if pc.expired then Idle else PushAsleep(pc.push, pc.item))
      else if s.Stopped() then (Nop, Idle)
      else (Push(pc.item), PushNotify)
  }

  /** `dequeue`, `dequeue_for`, `try_dequeue`, likewise. */
  function PopSection<T>(s: State<T>, pc: Pc<T>): (Effect<T>, Pc<T>)
    requires pc.Popping?
  {
    var first := |s.fates|;
    match pc.pop
    case PopTry =>
      if s.queue == [] || s.Stopped() then (Nop, Idle) else (TakeFront, PopNotify(PopTry, Some(first)))
    case PopFor =>
      if s.queue == [] && !s.Stopped() then
        (Nop, if pc.expired then PopNotify(PopFor, None) else PopAsleep(PopFor))
      else if !s.mode.Immediate? && s.queue != [] then (TakeFront, PopNotify(PopFor, Some(first)))
      else (Nop, PopNotify(PopFor, None))
    case _ =>
      if s.queue == [] && !s.Stopped() then (Nop, PopAsleep(pc.pop))
      else if !s.mode.Immediate? && s.queue != [] then (TakeFront, PopNotify(pc.pop, Some(first)))
      else (Nop, if pc.pop.PopWork? then Exited else Idle)
  }

  function Program<T>(s: State<T>, pc: Pc<T>, a: Action<T>): (Effect<T>, Pc<T>) {
    match pc
    case Idle =>
      (match a
       case CallPush(push, item) => (Nop, PushEnter(push, item))
       case CallPop(pop) => (Nop, if pop.PopWork? || s.workers != {} then Idle else Popping(pop, false, false))
       case CallStop(mode) => (Nop, if mode.Running? then Idle else StopEnter(mode))
       case _ => (Nop, Idle))
    case PushEnter(push, item) => (Nop, if s.Stopped() then Idle else Pushing(push, item, false, false))
    case Pushing(_, _, _, _) => PushSection(s, pc)
    case PushAsleep(push, item) =>
      (match a
       case Expire => (Nop, if push.PushFor? then Pushing(push, item, true, true) else pc)
       case WakeSpuriously => (Nop, Pushing(push, item, true, false))
       case _ => (Nop, pc))
    case PushNotify => (WakeOnePop, Idle)
    case Popping(_, _, _) => PopSection(s, pc)
    case PopAsleep(pop) =>
      (match a
       case Expire => (Nop, if pop.PopFor? then Popping(pop, true, true) else pc)
       case WakeSpuriously => (Nop, Popping(pop, true, false))
       case _ => (Nop, pc))
    case PopNotify(pop, got) =>
      (WakeOnePush, if got.None? then Idle else if pop.PopWork? then Starting(got.value) else Delivering(got.value))
    case Starting(task) => (Begin(task), Delivering(task))
    case Delivering(task) => (Deliver(task), Idle)
    case Exited => (Nop, Exited)
    case StopEnter(mode) => if s.Stopped() then (Nop, Idle) else (SetMode(mode), StopNotifyEmpty)
    case StopNotifyEmpty => (WakeAllPop, StopNotifyFull)
    case StopNotifyFull => (WakeAllPush, Idle)
  }

  /** A worker that has run its task asks for the next one; any other thread is done with its call. */
  function Resume<T>(s: State<T>, t: nat, pc: Pc<T>): Pc<T> {
    if t in s.workers && pc.Idle? then Popping(PopWork, false, false) else pc
  }

  // ----- What a step does -----

  function Awake<T>(pc: Pc<T>): Pc<T> {
    match pc
    case PushAsleep(push, item) => Pushing(push, item, true, false)
    case PopAsleep(pop) => Popping(pop, true, false)
    case _ => pc
  }

  predicate SomePopAsleep<T>(s: State<T>) {
    exists u: nat :: u < |s.threads| && s.threads[u].PopAsleep?
  }

  predicate SomePushAsleep<T>(s: State<T>) {
    exists u: nat :: u < |s.threads| && s.threads[u].PushAsleep?
  }

  /** A `notify_one` wakes one sleeper if there is any; `w` must be a sleeper then. */
  predicate Enabled<T>(s: State<T>, e: Effect<T>, w: nat) {
    match e
    case WakeOnePop => SomePopAsleep(s) ==> w < |s.threads| && s.threads[w].PopAsleep?
    case WakeOnePush => SomePushAsleep(s) ==> w < |s.threads| && s.threads[w].PushAsleep?
    case TakeFront => s.queue != []
    case Push(_) => |s.queue| <= s.cap
    case _ => true
  }

  function WakeThreads<T>(threads: seq<Pc<T>>, e: Effect<T>, w: nat): (r: seq<Pc<T>>)
    ensures |r| == |threads|
    ensures forall u :: 0 <= u < |r| ==>
      r[u] == if Woken(threads[u], e, u, w) then Awake(threads[u]) else threads[u]
  {
    seq(|threads|, u requires 0 <= u < |threads| =>
      if Woken(threads[u], e, u, w) then Awake(threads[u]) else threads[u])
  }

  predicate Woken<T>(pc: Pc<T>, e: Effect<T>, u: nat, w: nat) {
    match e
    case WakeOnePop => pc.PopAsleep? && u == w
    case WakeOnePush => pc.PushAsleep? && u == w
    case WakeAllPop => pc.PopAsleep?
    case WakeAllPush => pc.PushAsleep?
    case _ => false
  }

  /** Which item numbers have left the ring, after one push. */
  function FatesAfterPush<T>(s: State<T>): seq<Fate> {
    if |s.queue| < s.cap then s.fates else s.fates + [Dropped]
  }

  function Perform<T>(s: State<T>, t: nat, e: Effect<T>): State<T>
    requires e.TakeFront? ==> s.queue != []
    requires e.Push? ==> |s.queue| <= s.cap
  {
    match e
    case Push(item) =>
      s.(queue := CircularQueue.PushBounded(s.queue, item, s.cap),
         overrun := s.overrun + (if |s.queue| < s.cap then 0 else 1),
         accepted := s.accepted + [item], fates := FatesAfterPush(s))
    case Discard => s.(discards := s.discards + 1)
    case TakeFront =>
      s.(queue := s.queue[1..], fates := s.fates + [Taken(t)], taken := s.taken + 1,
         holding := s.holding + {|s.fates|})
    case Deliver(i) => s.(holding := s.holding - {i}, finished := s.finished + {i})
    case Begin(i) => s.(started := s.started + [i])
    case SetMode(mode) => s.(mode := mode)
    case _ => s
  }

  /** One step of one thread. */
  function Step<T>(s: State<T>, t: nat, a: Action<T>): (s': State<T>)
    ensures |s'.threads| == |s.threads|
  {
    if t >= |s.threads| then s
    else
      var (e, pc) := Program(s, s.threads[t], a);
      var w := if a.Go? then a.sleeper else t;
      if Enabled(s, e, w) then
        Perform(s, t, e).(threads := WakeThreads(s.threads, e, w)[t := Resume(s, t, pc)])
      else s
  }

  function Run<T>(s: State<T>, moves: seq<(nat, Action<T>)>): State<T>
    decreases |moves|
  {
    if moves == [] then s else Run(Step(s, moves[0].0, moves[0].1), moves[1..])
  }

  function FirstThreads(n: nat): (ids: seq<nat>)
    ensures |ids| == n && forall i :: 0 <= i < n ==> ids[i] == i
  {
    seq(n, i => i)
  }

  /**
   A pool starts its workers, and they alone dequeue from its private queue; a bare queue is a pool
   without workers.
   */
  function Start<T>(cap: nat, workers: nat, others: nat): State<T> {
    State(cap, [], Running, 0, 0,
      seq(workers + others, t => if t < workers then Popping(PopWork, false, false) else Idle),
      set t | t in FirstThreads(workers), [], [], 0, {}, {}, [])
  }
}
