/**
 The database connection pool as a state machine over the steps of its threads.

 Every access to a shared variable (the idle queue, a counter, a flag, a mutex, the condition
 variable) is one step. The idle queue is used through `QueueSpec`, with its spurious failures:
 `dequeue` fails exactly in steps where the head is not published, `enqueue` may fail at any time
 and is retried. Thread 0 is the maintenance thread; any other thread may at any time call
 `getConnection`, return a borrowed connection, run a queued creation task, or shut the pool down.
 */
module DbPool {
  import Q = QueueSpec

  type Conn = nat

  datatype Option<T> = None | Some(value: T)

  /** On whose behalf a connection is put back or discarded. */
  datatype Role = Nobody | Releaser | Creator | FirstRound | SecondRound | Stopper

  datatype Label =
    | Idle
    // getConnection
    | TakeFast | UncountFast | BorrowCheck | BorrowFlag | BorrowDone
    // waitForIdle
    | CountIn | LockWait | Recheck | UncountWait | ReadStop | Commit | Asleep | Relock | Leave | CountOut
    // releaseConnection, enqueueIdle, discard, and the notification they share
    | Return | Spin | Pub | Count | SeeWaiters | LockNotify | Notify | UnlockNotify | ReleaseCheck | ReleaseFlag
    | CountOff | Erase | Delete
    // createOne
    | Create | Register
    // maintenanceLoop, scanConnections, replenishToMinIdle
    | MSleep | MReset | MDrain | MUncount | MPing | MSecond | MLow | MLowFlag | MNeed | MNeedIdle
    | MReadIdle | MReadTotal | MReserve | MSubmit

  /** What a thread's local connection pointer is to it: null, its own, or already in the idle queue. */
  datatype Grip = Nothing | Mine | InQueue

  /**
   A thread: its program counter and its local variables. `requeued` is reset as soon as it is dead,
   that is, when the scan's one notification has been made or found unnecessary.
   */
  datatype Thread = Thread(
    at: Label,
    role: Role,
    conn: Conn,
    grip: Grip,
    ticket: nat,
    timedOut: bool,
    todo: seq<Conn>,
    healthy: seq<Conn>,
    surplus: nat,
    requeued: bool,
    need: nat)

  const RESTING := Thread(Idle, Nobody, 0, Nothing, 0, false, [], [], 0, false, 0)

  /** The one shared access a step performs. */
  datatype Effect =
    | Nop
    | Take
    | Claim(c: Conn)
    | Publish(c: Conn, ticket: nat)
    | IdleAdd
    | IdleSub
    | WaitersAdd
    | WaitersSub
    | Lock
    | Unlock
    | NotifyAll
    | SetNeed(b: bool)
    | SetStop
    | TotalSub(c: Conn)
    | Unregister(c: Conn)
    | Destroy(c: Conn)
    | StartTask
    | New
    | Abandon
    | Enlist(c: Conn)
    | Reserve(n: nat)
    | Submit
    | Lend(c: Conn)
    | Reclaim(c: Conn)

  /** What the world outside decides: which call begins, or how a check on a connection turns out. */
  datatype Action =
    | CallGet
    | CallReturn(c: Conn)
    | CallStop
    | RunTask
    | Timeout
    | SpuriousWake
    | Go(verdict: Verdict)

  datatype Verdict = Good | Stale | Bad

  datatype Owner = Held(thread: nat) | Claimed(thread: nat) | Queued | Lent

  /**
   The shared variables, followed by history that no step reads: the owner of every live
   connection, the connections `total` counts, and the threads inside each counted region.
   */
  datatype Pool = Pool(
    maxSize: nat,
    minIdle: nat,
    queue: Q.Queue<Conn>,
    total: int,
    idle: int,
    waiters: int,
    needReplenish: bool,
    stopped: bool,
    lock: Option<nat>,
    registry: set<Conn>,
    createQueue: nat,
    borrowed: set<Conn>,
    threads: seq<Thread>,
    nextConn: nat,
    owner: map<Conn, Owner>,
    counted: set<Conn>,
    takers: set<nat>,
    adders: set<nat>,
    waiting: set<nat>,
    creating: set<nat>)

  datatype Config = Config(maxPoolSize: int, minIdle: int)

  function Max(a: int, b: int): int { if a < b then b else a }

  function Min(a: int, b: int): int { if a < b then a else b }

  function FirstConns(n: nat): (ids: seq<Conn>)
    ensures |ids| == n && forall i :: 0 <= i < n ==> ids[i] == i
  {
    seq(n, i => i)
  }

  function ConnSet(n: nat): set<Conn> { set c | c in FirstConns(n) }

  /** The pool after construction: `minIdle` connections created, registered and idle. */
  function Start(config: Config, cap: nat, threads: nat): Pool {
    var maxSize := Max(1, config.maxPoolSize);
    var minIdle := Min(Max(0, config.minIdle), maxSize);
    var ids := FirstConns(minIdle);
    var conns := ConnSet(minIdle);
    Pool(maxSize, minIdle,
      Q.Queue(cap, 0, seq(minIdle, i requires 0 <= i < minIdle => Q.Entry(ids[i], true)), {}),
      minIdle, minIdle, 0, false, false, None, conns, 0, {},
      seq(threads, t => if t == 0 then RESTING.(at := MSleep) else RESTING),
      minIdle, map c | c in conns :: Queued, conns, {}, {}, {}, {})
  }

  // ----- The program: at each program counter, one access and what follows -----

  function Goto(th: Thread, at: Label): (Effect, Thread) { (Nop, th.(at := at)) }

  function Do(e: Effect, th: Thread, at: Label): (Effect, Thread) { (e, th.(at := at)) }

  /** Acquiring the mutex, or waiting for it. */
  function Acquire(s: Pool, th: Thread, at: Label): (Effect, Thread) {
    if s.lock.None? then Do(Lock, th, at) else (Nop, th)
  }

  /** A successful dequeue of the published head. */
  function Grab(s: Pool, th: Thread, at: Label): (Effect, Thread)
    requires Q.HeadPublished(s.queue)
  {
    (Take, th.(at := at, conn := s.queue.entries[0].value, grip := Mine))
  }

  function AfterNotify(role: Role): Label {
    match role
    case Releaser => ReleaseCheck
    case SecondRound => MLow
    case _ => Idle
  }

  function AfterDiscard(role: Role): Label {
    match role
    case FirstRound => MPing
    case SecondRound => MSecond
    case _ => ReleaseCheck
  }

  /** `getConnection` outside the wait protocol. */
  function BorrowStep(s: Pool, th: Thread): (Effect, Thread) {
    match th.at
    case TakeFast => if Q.HeadPublished(s.queue) then Grab(s, th, UncountFast) else Goto(th, CountIn)
    case UncountFast => Do(IdleSub, th, BorrowCheck)
    case BorrowCheck => Goto(th, if s.idle < s.minIdle then BorrowFlag else BorrowDone)
    case BorrowFlag => Do(SetNeed(true), th, BorrowDone)
    case BorrowDone => Do(Lend(th.conn), th.(grip := Nothing), Idle)
    case _ => (Nop, th)
  }

  /** `waitForIdle`: count oneself in, re-check under the mutex, and only then sleep. */
  function WaitStep(s: Pool, th: Thread): (Effect, Thread) {
    match th.at
    case CountIn => Do(WaitersAdd, th, LockWait)
    case LockWait => Acquire(s, th, Recheck)
    case Recheck => if Q.HeadPublished(s.queue) then Grab(s, th, UncountWait) else Goto(th, ReadStop)
    case UncountWait => Do(IdleSub, th, Leave)
    case ReadStop => Goto(th, if s.stopped then Leave else Commit)
    case _ => (Nop, th)
  }

  /** `waitForIdle` from going to sleep on: awake by notice, by timeout or for no reason, try again or give up. */
  function SleepStep(s: Pool, th: Thread, a: Action): (Effect, Thread) {
    match th.at
    case Commit => Do(Unlock, th, Asleep)
    case Asleep =>
      if a.Timeout? then Goto(th.(timedOut := true), Relock)
      else if a.SpuriousWake? then Goto(th, Relock)
      else (Nop, th)
    case Relock =>
      if th.timedOut || a.Timeout? then Acquire(s, th.(timedOut := true), Leave) else Acquire(s, th, Recheck)
    case Leave => Do(Unlock, th, CountOut)
    case CountOut => Do(WaitersSub, th.(timedOut := false), if th.grip.Mine? then BorrowCheck else Idle)
    case _ => (Nop, th)
  }

  /** `releaseConnection` up to the notification, `enqueueIdle` and the counting after it. */
  function PutStep(s: Pool, th: Thread, ok: bool): (Effect, Thread) {
    match th.at
    case Return => Goto(th.(role := Releaser), if ok then Spin else CountOff)
    case Spin =>
      if ok && |s.queue.entries| < s.queue.cap then
        Do(Claim(th.conn), th.(grip := InQueue, ticket := s.queue.base + |s.queue.entries|), Pub)
      else (Nop, th)
    case Pub => Do(Publish(th.conn, th.ticket), th.(grip := Nothing, requeued := th.role.SecondRound?), Count)
    case Count => Do(IdleAdd, th, if th.role.SecondRound? then MSecond else SeeWaiters)
    case _ => (Nop, th)
  }

  /** The notification made after putting a connection back, and by `shutdown`. */
  function NoticeStep(s: Pool, th: Thread): (Effect, Thread) {
    match th.at
    case SeeWaiters =>
      if s.waiters > 0 then Goto(th, LockNotify)
      else Goto(th.(requeued := false), AfterNotify(th.role))
    case LockNotify => Acquire(s, th, Notify)
    case Notify => Do(NotifyAll, th.(requeued := false), UnlockNotify)
    case UnlockNotify => Do(Unlock, th, AfterNotify(th.role))
    case _ => (Nop, th)
  }

  /** `discard`, and the water-mark check that ends `releaseConnection`. */
  function DiscardStep(s: Pool, th: Thread): (Effect, Thread) {
    match th.at
    case ReleaseCheck => Goto(th, if s.idle < s.minIdle then ReleaseFlag else Idle)
    case ReleaseFlag => Do(SetNeed(true), th, Idle)
    case CountOff => Do(TotalSub(th.conn), th, Erase)
    case Erase => Do(Unregister(th.conn), th, Delete)
    case Delete => Do(Destroy(th.conn), th.(grip := Nothing), AfterDiscard(th.role))
    case _ => (Nop, th)
  }

  function CreateStep(s: Pool, th: Thread, ok: bool): (Effect, Thread) {
    match th.at
    case Create =>
      if ok then Do(New, th.(conn := s.nextConn, grip := Mine), Register) else Do(Abandon, th, Idle)
    case Register => Do(Enlist(th.conn), th.(role := Creator), Spin)
    case _ => (Nop, th)
  }

  /** `scanConnections`: drain the idle queue. */
  function DrainStep(s: Pool, th: Thread): (Effect, Thread) {
    match th.at
    case MSleep => Goto(th, if s.stopped then MSleep else MReset)
    case MReset => Do(SetNeed(false), th, MDrain)
    case MDrain => if Q.HeadPublished(s.queue) then Grab(s, th, MUncount) else Goto(th, MPing)
    case MUncount => Do(IdleSub, th.(todo := th.todo + [th.conn], grip := Nothing), MDrain)
    case _ => (Nop, th)
  }

  /** `scanConnections`: the keepalive round and the second round over the drained connections. */
  function ScanStep(s: Pool, th: Thread, verdict: Verdict): (Effect, Thread) {
    match th.at
    case MPing =>
      if th.todo == [] then
        Goto(th.(todo := th.healthy, healthy := [], surplus := Max(|th.healthy| - s.minIdle, 0)), MSecond)
      else if verdict.Bad? then
        Goto(th.(todo := th.todo[1..], conn := th.todo[0], grip := Mine, role := FirstRound), CountOff)
      else Goto(th.(todo := th.todo[1..], healthy := th.healthy + [th.todo[0]]), MPing)
    case MSecond =>
      if th.todo == [] then Goto(th.(role := SecondRound), if th.requeued then SeeWaiters else MLow)
      else
        var next := th.(todo := th.todo[1..], conn := th.todo[0], grip := Mine, role := SecondRound);
        if verdict.Bad? then Goto(next, CountOff)
        else if verdict.Stale? && th.surplus > 0 then Goto(next.(surplus := th.surplus - 1), CountOff)
        else Goto(next, Spin)
    case _ => (Nop, th)
  }

  /** The end of a scan, and whether to replenish. */
  function RoundStep(s: Pool, th: Thread): (Effect, Thread) {
    match th.at
    case MLow => Goto(th, if s.idle < s.minIdle then MLowFlag else MNeed)
    case MLowFlag => Do(SetNeed(true), th, MNeed)
    case MNeed => Goto(th, if s.needReplenish then MReadIdle else MNeedIdle)
    case MNeedIdle => Goto(th, if s.idle < s.minIdle then MReadIdle else MSleep)
    case _ => (Nop, th)
  }

  /** `replenishToMinIdle`, which reads, computes, and only then adds. */
  function ReplenishStep(s: Pool, th: Thread): (Effect, Thread) {
    match th.at
    case MReadIdle =>
      if s.idle >= s.minIdle then Goto(th, MSleep) else Goto(th.(need := s.minIdle - s.idle), MReadTotal)
    case MReadTotal =>
      var granted := Min(th.need, s.maxSize - s.total);
      if granted <= 0 then Goto(th, MSleep) else Goto(th.(need := granted), MReserve)
    case MReserve => Do(Reserve(th.need), th, MSubmit)
    case MSubmit => if th.need == 0 then Goto(th, MSleep) else Do(Submit, th.(need := th.need - 1), MSubmit)
    case _ => (Nop, th)
  }

  function CallStep(s: Pool, t: nat, th: Thread, a: Action): (Effect, Thread) {
    match a
    case CallGet => if t > 0 then Goto(th, TakeFast) else (Nop, th)
    case CallReturn(c) =>
      if t > 0 && c in s.borrowed then Do(Reclaim(c), th.(conn := c, grip := Mine), Return) else (Nop, th)
    case CallStop => if t > 0 && !s.stopped then Do(SetStop, th.(role := Stopper), LockNotify) else (Nop, th)
    case RunTask => if t > 0 && s.createQueue > 0 then Do(StartTask, th, Create) else (Nop, th)
    case _ => (Nop, th)
  }

  /** Which of the functions above a program counter belongs to. */
  datatype Part =
    | Calling | Borrowing | Waiting | Sleeping | Putting | Noticing | Discarding | Creating
    | Draining | Scanning | Rounding | Replenishing

  function PartOf(at: Label): Part {
    match at
    case Idle => Calling
    case TakeFast | UncountFast | BorrowCheck | BorrowFlag | BorrowDone => Borrowing
    case CountIn | LockWait | Recheck | UncountWait | ReadStop => Waiting
    case Commit | Asleep | Relock | Leave | CountOut => Sleeping
    case Return | Spin | Pub | Count => Putting
    case SeeWaiters | LockNotify | Notify | UnlockNotify => Noticing
    case ReleaseCheck | ReleaseFlag | CountOff | Erase | Delete => Discarding
    case Create | Register => Creating
    case MSleep | MReset | MDrain | MUncount => Draining
    case MPing | MSecond => Scanning
    case MLow | MLowFlag | MNeed | MNeedIdle => Rounding
    case _ => Replenishing
  }

  function Program(s: Pool, t: nat, th: Thread, a: Action): (Effect, Thread) {
    var ok := a.Go? && a.verdict.Good?;
    match PartOf(th.at)
    case Calling => CallStep(s, t, th, a)
    case Borrowing => BorrowStep(s, th)
    case Waiting => WaitStep(s, th)
    case Sleeping => SleepStep(s, th, a)
    case Putting => PutStep(s, th, ok)
    case Noticing => NoticeStep(s, th)
    case Discarding => DiscardStep(s, th)
    case Creating => CreateStep(s, th, ok)
    case Draining => DrainStep(s, th)
    case Scanning => ScanStep(s, th, if a.Go? then a.verdict else Good)
    case Rounding => RoundStep(s, th)
    case Replenishing => ReplenishStep(s, th)
  }

  // ----- What an access does -----

  function Awake(th: Thread): Thread { if th.at.Asleep? then th.(at := Relock) else th }

  function WakeAll(threads: seq<Thread>): (r: seq<Thread>)
    ensures |r| == |threads|
    ensures forall u :: 0 <= u < |r| ==> r[u] == Awake(threads[u])
  {
    seq(|threads|, u requires 0 <= u < |threads| => Awake(threads[u]))
  }

  predicate Enabled(s: Pool, e: Effect) {
    match e
    case Take => Q.HeadPublished(s.queue)
    case Claim(_) => |s.queue.entries| < s.queue.cap
    case Publish(_, k) => s.queue.base <= k < s.queue.base + |s.queue.entries|
    case StartTask => s.createQueue > 0
    case _ => true
  }

  function Perform(s: Pool, t: nat, e: Effect): Pool
    requires Enabled(s, e)
  {
    match e
    case Nop => s
    case Take =>
      var c := s.queue.entries[0].value;
      s.(queue := s.queue.(base := s.queue.base + 1, entries := s.queue.entries[1..], held := s.queue.held + {s.queue.base}),
         owner := s.owner[c := Held(t)], takers := s.takers + {t})
    case Claim(c) =>
      s.(queue := s.queue.(entries := s.queue.entries + [Q.Entry(c, false)]),
         owner := s.owner[c := Claimed(t)], adders := s.adders + {t})
    case Publish(c, k) =>
      var i := k - s.queue.base;
      s.(queue := s.queue.(entries := s.queue.entries[i := s.queue.entries[i].(published := true)]),
         owner := s.owner[c := Queued])
    case IdleAdd => s.(idle := s.idle + 1, adders := s.adders - {t})
    case IdleSub => s.(idle := s.idle - 1, takers := s.takers - {t})
    case WaitersAdd => s.(waiters := s.waiters + 1, waiting := s.waiting + {t})
    case WaitersSub => s.(waiters := s.waiters - 1, waiting := s.waiting - {t})
    case Lock => s.(lock := Some(t))
    case Unlock => s.(lock := None)
    case NotifyAll => s.(threads := WakeAll(s.threads))
    case SetNeed(b) => s.(needReplenish := b)
    case SetStop => s.(stopped := true)
    case TotalSub(c) => s.(total := s.total - 1, counted := s.counted - {c})
    case Unregister(c) => s.(registry := s.registry - {c})
    case Destroy(c) => s.(owner := s.owner - {c})
    case StartTask => s.(createQueue := s.createQueue - 1, creating := s.creating + {t})
    case New =>
      s.(nextConn := s.nextConn + 1, owner := s.owner[s.nextConn := Held(t)],
         counted := s.counted + {s.nextConn}, creating := s.creating - {t})
    case Abandon => s.(total := s.total - 1, creating := s.creating - {t})
    case Enlist(c) => s.(registry := s.registry + {c})
    case Reserve(n) => s.(total := s.total + n)
    case Submit => s.(createQueue := s.createQueue + 1)
    case Lend(c) => s.(borrowed := s.borrowed + {c}, owner := s.owner[c := Lent])
    case Reclaim(c) => s.(borrowed := s.borrowed - {c}, owner := s.owner[c := Held(t)])
  }

  function MoveTo(s: Pool, t: nat, th: Thread): Pool
    requires t < |s.threads|
  {
    s.(threads := s.threads[t := th])
  }

  /** One step of one thread; `Enabled` is no restriction in reachable states. */
  function Step(s: Pool, t: nat, a: Action): (s': Pool)
    ensures |s'.threads| == |s.threads|
  {
    if t >= |s.threads| then s
    else
      var (e, th) := Program(s, t, s.threads[t], a);
      if Enabled(s, e) then MoveTo(Perform(s, t, e), t, th) else s
  }

  /** A consumer of the idle queue gives back the slot of a ticket it took, some time after taking. */
  function GiveBack(s: Pool, ticket: nat): Pool {
    s.(queue := s.queue.(held := s.queue.held - {ticket}))
  }

  datatype Move = ThreadStep(thread: nat, action: Action) | SlotReturn(ticket: nat)

  function Next(s: Pool, m: Move): Pool {
    match m
    case ThreadStep(t, a) => Step(s, t, a)
    case SlotReturn(k) => GiveBack(s, k)
  }

  function Run(s: Pool, moves: seq<Move>): Pool
    decreases |moves|
  {
    if moves == [] then s else Run(Next(s, moves[0]), moves[1..])
  }
}
