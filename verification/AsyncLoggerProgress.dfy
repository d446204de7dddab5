/**
 The asynchronous logger gets on: whatever was called comes to an end by itself, except where the
 destructor, run by the only worker, waits for room in the pool's queue.
 */
module AsyncLoggerProgress {
  import opened AsyncLogger
  import opened AsyncLoggerSafety
  import opened AsyncLoggerBatches

  /** A thread has nothing to do, or waits: for the mutex, for room, or for a task. */
  predicate Blocked(s: State, t: nat)
    requires t < |s.threads|
  {
    match s.threads[t]
    case Idle => true
    case WorkerExit => true
    case LogLock(_) => s.lock.Some?
    case FlushLock(_) => s.lock.Some?
    case Submitting(_) => !s.stopped && |s.queue| >= s.cap
    case WorkerWait => s.queue == [] && !s.stopped
    case _ => false
  }

  /** A thread that submits has something to submit; a worker leaves only a stopped pool without tasks. */
  predicate PhaseOk(s: State, pc: Pc) {
    (pc.Submitting? ==> pc.tasks != []) && (pc.WorkerExit? ==> s.stopped && s.queue == [])
  }

  ghost predicate Phases(s: State) {
    forall t: nat :: t < |s.threads| ==> PhaseOk(s, s.threads[t])
  }

  // ----- Work left -----

  /** Steps to take `k` events through `n` sinks. */
  function Load(k: nat, n: nat): nat {
    if k == 0 then 0 else n + 1 + Load(k - 1, n)
  }

  function TaskWork(task: Task, n: nat): nat {
    match task
    case Batch(events, _) => Load(|events|, n) + n + 4
    case Barrier => n + 2
    case Foreign => 1
  }

  function TasksWork(tasks: seq<Task>, n: nat): nat {
    if tasks == [] then 0 else TaskWork(tasks[0], n) + TasksWork(tasks[1..], n)
  }

  /** What is left of a submission, and of getting home. */
  function SubmitWork(tasks: seq<Task>, n: nat): nat { TasksWork(tasks, n) + |tasks| + 1 }

  function ThenWork(then_: Then, n: nat): nat {
    match then_
    case More(tasks) => SubmitWork(tasks, n)
    case _ => 1
  }

  function To(k: nat, n: nat): nat { if k < n then n - k else 0 }

  function ThreadWork(pc: Pc, n: nat): nat {
    match pc
    case Idle => 0
    case WorkerExit => 0
    case WorkerWait => 1
    case LogEnter(_) => 2 * n + 9
    case LogLock(_) => 2 * n + 8
    case FlushEnter => 2 * n + 11
    case FlushLock(_) => 2 * n + 10
    case Submitting(tasks) => SubmitWork(tasks, n)
    case Writing(events, i, k, _, then_) =>
      (if i >= |events| then 0 else To(k, n) + 1 + Load(|events| - i - 1, n)) + n + 3 + ThenWork(then_, n)
    case Flushing(k, then_) => To(k, n) + 1 + ThenWork(then_, n)
  }

  function ThreadsWork(threads: seq<Pc>, n: nat): nat {
    if threads == [] then 0 else ThreadWork(threads[0], n) + ThreadsWork(threads[1..], n)
  }

  function Work(s: State): nat {
    ThreadsWork(s.threads, |s.sinks|) + TasksWork(s.queue, |s.sinks|) + Load(|s.pending|, |s.sinks|)
  }

  lemma {:induction false} ThreadWorks(threads: seq<Pc>, t: nat, pc: Pc, n: nat)
    requires t < |threads|
    ensures ThreadsWork(threads[t := pc], n) + ThreadWork(threads[t], n) == ThreadsWork(threads, n) + ThreadWork(pc, n)
    decreases t
  {
    if t > 0 {
      assert threads[t := pc][1..] == threads[1..][t - 1 := pc];
      ThreadWorks(threads[1..], t - 1, pc, n);
    } else {
      assert threads[t := pc][1..] == threads[1..];
    }
  }

  lemma {:induction false} TasksWorkConcat(a: seq<Task>, b: seq<Task>, n: nat)
    ensures TasksWork(a + b, n) == TasksWork(a, n) + TasksWork(b, n)
    decreases |a|
  {
    if a == [] {
      assert a + b == b;
    } else {
      assert (a + b)[1..] == a[1..] + b;
      TasksWorkConcat(a[1..], b, n);
    }
  }

  lemma OneTaskWork(task: Task, n: nat)
    ensures TasksWork([task], n) == TaskWork(task, n)
  {
    assert [task][1..] == [];
  }

  /** What is not in the hands of threads. */
  function Around(s: State): nat {
    TasksWork(s.queue, |s.sinks|) + Load(|s.pending|, |s.sinks|)
  }

  /** A step of thread `t` that takes some work off: its own position and what lies around change, nothing else. */
  predicate Lighter(s: State, s': State, t: nat)
    requires t < |s.threads|
  {
    && |s'.threads| == |s.threads| && s'.threads == s.threads[t := s'.threads[t]] && |s'.sinks| == |s.sinks|
    && ThreadWork(s'.threads[t], |s.sinks|) + Around(s') < ThreadWork(s.threads[t], |s.sinks|) + Around(s)
  }

  lemma LighterWorks(s: State, s': State, t: nat)
    requires t < |s.threads| && Lighter(s, s', t)
    ensures Work(s') < Work(s)
  {
    ThreadWorks(s.threads, t, s'.threads[t], |s.sinks|);
  }

  /** Where a thread goes with some tasks weighs what they weigh. */
  lemma OnwardWork(s: State, t: nat, tasks: seq<Task>)
    requires t < |s.threads|
    ensures var s' := Onward(s, t, tasks);
      && |s'.threads| == |s.threads| && s'.threads == s.threads[t := s'.threads[t]] && s'.sinks == s.sinks
      && s'.queue == s.queue && s'.pending == s.pending
      && ThreadWork(s'.threads[t], |s.sinks|) <= SubmitWork(tasks, |s.sinks|)
  {
  }

  lemma ContinueWork(s: State, t: nat, then_: Then)
    requires t < |s.threads|
    ensures var s' := Continue(s, t, then_);
      && |s'.threads| == |s.threads| && s'.threads == s.threads[t := s'.threads[t]] && s'.sinks == s.sinks
      && s'.queue == s.queue && s'.pending == s.pending
      && ThreadWork(s'.threads[t], |s.sinks|) <= ThenWork(then_, |s.sinks|)
  {
    if then_.More? {
      OnwardWork(s, t, then_.tasks);
    }
  }

  lemma TakenWork(pending: seq<Event>, flush: bool, barrier: bool, n: nat)
    ensures SubmitWork((if pending == [] then [] else [Batch(pending, flush)]) + (if barrier then [Barrier] else []), n)
      <= Load(|pending|, n) + n + 6 + (if barrier then n + 3 else 0)
  {
    var first, second := if pending == [] then [] else [Batch(pending, flush)], if barrier then [Barrier] else [];
    OneTaskWork(Batch(pending, flush), n);
    OneTaskWork(Barrier, n);
    TasksWorkConcat(first, second, n);
  }

  /** A batch taken under the mutex costs its submission, and so does a barrier behind it. */
  lemma TakeWork(s: State, t: nat, barrier: bool, finalBatch: bool)
    requires t < |s.threads|
    ensures var s', n := TakePending(s, t, barrier, finalBatch), |s.sinks|;
      && |s'.threads| == |s.threads| && s'.threads == s.threads[t := s'.threads[t]] && |s'.sinks| == n
      && ThreadWork(s'.threads[t], n) + Around(s') <= Around(s) + n + 6 + (if barrier then n + 3 else 0)
  {
    var flush := !finalBatch && Urgent(s, s.pending);
    var tasks := (if s.pending == [] then [] else [Batch(s.pending, flush)]) + (if barrier then [Barrier] else []);
    TakenWork(s.pending, flush, barrier, |s.sinks|);
    OnwardWork(s.(pending := [], submitted := s.submitted + tasks, lock := Some(t)), t, tasks);
  }

  lemma LogLighter(s: State, t: nat, e: bool)
    requires t < |s.threads| && s.threads[t].LogLock? && s.lock.None?
    ensures Lighter(s, Step(s, t, Go(e)), t)
  {
    var event := s.threads[t].event;
    TakeWork(s.(pending := s.pending + [event], logged := s.logged + [event]), t, false, false);
  }

  lemma FlushLockLighter(s: State, t: nat, e: bool)
    requires t < |s.threads| && s.threads[t].FlushLock? && s.lock.None?
    ensures Lighter(s, Step(s, t, Go(e)), t)
  {
    TakeWork(s, t, true, false);
  }

  lemma RefusedLighter(s: State, t: nat, tasks: seq<Task>)
    requires t < |s.threads| && s.threads[t] == Submitting(tasks) && tasks != [] && s.stopped
    ensures Lighter(s, SubmitStep(s, t, tasks), t)
  {
    OnwardWork(s, t, tasks[1..]);
  }

  lemma TakenInLighter(s: State, t: nat, tasks: seq<Task>)
    requires t < |s.threads| && s.threads[t] == Submitting(tasks) && tasks != [] && !s.stopped && |s.queue| < s.cap
    ensures Lighter(s, SubmitStep(s, t, tasks), t)
  {
    OnwardWork(s.(queue := s.queue + [tasks[0]]), t, tasks[1..]);
    TasksWorkConcat(s.queue, [tasks[0]], |s.sinks|);
    OneTaskWork(tasks[0], |s.sinks|);
  }

  lemma SubmitLighter(s: State, t: nat, e: bool)
    requires t < |s.threads| && s.threads[t].Submitting? && s.threads[t].tasks != [] && !Blocked(s, t)
    ensures Lighter(s, Step(s, t, Go(e)), t)
  {
    if s.stopped {
      RefusedLighter(s, t, s.threads[t].tasks);
    } else {
      TakenInLighter(s, t, s.threads[t].tasks);
    }
  }

  lemma WrittenLighter(s: State, t: nat, pc: Pc)
    requires t < |s.threads| && s.threads[t] == pc && pc.Writing? && pc.i >= |pc.events|
    ensures Lighter(s, WriteStep(s, t, pc), t)
  {
    ContinueWork(s, t, pc.then_);
  }

  lemma WriteOneLighter(s: State, t: nat, pc: Pc)
    requires t < |s.threads| && s.threads[t] == pc && pc.Writing? && pc.i < |pc.events|
    ensures Lighter(s, WriteStep(s, t, pc), t)
  {
  }

  lemma WriteLighter(s: State, t: nat, e: bool)
    requires t < |s.threads| && s.threads[t].Writing?
    ensures Lighter(s, Step(s, t, Go(e)), t)
  {
    if s.threads[t].i >= |s.threads[t].events| {
      WrittenLighter(s, t, s.threads[t]);
    } else {
      WriteOneLighter(s, t, s.threads[t]);
    }
  }

  lemma FlushLighter(s: State, t: nat, e: bool)
    requires t < |s.threads| && s.threads[t].Flushing?
    ensures Lighter(s, Step(s, t, Go(e)), t)
  {
    ContinueWork(s, t, s.threads[t].then_);
  }

  lemma WorkerLighter(s: State, t: nat, e: bool)
    requires t < |s.threads| && s.threads[t].WorkerWait? && !Blocked(s, t)
    ensures Lighter(s, Step(s, t, Go(e)), t)
  {
  }

  lemma EnterLighter(s: State, t: nat, e: bool)
    requires t < |s.threads| && (s.threads[t].LogEnter? || s.threads[t].FlushEnter?)
    ensures Lighter(s, Step(s, t, Go(e)), t)
  {
    assert Load(1, |s.sinks|) == |s.sinks| + 1;
  }

  /** A thread that is not blocked gets on: its next step takes some of the work left off. */
  lemma GetsOn(s: State, t: nat, e: bool)
    requires Phases(s) && t < |s.threads| && !Blocked(s, t)
    ensures Work(Step(s, t, Go(e))) < Work(s)
  {
    assert PhaseOk(s, s.threads[t]);
    match s.threads[t] {
      case LogEnter(_) => EnterLighter(s, t, e);
      case FlushEnter => EnterLighter(s, t, e);
      case LogLock(_) => LogLighter(s, t, e);
      case FlushLock(_) => FlushLockLighter(s, t, e);
      case Submitting(_) => SubmitLighter(s, t, e);
      case Writing(_, _, _, _, _) => WriteLighter(s, t, e);
      case Flushing(_, _) => FlushLighter(s, t, e);
      case WorkerWait => WorkerLighter(s, t, e);
      case _ =>
    }
    LighterWorks(s, Step(s, t, Go(e)), t);
  }

  // ----- The phases over any run -----

  lemma StepPhases(s: State, t: nat, a: Action)
    requires Roles(s) && Phases(s)
    ensures Phases(Step(s, t, a))
  {
    if t < |s.threads| {
      var s' := Step(s, t, a);
      StepMoves(s, t, a);
      StopAndQueue(s, t, a);
      StepPhase(s, t, a);
      forall u: nat | u < |s'.threads| ensures PhaseOk(s', s'.threads[u]) {
        assert PhaseOk(s, s.threads[u]);
        assert u != t ==> s'.threads[u] == s.threads[u];
      }
    }
  }

  predicate KeepsStop(s: State, s': State) {
    (s.stopped ==> s'.stopped) && (s.stopped && s.queue == [] ==> s'.queue == [])
  }

  lemma SubmitKeepsStop(s: State, t: nat, tasks: seq<Task>)
    requires t < |s.threads| && tasks != []
    ensures KeepsStop(s, SubmitStep(s, t, tasks))
  {
  }

  lemma TakeKeepsStop(s: State, t: nat, barrier: bool, finalBatch: bool)
    requires t < |s.threads|
    ensures KeepsStop(s, TakePending(s, t, barrier, finalBatch))
  {
  }

  lemma StopAndQueue(s: State, t: nat, a: Action)
    requires t < |s.threads|
    ensures KeepsStop(s, Step(s, t, a))
  {
    match s.threads[t] {
      case LogLock(event) =>
        TakeKeepsStop(s.(pending := s.pending + [event], logged := s.logged + [event]), t, false, false);
      case FlushLock(_) => TakeKeepsStop(s, t, true, false);
      case Submitting(tasks) => if tasks != [] { SubmitKeepsStop(s, t, tasks); }
      case _ =>
    }
  }

  predicate PhaseAt(s: State, t: nat) {
    t < |s.threads| && PhaseOk(s, s.threads[t])
  }

  lemma OnwardPhase(s: State, t: nat, tasks: seq<Task>)
    requires t < |s.threads|
    ensures PhaseAt(Onward(s, t, tasks), t)
  {
  }

  lemma ContinuePhase(s: State, t: nat, then_: Then)
    requires t < |s.threads|
    ensures PhaseAt(Continue(s, t, then_), t)
  {
    if then_.More? {
      OnwardPhase(s, t, then_.tasks);
    }
  }

  lemma TakePhase(s: State, t: nat, barrier: bool, finalBatch: bool)
    requires t < |s.threads|
    ensures PhaseAt(TakePending(s, t, barrier, finalBatch), t)
  {
    var tasks := (if s.pending == [] then [] else [Batch(s.pending, !finalBatch && Urgent(s, s.pending))])
      + (if barrier then [Barrier] else []);
    OnwardPhase(s.(pending := [], submitted := s.submitted + tasks, lock := Some(t)), t, tasks);
  }

  lemma SubmitPhase(s: State, t: nat, tasks: seq<Task>)
    requires t < |s.threads| && tasks != [] && s.threads[t] == Submitting(tasks)
    ensures PhaseAt(SubmitStep(s, t, tasks), t)
  {
    OnwardPhase(s.(queue := s.queue + [tasks[0]]), t, tasks[1..]);
    OnwardPhase(s, t, tasks[1..]);
  }

  lemma OutputPhase(s: State, t: nat, pc: Pc)
    requires t < |s.threads| && (pc.Writing? || pc.Flushing?)
    ensures PhaseAt(if pc.Writing? then WriteStep(s, t, pc) else FlushStep(s, t, pc), t)
  {
    ContinuePhase(s, t, pc.then_);
  }

  lemma SectionPhase(s: State, t: nat, a: Action)
    requires t < |s.threads| && (s.threads[t].LogLock? || s.threads[t].FlushLock?)
    ensures PhaseAt(Step(s, t, a), t)
  {
    if s.threads[t].LogLock? {
      var event := s.threads[t].event;
      TakePhase(s.(pending := s.pending + [event], logged := s.logged + [event]), t, false, false);
    } else {
      TakePhase(s, t, true, false);
    }
  }

  lemma DestroyPhase(s: State, t: nat)
    requires PhaseAt(s, t)
    ensures PhaseAt(LastReference(s, t), t)
  {
    TakePhase(s.(destroyed := true), t, false, true);
  }

  lemma CallPhase(s: State, t: nat, a: Action)
    requires t < |s.threads| && (s.threads[t].Idle? || s.threads[t].LogEnter? || s.threads[t].FlushEnter?)
    ensures PhaseAt(Step(s, t, a), t)
  {
    if a.CallDestroy? && s.threads[t].Idle? {
      DestroyPhase(s, t);
    }
  }

  lemma StepPhase(s: State, t: nat, a: Action)
    requires PhaseAt(s, t)
    ensures PhaseAt(Step(s, t, a), t)
  {
    match s.threads[t] {
      case LogLock(_) => SectionPhase(s, t, a);
      case FlushLock(_) => SectionPhase(s, t, a);
      case Submitting(tasks) => SubmitPhase(s, t, tasks);
      case Writing(_, _, _, _, _) => OutputPhase(s, t, s.threads[t]);
      case Flushing(_, _) => OutputPhase(s, t, s.threads[t]);
      case WorkerWait => if a.CallDestroy? { DestroyPhase(s, t); }
      case WorkerExit =>
      case _ => CallPhase(s, t, a);
    }
  }

  ghost predicate Live(s: State) {
    Kept(s) && Phases(s)
  }

  lemma {:induction false} RunLive(s: State, moves: seq<(nat, Action)>)
    requires Live(s)
    ensures Live(Run(s, moves)) && Settings(s, Run(s, moves)) && Run(s, moves).workers == s.workers
    decreases |moves|
  {
    if moves != [] {
      StepKept(s, moves[0].0, moves[0].1);
      StepPhases(s, moves[0].0, moves[0].1);
      if moves[0].0 < |s.threads| {
        StepMoves(s, moves[0].0, moves[0].1);
      }
      RunLive(Step(s, moves[0].0, moves[0].1), moves[1..]);
    }
  }

  lemma StartLive(batchSize: nat, flushLevel: int, cap: nat, levels: seq<int>, workers: nat, callers: nat)
    ensures Live(Start(batchSize, flushLevel, cap, levels, workers, callers))
  {
    StartKept(batchSize, flushLevel, cap, levels, workers, callers);
  }

  // ----- Runs end, and where -----

  /** Every step of the run is one of a thread that is not blocked. */
  predicate Going(s: State, moves: seq<(nat, Action)>)
    decreases |moves|
  {
    moves == [] ||
      (&& moves[0].0 < |s.threads| && moves[0].1.Go? && !Blocked(s, moves[0].0)
       && Going(Step(s, moves[0].0, moves[0].1), moves[1..]))
  }

  /** However threads are scheduled, without new calls they go on for no more steps than there is work. */
  lemma {:induction false} EveryRunEnds(s: State, moves: seq<(nat, Action)>)
    requires Live(s) && Going(s, moves)
    ensures |moves| + Work(Run(s, moves)) <= Work(s)
    decreases |moves|
  {
    if moves != [] {
      GetsOn(s, moves[0].0, moves[0].1.expired);
      StepKept(s, moves[0].0, moves[0].1);
      StepPhases(s, moves[0].0, moves[0].1);
      EveryRunEnds(Step(s, moves[0].0, moves[0].1), moves[1..]);
    }
  }

  ghost predicate Stuck(s: State) {
    forall t: nat :: t < |s.threads| ==> Blocked(s, t)
  }

  /** Nothing is left to do for the pool either. */
  predicate AllDone(s: State) {
    s.queue == [] && AtRest(s)
  }

  /** The destructor runs on the only worker there is, and the pool's queue is full. */
  predicate SelfBlocked(s: State, w: nat) {
    && s.destroyed && s.workers == {w} && w < |s.threads| && s.threads[w].Submitting?
    && !s.stopped && |s.queue| >= s.cap
  }

  lemma HolderBlocked(s: State, u: nat)
    requires Roles(s) && Stuck(s) && s.lock == Some(u)
    ensures u < |s.threads| && s.threads[u].Submitting? && !s.stopped && |s.queue| >= s.cap
  {
    assert Fits(s, u, s.threads[u]) && Blocked(s, u);
  }

  /** A full queue blocks only where no worker is free to take from it. */
  lemma WorkersBlocked(s: State, u: nat, w: nat)
    requires Live(s) && Stuck(s) && s.lock == Some(u) && s.cap >= 1
    requires w in s.workers && w < |s.threads|
    ensures s.destroyed && w == u
  {
    HolderBlocked(s, u);
    assert Fits(s, w, s.threads[w]) && Blocked(s, w) && PhaseOk(s, s.threads[w]);
  }

  /**
   Where no thread can go on, all is done - every call is over and the queue is empty -, except where
   the destructor, run by the only worker, waits for room.
   */
  lemma StuckIsDone(s: State)
    requires Live(s) && Stuck(s) && s.cap >= 1 && s.workers != {} && forall w :: w in s.workers ==> w < |s.threads|
    ensures AllDone(s) || exists w: nat :: SelfBlocked(s, w)
  {
    if s.lock.Some? {
      var u := s.lock.value;
      HolderBlocked(s, u);
      forall w | w in s.workers ensures w == u && s.destroyed {
        WorkersBlocked(s, u, w);
      }
      var w :| w in s.workers;
      assert s.workers == {u};
      assert SelfBlocked(s, u);
    } else {
      forall t: nat | t < |s.threads| ensures s.threads[t].Idle? || s.threads[t].WorkerWait? || s.threads[t].WorkerExit? {
        assert Blocked(s, t) && Fits(s, t, s.threads[t]);
      }
      var w :| w in s.workers;
      assert Blocked(s, w) && Fits(s, w, s.threads[w]) && PhaseOk(s, s.threads[w]);
    }
  }

  /** So from any moment of any run, if nothing is called any more, everything comes to an end. */
  lemma {:induction false} ComesToRest(s: State) returns (moves: seq<(nat, Action)>)
    requires Live(s) && s.cap >= 1 && s.workers != {} && forall w :: w in s.workers ==> w < |s.threads|
    ensures Going(s, moves)
    ensures var s' := Run(s, moves); Live(s') && (AllDone(s') || exists w: nat :: SelfBlocked(s', w))
    decreases Work(s)
  {
    if t: nat :| t < |s.threads| && !Blocked(s, t) {
      var s1 := Step(s, t, Go(false));
      GetsOn(s, t, false);
      StepKept(s, t, Go(false));
      StepPhases(s, t, Go(false));
      StepMoves(s, t, Go(false));
      var rest := ComesToRest(s1);
      moves := [(t, Go(false))] + rest;
      assert moves[1..] == rest;
    } else {
      StuckIsDone(s);
      moves := [];
    }
  }

  // ----- The destructor on the only worker -----

  lemma SelfBlockedStays(s: State, w: nat, t: nat, a: Action)
    requires Roles(s) && SelfBlocked(s, w) && !a.StopPool? && !a.DropPool?
    ensures SelfBlocked(Step(s, t, a), w)
  {
    if t < |s.threads| {
      StepMoves(s, t, a);
      assert Fits(s, t, s.threads[t]) && Fits(s, w, s.threads[w]);
      if t != w {
        OthersLeaveQueue(s, t, a);
      }
    }
  }

  predicate LeavesQueue(s: State, s': State) {
    s'.stopped == s.stopped && s'.cap == s.cap && s.queue <= s'.queue && (s.destroyed ==> s'.destroyed)
  }

  lemma TakeLeaves(s: State, t: nat, barrier: bool, finalBatch: bool)
    requires t < |s.threads|
    ensures LeavesQueue(s, TakePending(s, t, barrier, finalBatch))
  {
    var tasks := (if s.pending == [] then [] else [Batch(s.pending, !finalBatch && Urgent(s, s.pending))])
      + (if barrier then [Barrier] else []);
    OnwardFrame(s.(pending := [], submitted := s.submitted + tasks, lock := Some(t)), t, tasks);
    OnwardWork(s.(pending := [], submitted := s.submitted + tasks, lock := Some(t)), t, tasks);
  }

  lemma OutputLeaves(s: State, t: nat, pc: Pc)
    requires t < |s.threads| && (pc.Writing? || pc.Flushing?)
    ensures LeavesQueue(s, if pc.Writing? then WriteStep(s, t, pc) else FlushStep(s, t, pc))
  {
    ContinueWork(s, t, pc.then_);
  }

  lemma SubmitLeaves(s: State, t: nat, tasks: seq<Task>)
    requires t < |s.threads| && tasks != []
    ensures LeavesQueue(s, SubmitStep(s, t, tasks))
  {
    OnwardWork(s.(queue := s.queue + [tasks[0]]), t, tasks[1..]);
    OnwardWork(s, t, tasks[1..]);
  }

  lemma CallLeaves(s: State, t: nat, a: Action)
    requires t < |s.threads| && !a.StopPool? && !a.DropPool?
    ensures LeavesQueue(s, CallStep(s, t, a))
  {
    TakeLeaves(s.(destroyed := true), t, false, true);
  }

  lemma SectionLeaves(s: State, t: nat, a: Action)
    requires t < |s.threads| && (s.threads[t].LogLock? || s.threads[t].FlushLock?)
    ensures LeavesQueue(s, Step(s, t, a))
  {
    if s.threads[t].LogLock? {
      var event := s.threads[t].event;
      TakeLeaves(s.(pending := s.pending + [event], logged := s.logged + [event]), t, false, false);
    } else {
      TakeLeaves(s, t, true, false);
    }
  }

  /** Only a worker takes from the queue. */
  lemma OthersLeaveQueue(s: State, t: nat, a: Action)
    requires t < |s.threads| && !a.StopPool? && !a.DropPool? && !s.threads[t].WorkerWait?
    ensures LeavesQueue(s, Step(s, t, a))
  {
    match s.threads[t] {
      case Idle => CallLeaves(s, t, a);
      case LogLock(_) => SectionLeaves(s, t, a);
      case FlushLock(_) => SectionLeaves(s, t, a);
      case Submitting(tasks) => if tasks != [] { SubmitLeaves(s, t, tasks); }
      case Writing(_, _, _, _, _) => OutputLeaves(s, t, s.threads[t]);
      case Flushing(_, _) => OutputLeaves(s, t, s.threads[t]);
      case _ =>
    }
  }

  /** There it stays for as long as nobody stops the pool. */
  lemma {:induction false} SelfBlockedForever(s: State, w: nat, moves: seq<(nat, Action)>)
    requires Roles(s) && SelfBlocked(s, w)
    requires forall k :: 0 <= k < |moves| ==> !moves[k].1.StopPool? && !moves[k].1.DropPool?
    ensures SelfBlocked(Run(s, moves), w)
    decreases |moves|
  {
    if moves != [] {
      SelfBlockedStays(s, w, moves[0].0, moves[0].1);
      StepRoles(s, moves[0].0, moves[0].1);
      SelfBlockedForever(Step(s, moves[0].0, moves[0].1), w, moves[1..]);
    }
  }
}
