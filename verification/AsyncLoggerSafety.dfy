/** Block-mode logging reaches every sink exactly once and, with one worker and no stop, in order. */
module AsyncLoggerSafety {
  import opened AsyncLogger

  // ----- Who is where -----

  predicate HoldsMutex(pc: Pc) {
    pc.Submitting? || ((pc.Writing? || pc.Flushing?) && pc.then_.More?)
  }

  predicate WorkerPc(pc: Pc) {
    pc.WorkerWait? || pc.WorkerExit? || ((pc.Writing? || pc.Flushing?) && pc.then_.NextTask?)
  }

  predicate Fits(s: State, t: nat, pc: Pc) {
    && (WorkerPc(pc) ==> t in s.workers)
    && (t in s.workers ==> WorkerPc(pc) || (s.destroyed && (pc.Submitting? || pc.Writing? || pc.Flushing?)))
    && (HoldsMutex(pc) <==> s.lock == Some(t))
    && (s.destroyed ==> !pc.LogEnter? && !pc.LogLock? && !pc.FlushEnter? && !pc.FlushLock?)
  }

  ghost predicate Roles(s: State) {
    && (forall t: nat :: t < |s.threads| ==> Fits(s, t, s.threads[t]))
    && (s.lock.Some? ==> s.lock.value < |s.threads|)
  }

  /** What a step of thread `t` may do to the roles: its own position, and a free or its own mutex. */
  predicate Moves(s: State, s': State, t: nat)
    requires t < |s.threads|
  {
    && |s'.threads| == |s.threads| && s'.threads == s.threads[t := s'.threads[t]]
    && s'.workers == s.workers && |s'.sinks| == |s.sinks|
    && Fits(s', t, s'.threads[t])
    && (s'.lock == s.lock || (s.lock in {None, Some(t)} && s'.lock in {None, Some(t)}))
    && (s'.destroyed == s.destroyed || Unreferenced(s, t))
  }

  lemma MovesKeepRoles(s: State, s': State, t: nat)
    requires Roles(s) && t < |s.threads| && Moves(s, s', t)
    ensures Roles(s')
  {
    forall u: nat | u < |s'.threads| && u != t ensures Fits(s', u, s'.threads[u]) {
      assert s'.threads[u] == s.threads[u] && Fits(s, u, s.threads[u]);
    }
  }

  lemma OnwardMoves(s: State, t: nat, tasks: seq<Task>)
    requires t < |s.threads| && (t in s.workers ==> s.destroyed) && s.lock == Some(t)
    ensures Moves(s, Onward(s, t, tasks), t)
  {
  }

  lemma ContinueMoves(s: State, t: nat, then_: Then)
    requires t < |s.threads| && (then_.NextTask? ==> t in s.workers) && (s.lock == Some(t) <==> then_.More?)
    requires t in s.workers ==> then_.NextTask? || s.destroyed
    ensures Moves(s, Continue(s, t, then_), t)
  {
    if then_.More? {
      OnwardMoves(s, t, then_.tasks);
    }
  }

  lemma TakeMoves(s: State, t: nat, barrier: bool, finalBatch: bool)
    requires t < |s.threads| && (t in s.workers ==> s.destroyed) && s.lock == None
    ensures Moves(s, TakePending(s, t, barrier, finalBatch), t)
  {
    OnwardMoves(s.(lock := Some(t)), t,
      (if s.pending == [] then [] else [Batch(s.pending, !finalBatch && Urgent(s, s.pending))])
      + (if barrier then [Barrier] else []));
  }

  lemma DestroyMoves(s: State, t: nat)
    requires Roles(s) && t < |s.threads| && (s.threads[t].Idle? || s.threads[t].WorkerWait?) && Unreferenced(s, t)
    ensures Moves(s, DestroySection(s, t), t)
  {
    assert Fits(s, t, s.threads[t]);
    assert s.lock.Some? ==> Fits(s, s.lock.value, s.threads[s.lock.value]);
    TakeMoves(s.(destroyed := true), t, false, true);
  }

  lemma CallMoves(s: State, t: nat, a: Action)
    requires Roles(s) && t < |s.threads| && s.threads[t].Idle?
    ensures Moves(s, CallStep(s, t, a), t)
  {
    assert Fits(s, t, s.threads[t]);
    if Unreferenced(s, t) {
      DestroyMoves(s, t);
    }
  }

  lemma LockMoves(s: State, t: nat, a: Action)
    requires t < |s.threads| && Fits(s, t, s.threads[t])
    requires s.threads[t].LogLock? || s.threads[t].FlushLock?
    ensures Moves(s, Step(s, t, a), t)
  {
    if s.lock.None? {
      TakeMoves(s, t, true, false);
      if s.threads[t].LogLock? {
        var event := s.threads[t].event;
        TakeMoves(s.(pending := s.pending + [event], logged := s.logged + [event]), t, false, false);
      }
    }
  }

  lemma SubmitMoves(s: State, t: nat, tasks: seq<Task>)
    requires t < |s.threads| && Fits(s, t, s.threads[t]) && s.threads[t] == Submitting(tasks) && tasks != []
    ensures Moves(s, SubmitStep(s, t, tasks), t)
  {
    OnwardMoves(s.(queue := s.queue + [tasks[0]]), t, tasks[1..]);
  }

  lemma OutputMoves(s: State, t: nat, pc: Pc)
    requires t < |s.threads| && Fits(s, t, s.threads[t]) && s.threads[t] == pc && (pc.Writing? || pc.Flushing?)
    ensures Moves(s, if pc.Writing? then WriteStep(s, t, pc) else FlushStep(s, t, pc), t)
  {
    ContinueMoves(s, t, pc.then_);
  }

  lemma EnterMoves(s: State, t: nat, a: Action)
    requires t < |s.threads| && Fits(s, t, s.threads[t]) && (s.threads[t].LogEnter? || s.threads[t].FlushEnter?)
    ensures Moves(s, Step(s, t, a), t)
  {
  }

  lemma WorkerMoves(s: State, t: nat)
    requires t < |s.threads| && Fits(s, t, s.threads[t]) && s.threads[t].WorkerWait?
    ensures Moves(s, WorkerStep(s, t), t)
  {
  }

  lemma StepMoves(s: State, t: nat, a: Action)
    requires Roles(s) && t < |s.threads|
    ensures Moves(s, Step(s, t, a), t)
  {
    assert Fits(s, t, s.threads[t]);
    match s.threads[t] {
      case Idle => CallMoves(s, t, a);
      case LogEnter(_) => EnterMoves(s, t, a);
      case FlushEnter => EnterMoves(s, t, a);
      case LogLock(_) => LockMoves(s, t, a);
      case FlushLock(_) => LockMoves(s, t, a);
      case Submitting(tasks) => if tasks != [] { SubmitMoves(s, t, tasks); }
      case Writing(_, _, _, _, _) => OutputMoves(s, t, s.threads[t]);
      case Flushing(_, _) => OutputMoves(s, t, s.threads[t]);
      case WorkerWait =>
        if !a.CallDestroy? {
          WorkerMoves(s, t);
        } else if Unreferenced(s, t) {
          DestroyMoves(s, t);
        }
      case _ =>
    }
  }

  lemma StepRoles(s: State, t: nat, a: Action)
    requires Roles(s)
    ensures Roles(Step(s, t, a))
  {
    if t < |s.threads| {
      StepMoves(s, t, a);
      MovesKeepRoles(s, Step(s, t, a), t);
    }
  }

  // ----- Exactly once: where the copies of one event bound for one sink are -----

  function InTasks(tasks: seq<Task>, e: Event): nat {
    if tasks == [] then 0
    else (match tasks[0] case Batch(events, _) => multiset(events)[e] case _ => 0) + InTasks(tasks[1..], e)
  }

  lemma {:induction false} InTasksConcat(a: seq<Task>, b: seq<Task>, e: Event)
    ensures InTasks(a + b, e) == InTasks(a, e) + InTasks(b, e)
    decreases |a|
  {
    if a == [] {
      assert a + b == b;
    } else {
      InTasksConcat(a[1..], b, e);
      assert (a + b)[1..] == a[1..] + b;
    }
  }

  /** What a thread writing a batch has still to write to sink `j`. */
  function Unwritten(pc: Pc, j: nat): seq<Event>
    requires pc.Writing?
  {
    var from := if j < pc.k then pc.i + 1 else pc.i;
    if from >= |pc.events| then [] else pc.events[from..]
  }

  function InThen(then_: Then, e: Event): nat {
    match then_
    case More(tasks) => InTasks(tasks, e)
    case _ => 0
  }

  function InThread(pc: Pc, j: nat, e: Event): nat {
    match pc
    case Submitting(tasks) => InTasks(tasks, e)
    case Writing(_, _, _, _, then_) => multiset(Unwritten(pc, j))[e] + InThen(then_, e)
    case Flushing(_, then_) => InThen(then_, e)
    case _ => 0
  }

  function InThreads(threads: seq<Pc>, j: nat, e: Event): nat {
    if threads == [] then 0 else InThread(threads[0], j, e) + InThreads(threads[1..], j, e)
  }

  lemma {:induction false} ThreadMoved(threads: seq<Pc>, t: nat, pc: Pc, j: nat, e: Event)
    requires t < |threads|
    ensures InThreads(threads[t := pc], j, e) + InThread(threads[t], j, e) == InThreads(threads, j, e) + InThread(pc, j, e)
    decreases t
  {
    if t > 0 {
      assert threads[t := pc][1..] == threads[1..][t - 1 := pc];
      ThreadMoved(threads[1..], t - 1, pc, j, e);
    } else {
      assert threads[t := pc][1..] == threads[1..];
    }
  }

  /** Every copy of `e` that has been logged and not lost: written, in hand, queued or pending. */
  function Copies(s: State, j: nat, e: Event): nat
    requires j < |s.sinks|
  {
    multiset(s.sinks[j].trace)[Wrote(e)] + InThreads(s.threads, j, e) + InTasks(s.queue, e) + multiset(s.pending)[e]
  }

  predicate Admits(s: State, j: nat, e: Event)
    requires j < |s.sinks|
  {
    e.level >= s.sinks[j].level
  }

  ghost predicate Conserved(s: State, j: nat, e: Event)
    requires j < |s.sinks|
  {
    if Admits(s, j, e) then Copies(s, j, e) == multiset(s.logged)[e]
    else multiset(s.sinks[j].trace)[Wrote(e)] == 0
  }

  ghost predicate ExactlyOnce(s: State) {
    forall j: nat, e: Event :: j < |s.sinks| ==> Conserved(s, j, e)
  }

  /** The copies thread `t` does not hold; a step moves copies only between here and its own hands. */
  function Elsewhere(s: State, j: nat, e: Event): int
    requires j < |s.sinks|
  {
    multiset(s.sinks[j].trace)[Wrote(e)] + InTasks(s.queue, e) + multiset(s.pending)[e] - multiset(s.logged)[e]
  }

  predicate Balanced(s: State, s': State, t: nat, j: nat, e: Event)
    requires t < |s.threads| && j < |s.sinks|
  {
    && |s'.sinks| == |s.sinks|
    && s'.sinks[j].level == s.sinks[j].level
    && |s'.threads| == |s.threads| && s'.threads == s.threads[t := s'.threads[t]]
    && (Admits(s, j, e) ==>
         Elsewhere(s', j, e) + InThread(s'.threads[t], j, e) == Elsewhere(s, j, e) + InThread(s.threads[t], j, e))
    && (!Admits(s, j, e) ==> multiset(s'.sinks[j].trace)[Wrote(e)] == multiset(s.sinks[j].trace)[Wrote(e)])
  }

  lemma BalancedConserves(s: State, s': State, t: nat, j: nat, e: Event)
    requires t < |s.threads| && j < |s.sinks|
    requires Balanced(s, s', t, j, e) && Conserved(s, j, e)
    ensures Conserved(s', j, e)
  {
    ThreadMoved(s.threads, t, s'.threads[t], j, e);
  }

  /** `s'` is `s0` with thread `t` put where it holds `n` copies. */
  predicate Placed(s0: State, s': State, t: nat, j: nat, e: Event, n: nat)
    requires t < |s0.threads|
  {
    && |s'.threads| == |s0.threads| && s'.threads == s0.threads[t := s'.threads[t]]
    && s'.sinks == s0.sinks && s'.queue == s0.queue && s'.pending == s0.pending && s'.logged == s0.logged
    && InThread(s'.threads[t], j, e) == n
  }

  lemma OnwardPlaced(s: State, t: nat, tasks: seq<Task>, j: nat, e: Event)
    requires t < |s.threads|
    ensures Placed(s, Onward(s, t, tasks), t, j, e, InTasks(tasks, e))
  {
  }

  lemma ContinuePlaced(s: State, t: nat, then_: Then, j: nat, e: Event)
    requires t < |s.threads|
    ensures Placed(s, Continue(s, t, then_), t, j, e, InThen(then_, e))
  {
    if then_.More? {
      OnwardPlaced(s, t, then_.tasks, j, e);
    }
  }

  /** A move made in two parts: one to `s0` in which no thread moves, one that places the thread. */
  lemma PlacedBalanced(s: State, s0: State, s': State, t: nat, j: nat, e: Event, n: nat)
    requires t < |s.threads| && s0.threads == s.threads && j < |s.sinks| && |s0.sinks| == |s.sinks|
    requires s0.sinks[j].level == s.sinks[j].level
    requires Placed(s0, s', t, j, e, n)
    requires Admits(s, j, e) ==> Elsewhere(s0, j, e) + n == Elsewhere(s, j, e) + InThread(s.threads[t], j, e)
    requires !Admits(s, j, e) ==> multiset(s0.sinks[j].trace)[Wrote(e)] == multiset(s.sinks[j].trace)[Wrote(e)]
    ensures Balanced(s, s', t, j, e)
  {
  }

  lemma TakenTasks(events: seq<Event>, flush: bool, barrier: bool, e: Event)
    ensures InTasks((if events == [] then [] else [Batch(events, flush)]) + (if barrier then [Barrier] else []), e)
      == multiset(events)[e]
  {
    InTasksConcat(if events == [] then [] else [Batch(events, flush)], if barrier then [Barrier] else [], e);
  }

  lemma TakeBalanced(s: State, t: nat, barrier: bool, finalBatch: bool, j: nat, e: Event)
    requires t < |s.threads| && j < |s.sinks|
    requires InThread(s.threads[t], j, e) == 0
    ensures Balanced(s, TakePending(s, t, barrier, finalBatch), t, j, e)
  {
    var flush := !finalBatch && Urgent(s, s.pending);
    var tasks := (if s.pending == [] then [] else [Batch(s.pending, flush)]) + (if barrier then [Barrier] else []);
    TakenTasks(s.pending, flush, barrier, e);
    var s0 := s.(pending := [], submitted := s.submitted + tasks, lock := Some(t));
    OnwardPlaced(s0, t, tasks, j, e);
    PlacedBalanced(s, s0, Onward(s0, t, tasks), t, j, e, InTasks(tasks, e));
  }

  lemma LogBalanced(s: State, t: nat, event: Event, expired: bool, j: nat, e: Event)
    requires t < |s.threads| && j < |s.sinks| && s.threads[t].LogLock?
    ensures Balanced(s, LogSection(s, t, event, expired), t, j, e)
  {
    var s1 := s.(pending := s.pending + [event], logged := s.logged + [event]);
    assert Elsewhere(s1, j, e) == Elsewhere(s, j, e);
    TakeBalanced(s1, t, false, false, j, e);
  }

  /** A task refused is in the hands of the thread that writes it. */
  lemma RefusedBalanced(s: State, t: nat, tasks: seq<Task>, j: nat, e: Event)
    requires t < |s.threads| && j < |s.sinks| && s.threads[t] == Submitting(tasks) && tasks != [] && s.stopped
    ensures Balanced(s, SubmitStep(s, t, tasks), t, j, e)
  {
    var rest, s' := tasks[1..], SubmitStep(s, t, tasks);
    match tasks[0] {
      case Batch(events, _) =>
        assert Unwritten(s'.threads[t], j) == events;
        PlacedBalanced(s, s, s', t, j, e, multiset(events)[e] + InTasks(rest, e));
      case Barrier =>
        PlacedBalanced(s, s, s', t, j, e, InTasks(rest, e));
      case Foreign =>
        OnwardPlaced(s, t, rest, j, e);
        PlacedBalanced(s, s, s', t, j, e, InTasks(rest, e));
    }
  }

  lemma SubmitBalanced(s: State, t: nat, tasks: seq<Task>, j: nat, e: Event)
    requires t < |s.threads| && j < |s.sinks| && s.threads[t] == Submitting(tasks) && tasks != []
    ensures Balanced(s, SubmitStep(s, t, tasks), t, j, e)
  {
    if s.stopped {
      RefusedBalanced(s, t, tasks, j, e);
    } else if |s.queue| < s.cap {
      InTasksConcat(s.queue, [tasks[0]], e);
      var s0 := s.(queue := s.queue + [tasks[0]]);
      OnwardPlaced(s0, t, tasks[1..], j, e);
      PlacedBalanced(s, s0, Onward(s0, t, tasks[1..]), t, j, e, InTasks(tasks[1..], e));
    }
  }

  lemma WrittenOnce(sink: Sink, event: Event, e: Event)
    ensures multiset(WriteTo(sink, event).trace)[Wrote(e)]
      == multiset(sink.trace)[Wrote(e)] + if event == e && event.level >= sink.level then 1 else 0
  {
  }

  /** One write takes one copy off what is unwritten. */
  lemma UnwrittenNext(pc: Pc, j: nat, e: Event)
    requires pc.Writing? && pc.i < |pc.events|
    ensures multiset(Unwritten(pc, j))[e]
      == multiset(Unwritten(Writing(pc.events, pc.i, pc.k + 1, pc.flush, pc.then_), j))[e]
         + if j == pc.k && pc.events[pc.i] == e then 1 else 0
  {
    if j == pc.k {
      assert pc.events[pc.i..] == [pc.events[pc.i]] + pc.events[pc.i + 1..];
    }
  }

  lemma WriteElsewhere(s: State, s0: State, k: nat, event: Event, j: nat, e: Event)
    requires k < |s.sinks| && j < |s.sinks| && s0 == s.(sinks := s.sinks[k := WriteTo(s.sinks[k], event)])
    ensures s0.sinks[j].level == s.sinks[j].level
    ensures Admits(s, j, e) ==> Elsewhere(s0, j, e) == Elsewhere(s, j, e) + if j == k && event == e then 1 else 0
    ensures !Admits(s, j, e) ==> multiset(s0.sinks[j].trace)[Wrote(e)] == multiset(s.sinks[j].trace)[Wrote(e)]
  {
    WrittenOnce(s.sinks[k], event, e);
  }

  /** What one write of a thread makes of the state. */
  lemma WriteStepIs(s: State, t: nat, pc: Pc, s0: State, pc': Pc)
    requires t < |s.threads| && s.threads[t] == pc && pc.Writing? && pc.i < |pc.events| && pc.k < |s.sinks|
    requires s0 == s.(sinks := s.sinks[pc.k := WriteTo(s.sinks[pc.k], pc.events[pc.i])])
    requires pc' == Writing(pc.events, pc.i, pc.k + 1, pc.flush, pc.then_)
    ensures WriteStep(s, t, pc) == Goto(s0, t, pc')
  {
  }

  lemma WriteOneBalanced(s: State, t: nat, pc: Pc, j: nat, e: Event)
    requires t < |s.threads| && j < |s.sinks| && s.threads[t] == pc && pc.Writing?
    requires pc.i < |pc.events| && pc.k < |s.sinks|
    ensures Balanced(s, WriteStep(s, t, pc), t, j, e)
  {
    var s0 := s.(sinks := s.sinks[pc.k := WriteTo(s.sinks[pc.k], pc.events[pc.i])]);
    var pc' := Writing(pc.events, pc.i, pc.k + 1, pc.flush, pc.then_);
    UnwrittenNext(pc, j, e);
    WriteElsewhere(s, s0, pc.k, pc.events[pc.i], j, e);
    WriteStepIs(s, t, pc, s0, pc');
    PlacedBalanced(s, s0, Goto(s0, t, pc'), t, j, e, InThread(pc', j, e));
  }

  lemma WriteDoneBalanced(s: State, t: nat, pc: Pc, j: nat, e: Event)
    requires t < |s.threads| && j < |s.sinks| && s.threads[t] == pc && pc.Writing? && pc.i >= |pc.events|
    ensures Balanced(s, WriteStep(s, t, pc), t, j, e)
  {
    var n := InThen(pc.then_, e);
    ContinuePlaced(s, t, pc.then_, j, e);
    PlacedBalanced(s, s, WriteStep(s, t, pc), t, j, e, n);
  }

  lemma WriteBalanced(s: State, t: nat, pc: Pc, j: nat, e: Event)
    requires t < |s.threads| && j < |s.sinks| && s.threads[t] == pc && pc.Writing?
    ensures Balanced(s, WriteStep(s, t, pc), t, j, e)
  {
    if pc.i >= |pc.events| {
      WriteDoneBalanced(s, t, pc, j, e);
    } else if pc.k < |s.sinks| {
      WriteOneBalanced(s, t, pc, j, e);
    } else {
      NextEventBalanced(s, t, pc, j, e);
    }
  }

  lemma NextEventBalanced(s: State, t: nat, pc: Pc, j: nat, e: Event)
    requires t < |s.threads| && j < |s.sinks| && s.threads[t] == pc && pc.Writing?
    requires pc.i < |pc.events| && pc.k >= |s.sinks|
    ensures Balanced(s, WriteStep(s, t, pc), t, j, e)
  {
    var pc' := Writing(pc.events, pc.i + 1, 0, pc.flush, pc.then_);
    assert Unwritten(pc', j) == Unwritten(pc, j);
    PlacedBalanced(s, s, Goto(s, t, pc'), t, j, e, InThread(pc', j, e));
  }

  lemma FlushBalanced(s: State, t: nat, pc: Pc, j: nat, e: Event)
    requires t < |s.threads| && j < |s.sinks| && s.threads[t] == pc && pc.Flushing?
    ensures Balanced(s, FlushStep(s, t, pc), t, j, e)
  {
    if pc.k >= |s.sinks| {
      ContinuePlaced(s, t, pc.then_, j, e);
      PlacedBalanced(s, s, Continue(s, t, pc.then_), t, j, e, InThen(pc.then_, e));
    } else {
      var sink := s.sinks[pc.k];
      var s0 := s.(sinks := s.sinks[pc.k := sink.(trace := sink.trace + [Flushed])]);
      var pc' := Flushing(pc.k + 1, pc.then_);
      PlacedBalanced(s, s0, Goto(s0, t, pc'), t, j, e, InThread(pc', j, e));
    }
  }

  lemma WorkerBalanced(s: State, t: nat, j: nat, e: Event)
    requires t < |s.threads| && j < |s.sinks| && s.threads[t].WorkerWait?
    ensures Balanced(s, WorkerStep(s, t), t, j, e)
  {
    if s.queue != [] {
      var s0, s' := s.(queue := s.queue[1..]), WorkerStep(s, t);
      var n := match s.queue[0] case Batch(events, _) => multiset(events)[e] case _ => 0;
      if s.queue[0].Batch? {
        assert Unwritten(s'.threads[t], j) == s.queue[0].events;
      }
      PlacedBalanced(s, s0, s', t, j, e, n);
    }
  }

  lemma DestroyBalanced(s: State, t: nat, j: nat, e: Event)
    requires t < |s.threads| && j < |s.sinks| && (s.threads[t].Idle? || s.threads[t].WorkerWait?)
    ensures Balanced(s, DestroySection(s, t), t, j, e)
  {
    var s1 := s.(destroyed := true);
    assert Elsewhere(s1, j, e) == Elsewhere(s, j, e);
    TakeBalanced(s1, t, false, true, j, e);
    assert s.pending[0..] == s.pending;
  }

  lemma CallBalanced(s: State, t: nat, a: Action, j: nat, e: Event)
    requires t < |s.threads| && j < |s.sinks| && s.threads[t].Idle?
    ensures Balanced(s, CallStep(s, t, a), t, j, e)
  {
    if a.SubmitForeign? {
      InTasksConcat(s.queue, [Foreign], e);
    } else {
      DestroyBalanced(s, t, j, e);
    }
  }

  lemma EnterBalanced(s: State, t: nat, a: Action, j: nat, e: Event)
    requires t < |s.threads| && j < |s.sinks|
    requires s.threads[t].LogEnter? || s.threads[t].FlushEnter?
    ensures Balanced(s, Step(s, t, a), t, j, e)
  {
    if s.threads[t].LogEnter? {
      var event := s.threads[t].event;
      assert [event][0..] == [event];
    }
  }

  lemma FlushLockBalanced(s: State, t: nat, a: Action, j: nat, e: Event)
    requires t < |s.threads| && j < |s.sinks| && s.threads[t].FlushLock?
    ensures Balanced(s, Step(s, t, a), t, j, e)
  {
    if s.threads[t].poolGone {
      var s0 := s.(lock := Some(t), pending := [], submitted := s.submitted + [Batch(s.pending, true)]);
      var pc' := Writing(s.pending, 0, 0, true, More([]));
      assert Unwritten(pc', j) == s.pending;
      PlacedBalanced(s, s0, Goto(s0, t, pc'), t, j, e, InThread(pc', j, e));
    } else {
      TakeBalanced(s, t, true, false, j, e);
    }
  }

  lemma StepBalanced(s: State, t: nat, a: Action, j: nat, e: Event)
    requires t < |s.threads| && j < |s.sinks|
    ensures Balanced(s, Step(s, t, a), t, j, e)
  {
    match s.threads[t] {
      case Idle => CallBalanced(s, t, a, j, e);
      case LogEnter(_) => EnterBalanced(s, t, a, j, e);
      case FlushEnter => EnterBalanced(s, t, a, j, e);
      case LogLock(event) => LogBalanced(s, t, event, a.Go? && a.expired, j, e);
      case FlushLock(_) => FlushLockBalanced(s, t, a, j, e);
      case Submitting(tasks) => if tasks != [] { SubmitBalanced(s, t, tasks, j, e); }
      case Writing(_, _, _, _, _) => WriteBalanced(s, t, s.threads[t], j, e);
      case Flushing(_, _) => FlushBalanced(s, t, s.threads[t], j, e);
      case WorkerWait => if a.CallDestroy? { DestroyBalanced(s, t, j, e); } else { WorkerBalanced(s, t, j, e); }
      case WorkerExit =>
    }
  }

  lemma StepConserves(s: State, t: nat, a: Action, j: nat, e: Event)
    requires t < |s.threads| && j < |s.sinks| && Conserved(s, j, e)
    ensures j < |Step(s, t, a).sinks| && Conserved(Step(s, t, a), j, e)
  {
    StepBalanced(s, t, a, j, e);
    BalancedConserves(s, Step(s, t, a), t, j, e);
  }

  lemma StepExactlyOnce(s: State, t: nat, a: Action)
    requires Roles(s) && ExactlyOnce(s)
    ensures ExactlyOnce(Step(s, t, a))
  {
    var s' := Step(s, t, a);
    if t < |s.threads| {
      StepMoves(s, t, a);
      forall j: nat, e: Event | j < |s.sinks| ensures j < |s'.sinks| && Conserved(s', j, e) {
        assert Conserved(s, j, e);
        StepConserves(s, t, a, j, e);
      }
    }
  }

  // ----- Nothing is left behind -----

  /** While the pool is there, what has been handed over is what was logged, in the same order. */
  function EventsOf(tasks: seq<Task>): seq<Event> {
    if tasks == [] then []
    else EventsOf(tasks[..|tasks| - 1]) + TaskEvents(tasks[|tasks| - 1])
  }

  function TaskEvents(task: Task): seq<Event> {
    match task
    case Batch(events, _) => events
    case _ => []
  }

  ghost predicate HandedOver(s: State) {
    && (!s.gone ==> s.logged == EventsOf(s.submitted) + s.pending)
    && (s.destroyed ==> s.pending == [])
  }

  lemma EventsOfAppend(tasks: seq<Task>, task: Task)
    ensures EventsOf(tasks + [task]) == EventsOf(tasks) + TaskEvents(task)
  {
    assert (tasks + [task])[..|tasks|] == tasks;
  }

  predicate SameHistory(s: State, s': State) {
    && s'.pending == s.pending && s'.logged == s.logged && s'.submitted == s.submitted
    && s'.gone == s.gone && s'.stopped == s.stopped && s'.destroyed == s.destroyed
  }

  lemma OnwardHistory(s: State, t: nat, tasks: seq<Task>)
    requires t < |s.threads|
    ensures SameHistory(s, Onward(s, t, tasks))
  {
  }

  /** Only a call, a destruction and the sections under the mutex make history. */
  predicate Quiet(pc: Pc, a: Action) {
    match pc
    case Idle => false
    case LogEnter(_) => false
    case LogLock(_) => false
    case FlushLock(_) => false
    case WorkerWait => !a.CallDestroy?
    case _ => true
  }

  lemma ContinueHistory(s: State, t: nat, then_: Then)
    requires t < |s.threads|
    ensures SameHistory(s, Continue(s, t, then_))
  {
  }

  lemma OutputHistory(s: State, t: nat, pc: Pc)
    requires t < |s.threads| && (pc.Writing? || pc.Flushing?)
    ensures SameHistory(s, if pc.Writing? then WriteStep(s, t, pc) else FlushStep(s, t, pc))
  {
    ContinueHistory(s, t, pc.then_);
  }

  lemma SubmitHistory(s: State, t: nat, tasks: seq<Task>)
    requires t < |s.threads| && tasks != []
    ensures SameHistory(s, SubmitStep(s, t, tasks))
  {
  }

  lemma QuietHistory(s: State, t: nat, a: Action)
    requires t < |s.threads| && Quiet(s.threads[t], a)
    ensures SameHistory(s, Step(s, t, a))
  {
    match s.threads[t] {
      case Writing(_, _, _, _, _) => OutputHistory(s, t, s.threads[t]);
      case Flushing(_, _) => OutputHistory(s, t, s.threads[t]);
      case Submitting(tasks) => if tasks != [] { SubmitHistory(s, t, tasks); }
      case _ =>
    }
  }

  lemma TakenHistory(submitted: seq<Task>, pending: seq<Event>, flush: bool, barrier: bool)
    ensures EventsOf(submitted
        + ((if pending == [] then [] else [Batch(pending, flush)]) + (if barrier then [Barrier] else [])))
      == EventsOf(submitted) + pending
  {
    var batch := Batch(pending, flush);
    EventsOfAppend(submitted, batch);
    var taken := if pending == [] then submitted else submitted + [batch];
    EventsOfAppend(taken, Barrier);
    assert submitted + ((if pending == [] then [] else [batch]) + (if barrier then [Barrier] else []))
        == if barrier then taken + [Barrier] else taken;
  }

  lemma TakeHandsOver(s: State, t: nat, barrier: bool, finalBatch: bool)
    requires t < |s.threads|
    ensures var s' := TakePending(s, t, barrier, finalBatch);
      && s'.pending == [] && s'.logged == s.logged && s'.gone == s.gone && s'.destroyed == s.destroyed
      && EventsOf(s'.submitted) == EventsOf(s.submitted) + s.pending
  {
    var flush := !finalBatch && Urgent(s, s.pending);
    TakenHistory(s.submitted, s.pending, flush, barrier);
    var tasks := (if s.pending == [] then [] else [Batch(s.pending, flush)]) + (if barrier then [Barrier] else []);
    OnwardHistory(s.(pending := [], submitted := s.submitted + tasks, lock := Some(t)), t, tasks);
  }

  lemma LogHandsOver(s: State, t: nat, event: Event, expired: bool)
    requires t < |s.threads| && HandedOver(s) && !s.destroyed
    ensures HandedOver(LogSection(s, t, event, expired))
  {
    var s1 := s.(pending := s.pending + [event], logged := s.logged + [event]);
    assert !s.gone ==> s1.logged == EventsOf(s1.submitted) + s1.pending;
    TakeHandsOver(s1, t, false, false);
  }

  lemma DestroyHandsOver(s: State, t: nat)
    requires t < |s.threads| && HandedOver(s)
    ensures HandedOver(LastReference(s, t))
  {
    TakeHandsOver(s.(destroyed := true), t, false, true);
  }

  lemma CallHandsOver(s: State, t: nat, a: Action)
    requires t < |s.threads| && HandedOver(s)
    ensures HandedOver(CallStep(s, t, a))
  {
    if a.CallDestroy? {
      DestroyHandsOver(s, t);
    }
  }

  lemma StepHandsOver(s: State, t: nat, a: Action)
    requires Roles(s) && HandedOver(s)
    ensures HandedOver(Step(s, t, a))
  {
    if t < |s.threads| {
      assert Fits(s, t, s.threads[t]);
      match s.threads[t] {
        case Idle => CallHandsOver(s, t, a);
        case LogEnter(_) =>
        case LogLock(event) => LogHandsOver(s, t, event, a.Go? && a.expired);
        case FlushLock(_) => if s.lock.None? { TakeHandsOver(s, t, true, false); }
        case WorkerWait => if a.CallDestroy? { DestroyHandsOver(s, t); } else { QuietHistory(s, t, a); }
        case _ => QuietHistory(s, t, a);
      }
    }
  }

  // ----- One worker and no stop: sink order is the order of the mutex -----

  /** What a sink of this level is to receive for some events, and for some tasks. */
  function Writes(level: int, events: seq<Event>): seq<Out> {
    if events == [] then []
    else (if events[0].level >= level then [Wrote(events[0])] else []) + Writes(level, events[1..])
  }

  function Expand(level: int, tasks: seq<Task>): seq<Out> {
    if tasks == [] then [] else Outputs(level, tasks[0]) + Expand(level, tasks[1..])
  }

  function Outputs(level: int, task: Task): seq<Out> {
    match task
    case Batch(events, flush) => Writes(level, events) + (if flush then [Flushed] else [])
    case Barrier => [Flushed]
    case Foreign => []
  }

  lemma Assoc<T>(a: seq<T>, b: seq<T>, c: seq<T>)
    ensures a + b + c == a + (b + c)
  {
  }

  lemma {:induction false} ExpandConcat(level: int, a: seq<Task>, b: seq<Task>)
    ensures Expand(level, a + b) == Expand(level, a) + Expand(level, b)
    decreases |a|
  {
    if a == [] {
      assert a + b == b;
    } else {
      ExpandConcat(level, a[1..], b);
      assert (a + b)[1..] == a[1..] + b;
      Assoc(Outputs(level, a[0]), Expand(level, a[1..]), Expand(level, b));
    }
  }

  /** What a thread in the middle of a task still has to do to sink `j`. */
  function Ahead(pc: Pc, j: nat, level: int): seq<Out> {
    match pc
    case Writing(_, _, _, flush, _) => Writes(level, Unwritten(pc, j)) + (if flush then [Flushed] else [])
    case Flushing(k, _) => if j < k then [] else [Flushed]
    case _ => []
  }

  /** The tasks the holder of the mutex has still to submit. */
  function HeldTasks(s: State): seq<Task> {
    if s.lock.Some? && s.lock.value < |s.threads| && s.threads[s.lock.value].Submitting?
    then s.threads[s.lock.value].tasks else []
  }

  predicate CallerCalm(pc: Pc) {
    !pc.Writing? && !pc.Flushing? && !pc.WorkerExit? && (pc.FlushLock? ==> !pc.poolGone)
  }

  predicate WorkerCalm(pc: Pc) {
    pc.Writing? || pc.Flushing? ==> pc.then_.NextTask?
  }

  ghost predicate Calm(s: State) {
    && (s.gone ==> s.stopped)
    && (!s.stopped ==> forall t: nat :: t < |s.threads| ==>
         if t in s.workers then WorkerCalm(s.threads[t]) else CallerCalm(s.threads[t]))
  }

  predicate OneWorker(s: State, w: nat) {
    w < |s.threads| && s.workers == {w}
  }

  predicate SinkInOrder(s: State, w: nat, j: nat)
    requires w < |s.threads| && j < |s.sinks|
  {
    var level := s.sinks[j].level;
    s.sinks[j].trace + Ahead(s.threads[w], j, level) + Expand(level, s.queue) + Expand(level, HeldTasks(s))
      == Expand(level, s.submitted)
  }

  ghost predicate InOrder(s: State) {
    forall w: nat, j: nat :: !s.stopped && OneWorker(s, w) && j < |s.sinks| ==> SinkInOrder(s, w, j)
  }

  lemma CallerStaysCalm(s: State, t: nat, a: Action)
    requires t < |s.threads| && CallerCalm(s.threads[t]) && !s.threads[t].WorkerWait? && !s.stopped && !s.gone
    ensures !Step(s, t, a).stopped ==> CallerCalm(Step(s, t, a).threads[t])
  {
  }

  lemma StepCalm(s: State, t: nat, a: Action)
    requires Roles(s) && Calm(s)
    ensures Calm(Step(s, t, a))
  {
    var s' := Step(s, t, a);
    if t < |s.threads| {
      StepMoves(s, t, a);
      assert Fits(s, t, s.threads[t]);
      StopForGood(s, t, a);
      if !s'.stopped && t !in s.workers {
        CallerStaysCalm(s, t, a);
      }
    }
  }

  lemma StopForGood(s: State, t: nat, a: Action)
    requires t < |s.threads|
    ensures var s' := Step(s, t, a);
      (s.stopped ==> s'.stopped) && (s.gone ==> s'.gone) && (s'.gone && !s.gone ==> s'.stopped)
  {
    if Quiet(s.threads[t], a) {
      QuietHistory(s, t, a);
    }
  }

  lemma WorkerTakes(s: State, w: nat, j: nat)
    requires w < |s.threads| && j < |s.sinks| && s.threads[w].WorkerWait? && s.queue != []
    ensures Ahead(WorkerStep(s, w).threads[w], j, s.sinks[j].level) == Outputs(s.sinks[j].level, s.queue[0])
  {
    assert s.queue[0].Batch? ==> s.queue[0].events[0..] == s.queue[0].events;
  }

  lemma PassNothing<T>(a: seq<T>, out: seq<T>, rest: seq<T>, held: seq<T>)
    ensures a + [] + (out + rest) + held == a + out + rest + held
  {
  }

  lemma WorkerFrame(s: State, w: nat)
    requires w < |s.threads| && s.threads[w].WorkerWait? && s.queue != []
    ensures var s' := WorkerStep(s, w);
      && s'.workers == s.workers && |s'.threads| == |s.threads| && s'.sinks == s.sinks
      && s'.queue == s.queue[1..] && s'.submitted == s.submitted
  {
  }

  lemma WorkerInOrder(s: State, w: nat, j: nat)
    requires OneWorker(s, w) && j < |s.sinks| && SinkInOrder(s, w, j) && !s.stopped
    requires s.threads[w].WorkerWait? && HeldTasks(s) == HeldTasks(WorkerStep(s, w))
    ensures SinkInOrder(WorkerStep(s, w), w, j)
  {
    if s.queue != [] {
      var level, trace := s.sinks[j].level, s.sinks[j].trace;
      WorkerTakes(s, w, j);
      WorkerFrame(s, w);
      PassNothing(trace, Outputs(level, s.queue[0]), Expand(level, s.queue[1..]), Expand(level, HeldTasks(s)));
    }
  }

  lemma WritesFirst(level: int, events: seq<Event>, i: nat)
    requires i < |events|
    ensures Writes(level, events[i..])
      == (if events[i].level >= level then [Wrote(events[i])] else []) + Writes(level, events[i + 1..])
  {
    assert events[i..][1..] == events[i + 1..];
  }

  lemma SplitOff<T>(a: seq<T>, one: seq<T>, rest: seq<T>, end: seq<T>)
    ensures a + one + (rest + end) == a + (one + rest + end)
  {
  }

  lemma WriteHere(sink: Sink, pc: Pc)
    requires pc.Writing? && pc.i < |pc.events|
    ensures var pc' := Writing(pc.events, pc.i, pc.k + 1, pc.flush, pc.then_);
      WriteTo(sink, pc.events[pc.i]).trace + Ahead(pc', pc.k, sink.level) == sink.trace + Ahead(pc, pc.k, sink.level)
  {
    var pc' := Writing(pc.events, pc.i, pc.k + 1, pc.flush, pc.then_);
    var one := if pc.events[pc.i].level >= sink.level then [Wrote(pc.events[pc.i])] else [];
    var rest, end := Writes(sink.level, pc.events[pc.i + 1..]), if pc.flush then [Flushed] else [];
    WritesFirst(sink.level, pc.events, pc.i);
    assert Unwritten(pc, pc.k) == pc.events[pc.i..] && Unwritten(pc', pc.k) == pc.events[pc.i + 1..];
    assert Ahead(pc, pc.k, sink.level) == one + rest + end && Ahead(pc', pc.k, sink.level) == rest + end;
    assert WriteTo(sink, pc.events[pc.i]).trace == sink.trace + one;
    SplitOff(sink.trace, one, rest, end);
  }

  /** One write, or one step past a sink, takes exactly what it writes off what is ahead. */
  lemma WriteAhead(sink: Sink, pc: Pc, j: nat)
    requires pc.Writing? && pc.i < |pc.events|
    ensures var pc' := Writing(pc.events, pc.i, pc.k + 1, pc.flush, pc.then_);
      (if j == pc.k then WriteTo(sink, pc.events[pc.i]) else sink).trace + Ahead(pc', j, sink.level)
        == sink.trace + Ahead(pc, j, sink.level)
  {
    var pc' := Writing(pc.events, pc.i, pc.k + 1, pc.flush, pc.then_);
    if j == pc.k {
      WriteHere(sink, pc);
    } else {
      assert Unwritten(pc, j) == Unwritten(pc', j);
    }
  }

  lemma SameAheadInOrder(s: State, s': State, w: nat, j: nat)
    requires OneWorker(s, w) && j < |s.sinks| && SinkInOrder(s, w, j)
    requires OneWorker(s', w) && j < |s'.sinks| && s'.sinks[j].level == s.sinks[j].level
    requires s'.queue == s.queue && s'.submitted == s.submitted && HeldTasks(s') == HeldTasks(s)
    requires s'.sinks[j].trace + Ahead(s'.threads[w], j, s.sinks[j].level)
      == s.sinks[j].trace + Ahead(s.threads[w], j, s.sinks[j].level)
    ensures SinkInOrder(s', w, j)
  {
  }

  lemma PassAhead(s: State, w: nat, pc: Pc, j: nat)
    requires w < |s.threads| && j < |s.sinks| && s.threads[w] == pc && pc.Writing? && pc.then_.NextTask?
    requires pc.i >= |pc.events| || pc.k >= |s.sinks|
    ensures var s' := WriteStep(s, w, pc);
      s'.sinks == s.sinks && Ahead(s'.threads[w], j, s.sinks[j].level) == Ahead(pc, j, s.sinks[j].level)
  {
    var s' := WriteStep(s, w, pc);
    assert pc.i < |pc.events| ==> Unwritten(s'.threads[w], j) == Unwritten(pc, j);
  }

  lemma WriteStepAhead(s: State, w: nat, pc: Pc, j: nat)
    requires w < |s.threads| && j < |s.sinks| && s.threads[w] == pc && pc.Writing? && pc.then_.NextTask?
    ensures var s' := WriteStep(s, w, pc);
      s'.sinks[j].trace + Ahead(s'.threads[w], j, s.sinks[j].level)
        == s.sinks[j].trace + Ahead(pc, j, s.sinks[j].level)
  {
    if pc.i < |pc.events| && pc.k < |s.sinks| {
      WriteStepIs(s, w, pc, s.(sinks := s.sinks[pc.k := WriteTo(s.sinks[pc.k], pc.events[pc.i])]),
        Writing(pc.events, pc.i, pc.k + 1, pc.flush, pc.then_));
      WriteAhead(s.sinks[j], pc, j);
    } else {
      PassAhead(s, w, pc, j);
    }
  }

  lemma WriteStepFrame(s: State, w: nat, pc: Pc)
    requires w < |s.threads| && s.threads[w] == pc && pc.Writing? && pc.then_.NextTask?
    ensures var s' := WriteStep(s, w, pc);
      && |s'.threads| == |s.threads| && s'.workers == s.workers
      && s'.queue == s.queue && s'.submitted == s.submitted
      && |s'.sinks| == |s.sinks| && forall j: nat :: j < |s.sinks| ==> s'.sinks[j].level == s.sinks[j].level
  {
  }

  lemma WritingInOrder(s: State, w: nat, pc: Pc, j: nat)
    requires OneWorker(s, w) && j < |s.sinks| && SinkInOrder(s, w, j)
    requires s.threads[w] == pc && pc.Writing? && pc.then_.NextTask? && HeldTasks(s) == HeldTasks(WriteStep(s, w, pc))
    ensures SinkInOrder(WriteStep(s, w, pc), w, j)
  {
    WriteStepAhead(s, w, pc, j);
    WriteStepFrame(s, w, pc);
    SameAheadInOrder(s, WriteStep(s, w, pc), w, j);
  }

  lemma FlushingInOrder(s: State, w: nat, pc: Pc, j: nat)
    requires OneWorker(s, w) && j < |s.sinks| && SinkInOrder(s, w, j)
    requires s.threads[w] == pc && pc.Flushing? && pc.then_.NextTask? && HeldTasks(s) == HeldTasks(FlushStep(s, w, pc))
    ensures SinkInOrder(FlushStep(s, w, pc), w, j)
  {
    var s' := FlushStep(s, w, pc);
    var level := s.sinks[j].level;
    assert s'.sinks[j].trace + Ahead(s'.threads[w], j, level) == s.sinks[j].trace + Ahead(s.threads[w], j, level);
    SameAheadInOrder(s, s', w, j);
  }

  /** A worker at its work does not hold the mutex, and leaves alone what its holder has in hand. */
  lemma WorkerHeld(s: State, s': State, w: nat)
    requires Roles(s) && w < |s.threads| && s.lock != Some(w)
    requires s'.lock == s.lock && |s'.threads| == |s.threads|
    requires forall u: nat :: u < |s.threads| && u != w ==> s'.threads[u] == s.threads[u]
    ensures HeldTasks(s') == HeldTasks(s)
  {
  }

  lemma WorkerAtWork(s: State, w: nat, a: Action)
    requires Roles(s) && OneWorker(s, w) && Quiet(s.threads[w], a)
    requires s.threads[w].WorkerWait? || ((s.threads[w].Writing? || s.threads[w].Flushing?) && s.threads[w].then_.NextTask?)
    ensures HeldTasks(Step(s, w, a)) == HeldTasks(s)
  {
    assert Fits(s, w, s.threads[w]);
    StepMoves(s, w, a);
    WorkerHeld(s, Step(s, w, a), w);
  }

  lemma OneWorkerInOrder(s: State, w: nat, a: Action, j: nat)
    requires Roles(s) && Calm(s) && OneWorker(s, w) && j < |s.sinks| && SinkInOrder(s, w, j) && !s.stopped
    ensures j < |Step(s, w, a).sinks| && SinkInOrder(Step(s, w, a), w, j)
  {
    var pc := s.threads[w];
    StepMoves(s, w, a);
    assert Fits(s, w, pc) && WorkerCalm(pc);
    if pc.Submitting? {
      if pc.tasks != [] {
        SubmitInOrder(s, w, pc.tasks, w, j);
      }
    } else if !Quiet(pc, a) {
      DestroyInOrder(s, w, w, j);
    } else if pc.Writing? {
      WorkerAtWork(s, w, a);
      WritingInOrder(s, w, pc, j);
    } else if pc.Flushing? {
      WorkerAtWork(s, w, a);
      FlushingInOrder(s, w, pc, j);
    } else if pc.WorkerWait? {
      WorkerAtWork(s, w, a);
      WorkerInOrder(s, w, j);
    }
  }

  /** What is on its way to sink `j` before anything the holder of the mutex has in hand. */
  function Piped(s: State, w: nat, j: nat): seq<Out>
    requires w < |s.threads| && j < |s.sinks|
  {
    s.sinks[j].trace + Ahead(s.threads[w], j, s.sinks[j].level) + Expand(s.sinks[j].level, s.queue)
  }

  lemma OnwardHolds(s: State, t: nat, tasks: seq<Task>, w: nat, j: nat)
    requires t < |s.threads| && w < |s.threads| && j < |s.sinks| && s.lock == Some(t)
    requires t == w ==> Ahead(s.threads[w], j, s.sinks[j].level) == []
    ensures var s' := Onward(s, t, tasks);
      && s'.sinks == s.sinks && |s'.threads| == |s.threads|
      && Piped(s', w, j) == Piped(s, w, j) && HeldTasks(s') == tasks && s'.submitted == s.submitted
  {
  }

  /** Taking the pending batch puts its tasks both in hand and on record. */
  lemma TakeInOrder(s: State, t: nat, barrier: bool, finalBatch: bool, w: nat, j: nat)
    requires OneWorker(s, w) && j < |s.sinks| && SinkInOrder(s, w, j)
    requires t < |s.threads| && (t == w ==> s.threads[w].WorkerWait?) && s.lock.None?
    ensures SinkInOrder(TakePending(s, t, barrier, finalBatch), w, j)
  {
    var level := s.sinks[j].level;
    var tasks := (if s.pending == [] then [] else [Batch(s.pending, !finalBatch && Urgent(s, s.pending))])
      + (if barrier then [Barrier] else []);
    var s0 := s.(pending := [], submitted := s.submitted + tasks, lock := Some(t));
    ExpandConcat(level, s.submitted, tasks);
    assert Piped(s, w, j) + [] == Piped(s, w, j);
    OnwardHolds(s0, t, tasks, w, j);
  }

  lemma Regroup<T>(a: seq<T>, b: seq<T>, c: seq<T>, d: seq<T>)
    ensures a + (b + c) + d == a + b + (c + d)
  {
  }

  lemma FirstOfAll<T>(a: seq<T>, b: seq<T>, c: seq<T>, d: seq<T>)
    ensures a + b + c + d == a + (a + b + c + d)[|a|..]
    ensures a <= a + b + c + d
  {
  }

  lemma PipeOne(s: State, s0: State, w: nat, j: nat, tasks: seq<Task>)
    requires w < |s.threads| && j < |s.sinks| && tasks != [] && s0 == s.(queue := s.queue + [tasks[0]])
    ensures Piped(s0, w, j) + Expand(s.sinks[j].level, tasks[1..]) == Piped(s, w, j) + Expand(s.sinks[j].level, tasks)
  {
    var level := s.sinks[j].level;
    ExpandConcat(level, s.queue, [tasks[0]]);
    assert Expand(level, [tasks[0]]) == Outputs(level, tasks[0]);
    Regroup(s.sinks[j].trace + Ahead(s.threads[w], j, level), Expand(level, s.queue), Outputs(level, tasks[0]),
      Expand(level, tasks[1..]));
  }

  lemma SubmitInOrder(s: State, t: nat, tasks: seq<Task>, w: nat, j: nat)
    requires OneWorker(s, w) && j < |s.sinks| && SinkInOrder(s, w, j) && !s.stopped
    requires t < |s.threads| && s.threads[t] == Submitting(tasks) && tasks != [] && s.lock == Some(t)
    ensures SinkInOrder(SubmitStep(s, t, tasks), w, j)
  {
    var level := s.sinks[j].level;
    if |s.queue| < s.cap {
      var s0 := s.(queue := s.queue + [tasks[0]]);
      PipeOne(s, s0, w, j, tasks);
      OnwardHolds(s0, t, tasks[1..], w, j);
    }
  }

  lemma LockFree(s: State, t: nat)
    requires Roles(s) && t < |s.threads| && (s.threads[t].Idle? || s.threads[t].WorkerWait?) && Unreferenced(s, t)
    ensures s.lock.None?
  {
    assert s.lock.Some? ==> Fits(s, s.lock.value, s.threads[s.lock.value]);
  }

  lemma LogInOrder(s: State, t: nat, event: Event, expired: bool, w: nat, j: nat)
    requires OneWorker(s, w) && j < |s.sinks| && SinkInOrder(s, w, j)
    requires t < |s.threads| && t != w && s.lock.None?
    ensures SinkInOrder(LogSection(s, t, event, expired), w, j)
  {
    var s1 := s.(pending := s.pending + [event], logged := s.logged + [event]);
    SameAheadInOrder(s, s1, w, j);
    TakeInOrder(s1, t, false, false, w, j);
    SameAheadInOrder(s1, Goto(s1, t, Idle), w, j);
  }

  lemma DestroyTakes(s: State, t: nat, w: nat, j: nat)
    requires OneWorker(s, w) && j < |s.sinks| && SinkInOrder(s, w, j) && s.lock.None? && !s.gone
    requires t < |s.threads| && (t == w ==> s.threads[w].WorkerWait?)
    ensures SinkInOrder(DestroySection(s, t), w, j)
  {
    var s1 := s.(destroyed := true);
    SameAheadInOrder(s, s1, w, j);
    TakeInOrder(s1, t, false, true, w, j);
  }

  lemma DestroyFrame(s: State, t: nat)
    requires t < |s.threads|
    ensures var s' := LastReference(s, t);
      |s'.threads| == |s.threads| && s'.workers == s.workers && s'.sinks == s.sinks
  {
  }

  /** The destructor, run by a caller or by the worker itself. */
  lemma DestroyInOrder(s: State, t: nat, w: nat, j: nat)
    requires Roles(s) && Calm(s) && OneWorker(s, w) && j < |s.sinks| && SinkInOrder(s, w, j) && !s.stopped
    requires t < |s.threads| && (s.threads[t].Idle? || s.threads[t].WorkerWait?)
    ensures SinkInOrder(LastReference(s, t), w, j)
  {
    if !s.destroyed && Unreferenced(s, t) {
      assert Fits(s, t, s.threads[t]);
      LockFree(s, t);
      DestroyTakes(s, t, w, j);
    }
  }

  lemma ForeignInOrder(s: State, w: nat, j: nat)
    requires OneWorker(s, w) && j < |s.sinks| && SinkInOrder(s, w, j)
    ensures SinkInOrder(s.(queue := s.queue + [Foreign]), w, j)
  {
    var level := s.sinks[j].level;
    ExpandConcat(level, s.queue, [Foreign]);
    assert Expand(level, [Foreign]) == [] && Expand(level, s.queue) + [] == Expand(level, s.queue);
    assert HeldTasks(s.(queue := s.queue + [Foreign])) == HeldTasks(s);
  }

  /** A call but for the two that change what a sink is to get leaves that alone. */
  lemma PlainCall(s: State, t: nat, a: Action, w: nat)
    requires OneWorker(s, w) && t < |s.threads| && t != w && s.threads[t].Idle? && s.lock != Some(t)
    requires !a.CallDestroy? && !a.SubmitForeign?
    ensures var s' := CallStep(s, t, a);
      && OneWorker(s', w) && s'.queue == s.queue && s'.submitted == s.submitted && HeldTasks(s') == HeldTasks(s)
      && s'.sinks == s.sinks && s'.threads[w] == s.threads[w]
  {
  }

  lemma CallIs(s: State, t: nat, a: Action)
    requires t < |s.threads|
    ensures a.CallDestroy? ==> CallStep(s, t, a) == LastReference(s, t)
    ensures a.SubmitForeign? ==> CallStep(s, t, a) == s || CallStep(s, t, a) == s.(queue := s.queue + [Foreign])
  {
  }

  lemma CallInOrder(s: State, t: nat, a: Action, s': State, w: nat, j: nat)
    requires Roles(s) && Calm(s) && OneWorker(s, w) && j < |s.sinks| && SinkInOrder(s, w, j) && !s.stopped
    requires t < |s.threads| && t != w && s.threads[t].Idle? && s' == CallStep(s, t, a)
    ensures OneWorker(s', w) && j < |s'.sinks| && SinkInOrder(s', w, j)
  {
    CallIs(s, t, a);
    if a.CallDestroy? {
      DestroyFrame(s, t);
      DestroyInOrder(s, t, w, j);
    } else if a.SubmitForeign? {
      ForeignInOrder(s, w, j);
    } else {
      assert Fits(s, t, s.threads[t]);
      PlainCall(s, t, a, w);
      SameAheadInOrder(s, s', w, j);
    }
  }

  lemma CallerIs(s: State, t: nat, a: Action)
    requires t < |s.threads|
    ensures var pc, s' := s.threads[t], Step(s, t, a);
      && (pc.Idle? ==> s' == CallStep(s, t, a))
      && (pc.LogEnter? && !s.gone ==> s' == Goto(s, t, LogLock(pc.event)))
      && (pc.LogLock? ==> s' == if s.lock.Some? then s else LogSection(s, t, pc.event, a.Go? && a.expired))
      && (pc.FlushEnter? ==> s' == Goto(s, t, FlushLock(s.gone)))
      && (pc.FlushLock? && !pc.poolGone ==> s' == if s.lock.Some? then s else TakePending(s, t, true, false))
      && (pc.Submitting? ==> s' == if pc.tasks == [] then s else SubmitStep(s, t, pc.tasks))
  {
  }

  lemma CallerInOrder(s: State, t: nat, a: Action, s': State, w: nat, j: nat)
    requires Roles(s) && Calm(s) && OneWorker(s, w) && j < |s.sinks| && SinkInOrder(s, w, j) && !s.stopped
    requires t < |s.threads| && t != w && s' == Step(s, t, a)
    ensures w < |s'.threads| && j < |s'.sinks| && SinkInOrder(s', w, j)
  {
    StepMoves(s, t, a);
    CallerIs(s, t, a);
    assert Fits(s, t, s.threads[t]) && CallerCalm(s.threads[t]);
    match s.threads[t] {
      case Idle => CallInOrder(s, t, a, s', w, j);
      case LogEnter(event) => SameAheadInOrder(s, Goto(s, t, LogLock(event)), w, j);
      case LogLock(event) => if s.lock.None? { LogInOrder(s, t, event, a.Go? && a.expired, w, j); }
      case FlushEnter => SameAheadInOrder(s, Goto(s, t, FlushLock(s.gone)), w, j);
      case FlushLock(_) => if s.lock.None? { TakeInOrder(s, t, true, false, w, j); }
      case Submitting(tasks) => if tasks != [] { SubmitInOrder(s, t, tasks, w, j); }
      case _ =>
    }
  }

  lemma StepInOrder(s: State, t: nat, a: Action)
    requires Roles(s) && Calm(s) && InOrder(s) && t < |s.threads|
    ensures InOrder(Step(s, t, a))
  {
    var s' := Step(s, t, a);
    StepMoves(s, t, a);
    StopForGood(s, t, a);
    forall w: nat, j: nat | !s'.stopped && OneWorker(s', w) && j < |s'.sinks| ensures SinkInOrder(s', w, j) {
      if t == w {
        OneWorkerInOrder(s, w, a, j);
      } else {
        CallerInOrder(s, t, a, s', w, j);
      }
    }
  }

  // ----- Whole runs -----

  ghost predicate Inv(s: State) {
    Roles(s) && ExactlyOnce(s) && HandedOver(s) && Calm(s) && InOrder(s)
  }

  lemma StepInv(s: State, t: nat, a: Action)
    requires Inv(s)
    ensures Inv(Step(s, t, a))
  {
    if t < |s.threads| {
      StepRoles(s, t, a);
      StepExactlyOnce(s, t, a);
      StepHandsOver(s, t, a);
      StepCalm(s, t, a);
      StepInOrder(s, t, a);
    }
  }

  /** Main result: the invariant holds after any run of any threads. */
  lemma {:induction false} RunInv(s: State, moves: seq<(nat, Action)>)
    requires Inv(s)
    ensures Inv(Run(s, moves))
    decreases |moves|
  {
    if moves != [] {
      StepInv(s, moves[0].0, moves[0].1);
      RunInv(Step(s, moves[0].0, moves[0].1), moves[1..]);
    }
  }

  lemma {:induction false} NoneInIdle(threads: seq<Pc>, j: nat, e: Event)
    requires forall t :: 0 <= t < |threads| ==> threads[t].Idle? || threads[t].WorkerWait? || threads[t].WorkerExit?
    ensures InThreads(threads, j, e) == 0
    decreases |threads|
  {
    if threads != [] {
      assert threads[0].Idle? || threads[0].WorkerWait? || threads[0].WorkerExit?;
      NoneInIdle(threads[1..], j, e);
    }
  }

  lemma StartRoles(batchSize: nat, flushLevel: int, cap: nat, levels: seq<int>, workers: nat, callers: nat)
    ensures Roles(Start(batchSize, flushLevel, cap, levels, workers, callers))
  {
    var s := Start(batchSize, flushLevel, cap, levels, workers, callers);
    forall t: nat | t < |s.threads| ensures Fits(s, t, s.threads[t]) {
      assert t < workers ==> FirstThreads(workers)[t] == t;
    }
  }

  lemma StartInv(batchSize: nat, flushLevel: int, cap: nat, levels: seq<int>, workers: nat, callers: nat)
    ensures Inv(Start(batchSize, flushLevel, cap, levels, workers, callers))
  {
    var s := Start(batchSize, flushLevel, cap, levels, workers, callers);
    StartRoles(batchSize, flushLevel, cap, levels, workers, callers);
    forall j: nat, e: Event | j < |s.sinks| ensures Conserved(s, j, e) {
      NoneInIdle(s.threads, j, e);
    }
    forall t: nat | t < |s.threads| && t !in s.workers ensures CallerCalm(s.threads[t]) {
      assert Fits(s, t, s.threads[t]);
    }
  }

  /** Nothing is running and nothing waits: no call in progress, none of its tasks queued or being worked on. */
  predicate AtRest(s: State) {
    && (forall task :: task in s.queue ==> task.Foreign?)
    && forall t :: 0 <= t < |s.threads| ==>
         s.threads[t].Idle? || s.threads[t].WorkerWait? || s.threads[t].WorkerExit?
  }

  /**
   Exactly once, however many workers, and whether or not the pool was stopped or dropped on the way:
   at rest and with no batch pending, each sink has each logged event as often as it was logged if it
   admits it, and not at all otherwise.
   */
  lemma EachSinkEachEventOnce(s: State, j: nat, e: Event)
    requires Inv(s) && AtRest(s) && s.pending == [] && j < |s.sinks|
    ensures multiset(s.sinks[j].trace)[Wrote(e)] == if Admits(s, j, e) then multiset(s.logged)[e] else 0
  {
    NoneInIdle(s.threads, j, e);
    NoneInForeign(s.queue, e);
    assert Conserved(s, j, e);
  }

  lemma {:induction false} NoneInForeign(tasks: seq<Task>, e: Event)
    requires forall task :: task in tasks ==> task.Foreign?
    ensures InTasks(tasks, e) == 0
    decreases |tasks|
  {
    if tasks != [] {
      assert tasks[0] in tasks;
      NoneInForeign(tasks[1..], e);
    }
  }

  lemma {:induction false} ForeignWritesNothing(level: int, tasks: seq<Task>)
    requires forall task :: task in tasks ==> task.Foreign?
    ensures Expand(level, tasks) == []
    decreases |tasks|
  {
    if tasks != [] {
      assert tasks[0] in tasks;
      ForeignWritesNothing(level, tasks[1..]);
    }
  }

  /** The destructor leaves no batch behind. */
  lemma DestructionDelivers(s: State, j: nat, e: Event)
    requires Inv(s) && AtRest(s) && s.destroyed && j < |s.sinks|
    ensures multiset(s.sinks[j].trace)[Wrote(e)] == if Admits(s, j, e) then multiset(s.logged)[e] else 0
  {
    EachSinkEachEventOnce(s, j, e);
  }

  /** At any moment no sink has an event more often than it was logged. */
  lemma NeverTwice(s: State, j: nat, e: Event)
    requires Inv(s) && j < |s.sinks|
    ensures multiset(s.sinks[j].trace)[Wrote(e)] <= multiset(s.logged)[e]
  {
    assert Conserved(s, j, e);
  }

  function OutEvents(trace: seq<Out>): seq<Event> {
    if trace == [] then [] else (match trace[0] case Wrote(e) => [e] case Flushed => []) + OutEvents(trace[1..])
  }

  function Admitted(level: int, events: seq<Event>): seq<Event> {
    if events == [] then [] else (if events[0].level >= level then [events[0]] else []) + Admitted(level, events[1..])
  }

  lemma {:induction false} OutEventsConcat(a: seq<Out>, b: seq<Out>)
    ensures OutEvents(a + b) == OutEvents(a) + OutEvents(b)
    decreases |a|
  {
    if a == [] {
      assert a + b == b;
    } else {
      OutEventsConcat(a[1..], b);
      assert (a + b)[1..] == a[1..] + b;
      Assoc(OutEvents([a[0]]), OutEvents(a[1..]), OutEvents(b));
    }
  }

  lemma {:induction false} AdmittedConcat(level: int, a: seq<Event>, b: seq<Event>)
    ensures Admitted(level, a + b) == Admitted(level, a) + Admitted(level, b)
    decreases |a|
  {
    if a == [] {
      assert a + b == b;
    } else {
      AdmittedConcat(level, a[1..], b);
      assert (a + b)[1..] == a[1..] + b;
      Assoc(Admitted(level, [a[0]]), Admitted(level, a[1..]), Admitted(level, b));
    }
  }

  lemma {:induction false} WritesAreAdmitted(level: int, events: seq<Event>)
    ensures OutEvents(Writes(level, events)) == Admitted(level, events)
    decreases |events|
  {
    if events != [] {
      WritesAreAdmitted(level, events[1..]);
      OutEventsConcat(if events[0].level >= level then [Wrote(events[0])] else [], Writes(level, events[1..]));
    }
  }

  lemma OutputEvents(level: int, task: Task)
    ensures OutEvents(Outputs(level, task)) == Admitted(level, TaskEvents(task))
  {
    match task
    case Batch(events, flush) =>
      WritesAreAdmitted(level, events);
      OutEventsConcat(Writes(level, events), if flush then [Flushed] else []);
    case _ =>
  }

  lemma {:induction false} ExpandedEvents(level: int, tasks: seq<Task>)
    ensures OutEvents(Expand(level, tasks)) == Admitted(level, EventsOf(tasks))
    decreases |tasks|
  {
    if tasks != [] {
      var n := |tasks| - 1;
      ExpandedEvents(level, tasks[..n]);
      OutputEvents(level, tasks[n]);
      assert tasks == tasks[..n] + [tasks[n]];
      ExpandConcat(level, tasks[..n], [tasks[n]]);
      assert Expand(level, [tasks[n]]) == Outputs(level, tasks[n]);
      OutEventsConcat(Expand(level, tasks[..n]), Outputs(level, tasks[n]));
      AdmittedConcat(level, EventsOf(tasks[..n]), TaskEvents(tasks[n]));
    }
  }

  /**
   In order: with one worker and no stop, what a sink has is at all times a prefix of what the batches
   and barriers ask of it in the order of the mutex, and its events a prefix of the admitted log.
   */
  lemma SinkFollowsMutexOrder(s: State, w: nat, j: nat)
    requires Inv(s) && !s.stopped && OneWorker(s, w) && j < |s.sinks|
    ensures s.sinks[j].trace <= Expand(s.sinks[j].level, s.submitted)
    ensures OutEvents(s.sinks[j].trace) <= Admitted(s.sinks[j].level, s.logged)
    ensures AtRest(s) && s.pending == [] ==> OutEvents(s.sinks[j].trace) == Admitted(s.sinks[j].level, s.logged)
  {
    var level := s.sinks[j].level;
    assert SinkInOrder(s, w, j);
    FirstOfAll(s.sinks[j].trace, Ahead(s.threads[w], j, level), Expand(level, s.queue), Expand(level, HeldTasks(s)));
    OutEventsConcat(s.sinks[j].trace, Expand(level, s.submitted)[|s.sinks[j].trace|..]);
    ExpandedEvents(level, s.submitted);
    AdmittedConcat(level, EventsOf(s.submitted), s.pending);
    if AtRest(s) && s.pending == [] {
      AtRestTrace(s, w, j);
      assert s.logged == EventsOf(s.submitted);
    }
  }

  lemma NoTasksHeld(s: State)
    requires AtRest(s)
    ensures HeldTasks(s) == []
  {
  }

  lemma AtRestTrace(s: State, w: nat, j: nat)
    requires Inv(s) && !s.stopped && OneWorker(s, w) && j < |s.sinks| && AtRest(s)
    ensures s.sinks[j].trace == Expand(s.sinks[j].level, s.submitted)
  {
    assert SinkInOrder(s, w, j);
    assert s.threads[w].Idle? || s.threads[w].WorkerWait? || s.threads[w].WorkerExit?;
    NoTasksHeld(s);
    ForeignWritesNothing(s.sinks[j].level, s.queue);
    assert s.sinks[j].trace + [] + [] + [] == s.sinks[j].trace;
  }

  lemma StepRecords(s: State, t: nat, a: Action)
    ensures s.submitted <= Step(s, t, a).submitted
    ensures s.stopped ==> Step(s, t, a).stopped
  {
    if t < |s.threads| {
      StopForGood(s, t, a);
      if Quiet(s.threads[t], a) {
        QuietHistory(s, t, a);
      }
    }
  }

  lemma {:induction false} RunRecords(s: State, moves: seq<(nat, Action)>)
    ensures s.submitted <= Run(s, moves).submitted
    ensures s.stopped ==> Run(s, moves).stopped
    decreases |moves|
  {
    if moves != [] {
      StepRecords(s, moves[0].0, moves[0].1);
      RunRecords(Step(s, moves[0].0, moves[0].1), moves[1..]);
    }
  }

  /** The task a flush leaves behind everything logged before it. */
  lemma FlushRecords(s: State, t: nat, a: Action)
    requires Inv(s) && t < |s.threads| && s.threads[t] == FlushLock(false) && s.lock.None? && !s.gone
    ensures var s' := Step(s, t, a);
      && EventsOf(s'.submitted) == s.logged == s'.logged
      && s'.submitted != [] && s'.submitted[|s'.submitted| - 1] == Barrier
  {
    TakeHandsOver(s, t, true, false);
  }

  /**
   A flush covers what was logged before it: let it pass the mutex at `s`; in any later state still
   with one worker and no stop, a sink that has come as far as this flush has, up to and including
   the flush, every admitted event logged before it and no other.
   */
  lemma FlushCovers(s: State, t: nat, a: Action, moves: seq<(nat, Action)>, w: nat, j: nat)
    requires Inv(s) && t < |s.threads| && s.threads[t] == FlushLock(false) && s.lock.None? && !s.gone
    requires var s2 := Run(Step(s, t, a), moves); !s2.stopped && OneWorker(s2, w) && j < |s2.sinks|
    ensures var s2 := Run(Step(s, t, a), moves);
      var n := |Expand(s2.sinks[j].level, Step(s, t, a).submitted)|;
      && (AtRest(s2) ==> |s2.sinks[j].trace| >= n)
      && (|s2.sinks[j].trace| >= n ==>
           && n > 0 && s2.sinks[j].trace[n - 1] == Flushed
           && OutEvents(s2.sinks[j].trace[..n]) == Admitted(s2.sinks[j].level, s.logged))
  {
    var s1 := Step(s, t, a);
    var s2 := Run(s1, moves);
    StepInv(s, t, a);
    RunInv(s1, moves);
    RunRecords(s1, moves);
    FlushRecords(s, t, a);
    FlushReached(s1.submitted, s2, w, j);
    ExpandedEvents(s2.sinks[j].level, s1.submitted);
  }

  lemma PrefixesMeet<T>(a: seq<T>, b: seq<T>, whole: seq<T>)
    requires a <= whole && b <= whole
    ensures |a| <= |b| ==> b[..|a|] == a
  {
  }

  lemma EndsFlushed(level: int, front: seq<Task>)
    ensures Expand(level, front + [Barrier]) == Expand(level, front) + [Flushed]
  {
    ExpandConcat(level, front, [Barrier]);
  }

  lemma ExpandPrefix(level: int, a: seq<Task>, rest: seq<Task>)
    ensures Expand(level, a) <= Expand(level, a + rest)
  {
    ExpandConcat(level, a, rest);
  }

  lemma FlushExpands(level: int, upTo: seq<Task>, submitted: seq<Task>)
    requires upTo <= submitted && upTo != [] && upTo[|upTo| - 1] == Barrier
    ensures var out := Expand(level, upTo);
      out != [] && out[|out| - 1] == Flushed && out <= Expand(level, submitted)
  {
    var front, rest := upTo[..|upTo| - 1], submitted[|upTo|..];
    assert upTo == front + [Barrier];
    EndsFlushed(level, front);
    assert submitted == upTo + rest;
    ExpandPrefix(level, upTo, rest);
  }

  /** A sink that has as much as it is asked for up to there has just that in front. */
  lemma FlushFirst(s: State, w: nat, j: nat, out: seq<Out>)
    requires Inv(s) && !s.stopped && OneWorker(s, w) && j < |s.sinks|
    requires out <= Expand(s.sinks[j].level, s.submitted)
    ensures |s.sinks[j].trace| >= |out| ==> s.sinks[j].trace[..|out|] == out
  {
    SinkFollowsMutexOrder(s, w, j);
    PrefixesMeet(out, s.sinks[j].trace, Expand(s.sinks[j].level, s.submitted));
  }

  lemma FlushReached(upTo: seq<Task>, s: State, w: nat, j: nat)
    requires Inv(s) && !s.stopped && OneWorker(s, w) && j < |s.sinks|
    requires upTo <= s.submitted && upTo != [] && upTo[|upTo| - 1] == Barrier
    ensures var out := Expand(s.sinks[j].level, upTo);
      && out != [] && out[|out| - 1] == Flushed
      && (AtRest(s) ==> |s.sinks[j].trace| >= |out|)
      && (|s.sinks[j].trace| >= |out| ==> s.sinks[j].trace[..|out|] == out)
  {
    var level := s.sinks[j].level;
    if AtRest(s) {
      AtRestTrace(s, w, j);
    }
    FlushExpands(level, upTo, s.submitted);
    FlushFirst(s, w, j, Expand(level, upTo));
  }
}
