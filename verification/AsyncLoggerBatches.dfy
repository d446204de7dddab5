/** What the asynchronous logger hands on and when, and that what is urgent is flushed. */
module AsyncLoggerBatches {
  import opened AsyncLogger
  import opened AsyncLoggerSafety

  // ----- Nothing that should be handed on stays behind -----

  /** The batch left pending is neither full nor holds an event that asks to be flushed. */
  ghost predicate Batched(s: State) {
    s.batchSize >= 1 && |s.pending| < s.batchSize && !Urgent(s, s.pending)
  }

  /** A submitted batch is flushed if it asks for it, and only then unless the pool is gone. */
  ghost predicate FlushMarked(s: State) {
    forall task :: task in s.submitted && task.Batch? ==>
      && (Urgent(s, task.events) ==> task.flush)
      && (task.flush && !s.gone ==> Urgent(s, task.events))
  }

  lemma OnwardFrame(s: State, t: nat, tasks: seq<Task>)
    requires t < |s.threads|
    ensures var s' := Onward(s, t, tasks);
      && SameHistory(s, s') && s'.batchSize == s.batchSize && s'.flushLevel == s.flushLevel && s'.cap == s.cap
  {
  }

  /** What a step may do to the batch and to the record of what was submitted. */
  predicate Settings(s: State, s': State) {
    && s'.batchSize == s.batchSize && s'.flushLevel == s.flushLevel && s'.cap == s.cap
    && (s.gone ==> s'.gone) && (s.stopped ==> s'.stopped)
  }

  lemma QuietSettings(s: State, t: nat, a: Action)
    requires t < |s.threads| && Quiet(s.threads[t], a)
    ensures Settings(s, Step(s, t, a))
  {
  }

  lemma TakeBatched(s: State, t: nat, barrier: bool, finalBatch: bool)
    requires t < |s.threads| && s.batchSize >= 1 && FlushMarked(s) && (finalBatch ==> !Urgent(s, s.pending))
    ensures var s' := TakePending(s, t, barrier, finalBatch);
      Settings(s, s') && Batched(s') && FlushMarked(s')
  {
    var tasks := (if s.pending == [] then [] else [Batch(s.pending, !finalBatch && Urgent(s, s.pending))])
      + (if barrier then [Barrier] else []);
    OnwardFrame(s.(pending := [], submitted := s.submitted + tasks, lock := Some(t)), t, tasks);
  }

  lemma LogBatched(s: State, t: nat, event: Event, expired: bool)
    requires t < |s.threads| && Batched(s) && FlushMarked(s)
    ensures var s' := LogSection(s, t, event, expired);
      Settings(s, s') && Batched(s') && FlushMarked(s')
  {
    var s1 := s.(pending := s.pending + [event], logged := s.logged + [event]);
    TakeBatched(s1, t, false, false);
  }

  lemma DestroyBatched(s: State, t: nat)
    requires t < |s.threads| && Batched(s) && FlushMarked(s)
    ensures var s' := LastReference(s, t);
      Settings(s, s') && Batched(s') && FlushMarked(s')
  {
    TakeBatched(s.(destroyed := true), t, false, true);
  }

  lemma EnterBatched(s: State, t: nat, a: Action)
    requires t < |s.threads| && Batched(s) && FlushMarked(s) && s.threads[t].LogEnter?
    ensures var s' := Step(s, t, a);
      Settings(s, s') && Batched(s') && FlushMarked(s')
  {
    var event := s.threads[t].event;
    assert Urgent(s, [event]) <==> event.level >= s.flushLevel by {
      assert event in [event];
    }
  }

  lemma FlushLockBatched(s: State, t: nat, a: Action)
    requires t < |s.threads| && Batched(s) && FlushMarked(s) && s.threads[t].FlushLock?
    requires s.threads[t].poolGone ==> s.gone
    ensures var s' := Step(s, t, a);
      Settings(s, s') && Batched(s') && FlushMarked(s')
  {
    if s.lock.None? && !s.threads[t].poolGone {
      TakeBatched(s, t, true, false);
    }
  }

  lemma StepBatched(s: State, t: nat, a: Action)
    requires Batched(s) && FlushMarked(s) && t < |s.threads|
    requires s.threads[t].FlushLock? && s.threads[t].poolGone ==> s.gone
    ensures var s' := Step(s, t, a);
      Settings(s, s') && Batched(s') && FlushMarked(s')
  {
    match s.threads[t] {
      case Idle => if a.CallDestroy? { DestroyBatched(s, t); }
      case LogEnter(_) => EnterBatched(s, t, a);
      case LogLock(event) => LogBatched(s, t, event, a.Go? && a.expired);
      case FlushLock(_) => FlushLockBatched(s, t, a);
      case WorkerWait => if a.CallDestroy? { DestroyBatched(s, t); } else { QuietHistory(s, t, a); QuietSettings(s, t, a); }
      case _ => QuietHistory(s, t, a); QuietSettings(s, t, a);
    }
  }

  /**
   What `log` does under the mutex: it hands on the batch exactly if the event fills it, is urgent, or
   comes when the interval is over, to be flushed exactly if this very event asks for it.
   */
  lemma LogHandsOn(s: State, t: nat, expired: bool)
    requires Batched(s) && t < |s.threads| && s.threads[t].LogLock? && s.lock.None?
    ensures var event, s' := s.threads[t].event, Step(s, t, Go(expired));
      var urgent := event.level >= s.flushLevel;
      && s'.logged == s.logged + [event]
      && if |s.pending| + 1 == s.batchSize || urgent || expired then
           && s'.pending == [] && s'.submitted == s.submitted + [Batch(s.pending + [event], urgent)]
           && s'.lock == Some(t) && s'.threads[t] == Submitting([Batch(s.pending + [event], urgent)])
         else
           s'.pending == s.pending + [event] && s'.submitted == s.submitted && s'.lock == None && s'.threads[t].Idle?
  {
    var event := s.threads[t].event;
    var batch := s.pending + [event];
    assert event in batch;
    assert Urgent(s, batch) <==> event.level >= s.flushLevel;
    assert [Batch(batch, Urgent(s, batch))] + [] == [Batch(batch, Urgent(s, batch))];
  }

  // ----- An urgent event is flushed behind -----

  predicate TaskAsks(s: State, task: Task) {
    task.Batch? && Urgent(s, task.events) ==> task.flush
  }

  predicate TasksAsk(s: State, tasks: seq<Task>) {
    forall task :: task in tasks ==> TaskAsks(s, task)
  }

  /** Whatever a thread has in hand, what is urgent in it is to be flushed; and one that found the pool gone is right. */
  predicate ThreadAsks(s: State, pc: Pc) {
    match pc
    case Submitting(tasks) => TasksAsk(s, tasks)
    case Writing(events, _, _, flush, then_) =>
      (Urgent(s, events) ==> flush) && (then_.More? ==> TasksAsk(s, then_.tasks))
    case Flushing(_, then_) => then_.More? ==> TasksAsk(s, then_.tasks)
    case FlushLock(poolGone) => poolGone ==> s.gone
    case _ => true
  }

  ghost predicate AllAsk(s: State) {
    TasksAsk(s, s.queue) && forall t: nat :: t < |s.threads| ==> ThreadAsks(s, s.threads[t])
  }

  /** Every urgent event written to sink `j` is followed there by a flush, or some thread is yet to flush it. */
  predicate WillFlush(pc: Pc, j: nat) {
    (pc.Writing? && pc.flush) || (pc.Flushing? && pc.k <= j)
  }

  predicate UrgentAt(s: State, trace: seq<Out>, i: nat) {
    i < |trace| && trace[i].Wrote? && trace[i].event.level >= s.flushLevel
  }

  predicate FlushedAfter(trace: seq<Out>, i: nat) {
    exists k :: i < k < |trace| && trace[k].Flushed?
  }

  ghost predicate FlushDue(s: State, j: nat) {
    exists u: nat :: u < |s.threads| && WillFlush(s.threads[u], j)
  }

  ghost predicate SinkFlushed(s: State, j: nat)
    requires j < |s.sinks|
  {
    FlushDue(s, j) || forall i: nat :: UrgentAt(s, s.sinks[j].trace, i) ==> FlushedAfter(s.sinks[j].trace, i)
  }

  ghost predicate AllFlushed(s: State) {
    forall j: nat :: j < |s.sinks| ==> SinkFlushed(s, j)
  }

  /** What a step may do: its thread's own position, the queue, and the traces of the sinks. */
  predicate Asks(s: State, s': State, t: nat)
    requires t < |s.threads|
  {
    && |s'.threads| == |s.threads| && s'.threads == s.threads[t := s'.threads[t]] && s'.flushLevel == s.flushLevel
    && (s.gone ==> s'.gone)
    && ThreadAsks(s', s'.threads[t]) && TasksAsk(s', s'.queue)
  }

  lemma AsksKeeps(s: State, s': State, t: nat)
    requires AllAsk(s) && t < |s.threads| && Asks(s, s', t)
    ensures AllAsk(s')
  {
    forall u: nat | u < |s'.threads| ensures ThreadAsks(s', s'.threads[u]) {
      assert ThreadAsks(s, s.threads[u]);
      assert u != t ==> s'.threads[u] == s.threads[u];
    }
  }

  lemma OnwardAsks(s: State, t: nat, tasks: seq<Task>)
    requires t < |s.threads| && TasksAsk(s, tasks) && TasksAsk(s, s.queue)
    ensures Asks(s, Onward(s, t, tasks), t)
  {
  }

  lemma TakeAsks(s: State, t: nat, barrier: bool, finalBatch: bool)
    requires t < |s.threads| && TasksAsk(s, s.queue) && (finalBatch ==> !Urgent(s, s.pending))
    ensures Asks(s, TakePending(s, t, barrier, finalBatch), t)
  {
    var tasks := (if s.pending == [] then [] else [Batch(s.pending, !finalBatch && Urgent(s, s.pending))])
      + (if barrier then [Barrier] else []);
    OnwardAsks(s.(pending := [], submitted := s.submitted + tasks, lock := Some(t)), t, tasks);
  }

  lemma ContinueAsks(s: State, t: nat, then_: Then)
    requires t < |s.threads| && (then_.More? ==> TasksAsk(s, then_.tasks)) && TasksAsk(s, s.queue)
    ensures Asks(s, Continue(s, t, then_), t)
  {
    if then_.More? {
      OnwardAsks(s, t, then_.tasks);
    }
  }

  lemma WriteAsks(s: State, t: nat, pc: Pc)
    requires t < |s.threads| && s.threads[t] == pc && pc.Writing? && ThreadAsks(s, pc) && TasksAsk(s, s.queue)
    ensures Asks(s, WriteStep(s, t, pc), t)
  {
    ContinueAsks(s, t, pc.then_);
  }

  lemma FlushAsks(s: State, t: nat, pc: Pc)
    requires t < |s.threads| && s.threads[t] == pc && pc.Flushing? && ThreadAsks(s, pc) && TasksAsk(s, s.queue)
    ensures Asks(s, FlushStep(s, t, pc), t)
  {
    ContinueAsks(s, t, pc.then_);
  }

  lemma SubmitAsks(s: State, t: nat, tasks: seq<Task>)
    requires t < |s.threads| && tasks != [] && s.threads[t] == Submitting(tasks) && TasksAsk(s, tasks) && TasksAsk(s, s.queue)
    ensures Asks(s, SubmitStep(s, t, tasks), t)
  {
    assert tasks[0] in tasks && TasksAsk(s, tasks[1..]);
    OnwardAsks(s.(queue := s.queue + [tasks[0]]), t, tasks[1..]);
    OnwardAsks(s, t, tasks[1..]);
  }

  lemma WorkerAsks(s: State, t: nat)
    requires t < |s.threads| && s.threads[t].WorkerWait? && TasksAsk(s, s.queue)
    ensures Asks(s, WorkerStep(s, t), t)
  {
    if s.queue != [] {
      assert s.queue[0] in s.queue && TasksAsk(s, s.queue[1..]);
    }
  }

  lemma SectionAsks(s: State, t: nat, a: Action)
    requires t < |s.threads| && TasksAsk(s, s.queue) && ThreadAsks(s, s.threads[t])
    requires s.threads[t].LogLock? || s.threads[t].FlushLock?
    ensures Asks(s, Step(s, t, a), t)
  {
    if s.threads[t].LogLock? {
      var event := s.threads[t].event;
      TakeAsks(s.(pending := s.pending + [event], logged := s.logged + [event]), t, false, false);
    } else {
      TakeAsks(s, t, true, false);
    }
  }

  lemma DestroyAsks(s: State, t: nat)
    requires t < |s.threads| && TasksAsk(s, s.queue) && Batched(s) && ThreadAsks(s, s.threads[t])
    ensures Asks(s, LastReference(s, t), t)
  {
    TakeAsks(s.(destroyed := true), t, false, true);
  }

  lemma EnterAsks(s: State, t: nat, a: Action)
    requires t < |s.threads| && TasksAsk(s, s.queue) && s.threads[t].LogEnter?
    ensures Asks(s, Step(s, t, a), t)
  {
  }

  lemma StepAsks(s: State, t: nat, a: Action)
    requires AllAsk(s) && Batched(s) && t < |s.threads|
    ensures Asks(s, Step(s, t, a), t)
  {
    assert ThreadAsks(s, s.threads[t]);
    match s.threads[t] {
      case Idle => if a.CallDestroy? { DestroyAsks(s, t); }
      case LogEnter(_) => EnterAsks(s, t, a);
      case LogLock(_) => SectionAsks(s, t, a);
      case FlushLock(_) => SectionAsks(s, t, a);
      case Submitting(tasks) => if tasks != [] { SubmitAsks(s, t, tasks); }
      case Writing(_, _, _, _, _) => WriteAsks(s, t, s.threads[t]);
      case Flushing(_, _) => FlushAsks(s, t, s.threads[t]);
      case WorkerWait => if a.CallDestroy? { DestroyAsks(s, t); } else { WorkerAsks(s, t); }
      case _ =>
    }
  }

  /** Only writing and flushing touch a sink. */
  lemma SubmitSinks(s: State, t: nat, tasks: seq<Task>)
    requires t < |s.threads| && tasks != []
    ensures SubmitStep(s, t, tasks).sinks == s.sinks
  {
  }

  lemma TakeSinks(s: State, t: nat, barrier: bool, finalBatch: bool)
    requires t < |s.threads|
    ensures TakePending(s, t, barrier, finalBatch).sinks == s.sinks
  {
  }

  lemma SinksStay(s: State, t: nat, a: Action)
    requires t < |s.threads| && !s.threads[t].Writing? && !s.threads[t].Flushing?
    ensures Step(s, t, a).sinks == s.sinks
  {
    match s.threads[t] {
      case LogLock(event) =>
        TakeSinks(s.(pending := s.pending + [event], logged := s.logged + [event]), t, false, false);
      case FlushLock(_) => TakeSinks(s, t, true, false);
      case Submitting(tasks) => if tasks != [] { SubmitSinks(s, t, tasks); }
      case _ =>
    }
  }

  /** Who is to flush a sink goes on to do so. */
  lemma WillFlushOn(s: State, t: nat, a: Action, j: nat)
    requires t < |s.threads| && j < |s.sinks| && WillFlush(s.threads[t], j)
    ensures WillFlush(Step(s, t, a).threads[t], j)
      || (|Step(s, t, a).sinks| == |s.sinks| && Step(s, t, a).sinks[j].trace == s.sinks[j].trace + [Flushed])
  {
  }

  /** What one step appends to a trace: an urgent event only by a thread that is yet to flush. */
  predicate Adds(s: State, s': State, t: nat, j: nat)
    requires t < |s.threads| && j < |s.sinks|
  {
    && |s'.sinks| == |s.sinks| && |s'.threads| == |s.threads| && s.sinks[j].trace <= s'.sinks[j].trace
    && var more := s'.sinks[j].trace[|s.sinks[j].trace|..];
       more == [] || more == [Flushed]
       || (|more| == 1 && more[0].Wrote? && (more[0].event.level >= s.flushLevel ==> WillFlush(s'.threads[t], j)))
  }

  lemma WriteAdds(s: State, t: nat, pc: Pc, j: nat)
    requires t < |s.threads| && j < |s.sinks| && pc == s.threads[t] && pc.Writing? && ThreadAsks(s, pc)
    ensures Adds(s, WriteStep(s, t, pc), t, j)
  {
    if pc.i < |pc.events| && pc.k < |s.sinks| {
      assert pc.events[pc.i] in pc.events;
    }
  }

  lemma FlushAdds(s: State, t: nat, pc: Pc, j: nat)
    requires t < |s.threads| && j < |s.sinks| && pc == s.threads[t] && pc.Flushing?
    ensures Adds(s, FlushStep(s, t, pc), t, j)
  {
  }

  lemma StepAdds(s: State, t: nat, a: Action, j: nat)
    requires t < |s.threads| && j < |s.sinks| && ThreadAsks(s, s.threads[t]) && |Step(s, t, a).threads| == |s.threads|
    ensures Adds(s, Step(s, t, a), t, j)
  {
    if s.threads[t].Writing? {
      WriteAdds(s, t, s.threads[t], j);
    } else if s.threads[t].Flushing? {
      FlushAdds(s, t, s.threads[t], j);
    } else {
      SinksStay(s, t, a);
    }
  }

  lemma TraceExtended(s: State, trace: seq<Out>, trace': seq<Out>, last: Out)
    requires trace' == trace + [last] && (last.Wrote? ==> last.event.level < s.flushLevel)
    requires last.Flushed? || forall i: nat :: UrgentAt(s, trace, i) ==> FlushedAfter(trace, i)
    ensures forall i: nat :: UrgentAt(s, trace', i) ==> FlushedAfter(trace', i)
  {
    forall i: nat | UrgentAt(s, trace', i) ensures FlushedAfter(trace', i) {
      if last.Flushed? {
        assert trace'[|trace|].Flushed?;
      } else {
        assert UrgentAt(s, trace, i);
        var k :| i < k < |trace| && trace[k].Flushed?;
        assert trace'[k].Flushed?;
      }
    }
  }

  lemma DueOn(s: State, t: nat, a: Action, j: nat)
    requires t < |s.threads| && j < |s.sinks| && FlushDue(s, j) && Asks(s, Step(s, t, a), t)
    ensures var s' := Step(s, t, a);
      FlushDue(s', j) || (|s'.sinks| == |s.sinks| && s'.sinks[j].trace == s.sinks[j].trace + [Flushed])
  {
    var u: nat :| u < |s.threads| && WillFlush(s.threads[u], j);
    var s' := Step(s, t, a);
    if u == t {
      WillFlushOn(s, t, a, j);
      assert WillFlush(s'.threads[t], j) ==> FlushDue(s', j);
    } else {
      assert s'.threads[u] == s.threads[u];
    }
  }

  lemma FlushedOn(s: State, s': State, t: nat, j: nat)
    requires t < |s.threads| && j < |s.sinks| && SinkFlushed(s, j) && Adds(s, s', t, j) && s'.flushLevel == s.flushLevel
    requires FlushDue(s, j) ==> FlushDue(s', j) || s'.sinks[j].trace == s.sinks[j].trace + [Flushed]
    ensures SinkFlushed(s', j)
  {
    var trace, trace' := s.sinks[j].trace, s'.sinks[j].trace;
    if !FlushDue(s', j) && trace' != trace {
      assert !WillFlush(s'.threads[t], j);
      var last := trace'[|trace|..][0];
      assert trace' == trace + [last];
      TraceExtended(s', trace, trace', last);
    }
  }

  lemma StepSinkFlushed(s: State, t: nat, a: Action, j: nat)
    requires AllAsk(s) && t < |s.threads| && j < |s.sinks| && SinkFlushed(s, j)
    requires Asks(s, Step(s, t, a), t)
    ensures var s' := Step(s, t, a); |s'.sinks| == |s.sinks| && SinkFlushed(s', j)
  {
    assert ThreadAsks(s, s.threads[t]);
    StepAdds(s, t, a, j);
    if FlushDue(s, j) {
      DueOn(s, t, a, j);
    }
    FlushedOn(s, Step(s, t, a), t, j);
  }

  // ----- Whole runs -----

  ghost predicate Kept(s: State) {
    Inv(s) && Batched(s) && FlushMarked(s) && AllAsk(s) && AllFlushed(s)
  }

  lemma StepKept(s: State, t: nat, a: Action)
    requires Kept(s)
    ensures Kept(Step(s, t, a)) && Settings(s, Step(s, t, a))
  {
    StepInv(s, t, a);
    if t < |s.threads| {
      var s' := Step(s, t, a);
      assert ThreadAsks(s, s.threads[t]);
      StepBatched(s, t, a);
      StepAsks(s, t, a);
      AsksKeeps(s, s', t);
      StepMoves(s, t, a);
      forall j: nat | j < |s'.sinks| ensures SinkFlushed(s', j) {
        StepSinkFlushed(s, t, a, j);
      }
    }
  }

  /** Main result: these laws hold after any run too. */
  lemma {:induction false} RunKept(s: State, moves: seq<(nat, Action)>)
    requires Kept(s)
    ensures Kept(Run(s, moves)) && Settings(s, Run(s, moves))
    decreases |moves|
  {
    if moves != [] {
      StepKept(s, moves[0].0, moves[0].1);
      RunKept(Step(s, moves[0].0, moves[0].1), moves[1..]);
    }
  }

  lemma StartKept(batchSize: nat, flushLevel: int, cap: nat, levels: seq<int>, workers: nat, callers: nat)
    ensures Kept(Start(batchSize, flushLevel, cap, levels, workers, callers))
  {
    StartInv(batchSize, flushLevel, cap, levels, workers, callers);
  }

  /**
   At rest, pending or not: every event at or above the flush level is in each sink that admits it as
   often as it was logged, with a flush behind every copy, and of all events fewer than a batch are
   still missing.
   */
  lemma UrgentIsFlushed(s: State, j: nat, e: Event)
    requires Kept(s) && AtRest(s) && j < |s.sinks| && e.level >= s.flushLevel && Admits(s, j, e)
    ensures multiset(s.sinks[j].trace)[Wrote(e)] == multiset(s.logged)[e]
    ensures forall i: nat :: i < |s.sinks[j].trace| && s.sinks[j].trace[i] == Wrote(e) ==> FlushedAfter(s.sinks[j].trace, i)
    ensures |s.pending| < s.batchSize
  {
    NoneInIdle(s.threads, j, e);
    NoneInForeign(s.queue, e);
    assert Conserved(s, j, e);
    assert e !in s.pending;
    assert SinkFlushed(s, j);
    forall i: nat | i < |s.sinks[j].trace| && s.sinks[j].trace[i] == Wrote(e)
      ensures FlushedAfter(s.sinks[j].trace, i)
    {
      assert UrgentAt(s, s.sinks[j].trace, i);
    }
  }
}
