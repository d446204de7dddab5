/**
 Handing functors to an event loop: any number of threads queue them under the mutex and then wake
 the loop through its eventfd; the loop thread polls, handles events, swaps the queue out and runs it.

 Thread 0 is the loop thread. It queues from inside the callbacks it runs and also outside `loop()`.
 A functor is known by its number in queueing order. A poll may also return on a timeout or for
 another descriptor at any time.
 */
module EventLoop {

  /** Where the loop thread is. `Running` holds the functors of the batch that have not started. */
  datatype Phase =
    | Outside
    | TestQuit
    | Polling
    | Dispatching(toRead: bool)
    | SwapNext
    | Running(batch: seq<nat>)

  /** How far a thread is with a `queueInLoop` or `quit` of its own. */
  datatype Pc = Free | Check | Signal

  datatype State = State(
    phase: Phase,
    pcs: seq<Pc>,
    pending: seq<nat>,
    calling: bool,
    quit: bool,
    wakeups: nat,
    queued: nat,           // how many functors have been queued so far
    silent: set<nat>,      // those queued by the loop thread outside `loop()`
    swapped: bool,         // whether this `loop()` has swapped the queue out at least once
    ran: seq<nat>)

  datatype Action = Queue | Quit | Proceed(ready: bool)

  const LOOP: nat := 0

  function SetPc(s: State, t: nat, pc: Pc): State
    requires t < |s.pcs|
  {
    s.(pcs := s.pcs[t := pc])
  }

  /** Whether a thread is where it can call into the loop: the loop thread only from its own callbacks. */
  predicate MayCall(s: State, t: nat) {
    t != LOOP || s.phase.Outside? || s.phase.Dispatching? || s.phase.Running?
  }

  /** `queueInLoop` as far as the mutex. */
  function QueueStep(s: State, t: nat): State
    requires t < |s.pcs|
  {
    SetPc(s, t, Check).(
      pending := s.pending + [s.queued],
      queued := s.queued + 1,
      silent := if t == LOOP && s.phase.Outside? then s.silent + {s.queued} else s.silent)
  }

  /** `quit`: another thread also wakes the loop. */
  function QuitStep(s: State, t: nat): State
    requires t < |s.pcs|
  {
    SetPc(s, t, if t != LOOP then Signal else Free).(quit := true)
  }

  /** The loop thread between callbacks. */
  function LoopStep(s: State, ready: bool): State {
    match s.phase
    case Outside => s.(phase := TestQuit, quit := false, swapped := false)
    case TestQuit => s.(phase := if s.quit then Outside else Polling)
    case Polling => if s.wakeups > 0 || ready then s.(phase := Dispatching(s.wakeups > 0)) else s
    case Dispatching(toRead) =>
      if toRead then s.(phase := Dispatching(false), wakeups := 0)
      else s.(phase := SwapNext, calling := true)
    case SwapNext => s.(phase := Running(s.pending), pending := [], swapped := true)
    case Running(batch) =>
      if batch == [] then s.(phase := TestQuit, calling := false)
      else s.(phase := Running(batch[1..]), ran := s.ran + [batch[0]])
  }

  function Step(s: State, t: nat, a: Action): State {
    if t >= |s.pcs| then s
    else
      match s.pcs[t]
      case Check => SetPc(s, t, if t != LOOP || s.calling then Signal else Free)
      case Signal => SetPc(s, t, Free).(wakeups := s.wakeups + 1)
      case Free =>
        match a
        case Queue => if MayCall(s, t) then QueueStep(s, t) else s
        case Quit => if MayCall(s, t) then QuitStep(s, t) else s
        case Proceed(ready) => if t == LOOP then LoopStep(s, ready) else s
  }

  function Run(s: State, moves: seq<(nat, Action)>): State
    decreases |moves|
  {
    if moves == [] then s else Run(Step(s, moves[0].0, moves[0].1), moves[1..])
  }

  function Start(threads: nat): State {
    State(Outside, seq(threads + 1, t => Free), [], false, false, 0, 0, {}, false, [])
  }

  // ----- The invariant -----

  function FirstN(n: nat): seq<nat> { seq(n, i => i) }

  function Batch(s: State): seq<nat> {
    if s.phase.Running? then s.phase.batch else []
  }

  /** Every queued functor has started, is next in the batch or is pending, in the order of queueing. */
  predicate InOrder(s: State) {
    s.ran + Batch(s) + s.pending == FirstN(s.queued)
  }

  /** Some thread is about to write to the eventfd. */
  predicate SignalComing(s: State) {
    exists t: nat :: t < |s.pcs| && (s.pcs[t].Signal? || (s.pcs[t].Check? && (t != LOOP || s.calling)))
  }

  /** The queue will be swapped out before the next poll. */
  predicate SwapAhead(s: State) {
    s.phase.Dispatching? || s.phase.SwapNext?
  }

  predicate Loud(s: State) {
    exists f :: f in s.pending && f !in s.silent
  }

  predicate Handoff(s: State) {
    Loud(s) && !SwapAhead(s) ==> s.wakeups > 0 || SignalComing(s)
  }

  predicate Bookkeeping(s: State) {
    && |s.pcs| > 0
    && (s.calling <==> s.phase.SwapNext? || s.phase.Running?)
    && (forall f :: f in s.silent ==> f < s.queued)
    && (s.pcs[LOOP] != Free ==> MayCall(s, LOOP))
    && (s.phase.Running? ==> s.swapped)
  }

  /** Once this `loop()` has swapped the queue out, nothing is pending that was queued in silence. */
  predicate AllLoud(s: State) {
    s.swapped && !s.phase.Outside? ==> forall f :: f in s.pending ==> f !in s.silent
  }

  /** Whoever told the loop to quit while it polls has written to the eventfd, or is about to. */
  predicate QuitNotice(s: State) {
    s.phase.Polling? && s.quit ==> s.wakeups > 0 || SignalComing(s)
  }

  predicate Inv(s: State) {
    InOrder(s) && Handoff(s) && Bookkeeping(s) && AllLoud(s) && QuitNotice(s)
  }

  lemma StartInv(threads: nat)
    ensures Inv(Start(threads))
  {
  }

  lemma PendingKnown(s: State)
    requires InOrder(s)
    ensures forall f :: f in s.pending ==> f < s.queued
  {
    forall f | f in s.pending ensures f < s.queued {
      var i :| 0 <= i < |s.pending| && s.pending[i] == f;
      assert FirstN(s.queued)[|s.ran| + |Batch(s)| + i] == f;
    }
  }

  lemma StepInOrder(s: State, t: nat, a: Action)
    requires Inv(s)
    ensures InOrder(Step(s, t, a))
  {
    assert FirstN(s.queued + 1) == FirstN(s.queued) + [s.queued];
    assert s.ran + Batch(s) + (s.pending + [s.queued]) == s.ran + Batch(s) + s.pending + [s.queued];
    if s.phase.Running? && s.phase.batch != [] {
      assert s.ran + s.phase.batch == s.ran + [s.phase.batch[0]] + s.phase.batch[1..];
    }
    assert s.ran + [] + s.pending == s.ran + s.pending + [];
  }

  lemma NewlyLoud(s: State, t: nat, a: Action)
    requires Inv(s) && t < |s.pcs| && !(Loud(s) && !SwapAhead(s))
    ensures var s' := Step(s, t, a); Loud(s') && !SwapAhead(s') ==>
      s'.pcs[t].Check? && (t != LOOP || s'.calling)
  {
  }

  lemma StepHandoff(s: State, t: nat, a: Action)
    requires Inv(s)
    ensures Handoff(Step(s, t, a))
  {
    var s' := Step(s, t, a);
    if t < |s.pcs| && Loud(s') && !SwapAhead(s') && s'.wakeups == 0 {
      if Loud(s) && !SwapAhead(s) {
        var u: nat :| u < |s.pcs| && (s.pcs[u].Signal? || (s.pcs[u].Check? && (u != LOOP || s.calling)));
        assert s'.pcs[u].Signal? || (s'.pcs[u].Check? && (u != LOOP || s'.calling));
      } else {
        NewlyLoud(s, t, a);
      }
    }
  }

  lemma StepBookkeeping(s: State, t: nat, a: Action)
    requires Bookkeeping(s)
    ensures Bookkeeping(Step(s, t, a))
  {
  }

  lemma StepAllLoud(s: State, t: nat, a: Action)
    requires Inv(s)
    ensures AllLoud(Step(s, t, a))
  {
    PendingKnown(s);
  }

  lemma StepQuitNotice(s: State, t: nat, a: Action)
    requires Inv(s)
    ensures QuitNotice(Step(s, t, a))
  {
    var s' := Step(s, t, a);
    if t < |s.pcs| && s'.phase.Polling? && s'.quit && s'.wakeups == 0 {
      if s.phase.Polling? && s.quit {
        var u: nat :| u < |s.pcs| && (s.pcs[u].Signal? || (s.pcs[u].Check? && (u != LOOP || s.calling)));
        assert s'.pcs[u].Signal? || (s'.pcs[u].Check? && (u != LOOP || s'.calling));
      } else {
        assert s'.pcs[t].Signal?;
      }
    }
  }

  lemma StepInv(s: State, t: nat, a: Action)
    requires Inv(s)
    ensures Inv(Step(s, t, a))
  {
    StepInOrder(s, t, a);
    StepHandoff(s, t, a);
    StepBookkeeping(s, t, a);
    StepAllLoud(s, t, a);
    StepQuitNotice(s, t, a);
  }

  /** Main result: the invariant holds after any run of any threads. */
  lemma {:induction false} RunInv(s: State, moves: seq<(nat, Action)>)
    requires Inv(s)
    ensures Inv(Run(s, moves))
    decreases |moves|
  {
    if moves != [] {
      StepInv(s, moves[0].0, moves[0].1);
      RunInv(Step(s, moves[0].0, moves[0].1), moves[1..]);
    }
  }

  // ----- What it means -----

  lemma SplitFirstN(a: seq<nat>, b: seq<nat>, c: seq<nat>, n: nat)
    requires a + b + c == FirstN(n)
    ensures a == FirstN(|a|) && |a| + |b| + |c| == n
    ensures forall f :: f in b || f in c ==> f !in a
  {
    var all := FirstN(n);
    forall i | 0 <= i < |a| ensures a[i] == i {
      assert a[i] == all[i];
    }
    forall i | 0 <= i < |b| ensures b[i] == |a| + i {
      assert b[i] == all[|a| + i];
    }
    forall i | 0 <= i < |c| ensures c[i] == |a| + |b| + i {
      assert c[i] == all[|a| + |b| + i];
    }
  }

  /** Functors start in queueing order, each at most once, and none is lost on the way. */
  lemma RunOnceInOrder(s: State)
    requires Inv(s)
    ensures s.ran == FirstN(|s.ran|)
    ensures forall f :: f in Batch(s) || f in s.pending ==> f !in s.ran
    ensures |s.ran| + |Batch(s)| + |s.pending| == s.queued
  {
    SplitFirstN(s.ran, Batch(s), s.pending, s.queued);
  }

  /**
   The loop does not block in poll over a pending functor unless the eventfd is readable or some
   thread is about to write it - or the functor was queued by the loop thread itself outside
   `loop()`, and this `loop()` has not been round once.
   */
  lemma PollSeesPending(s: State, f: nat)
    requires Inv(s) && s.phase.Polling? && f in s.pending
    ensures s.wakeups > 0 || SignalComing(s) || (f in s.silent && !s.swapped)
  {
    if f !in s.silent {
      assert Loud(s);
    }
  }

  /** That exception is real: a functor queued before `loop()` waits for the poll to time out. */
  lemma SilentFunctorWaits(threads: nat)
    ensures var s := Run(Start(threads),
        [(LOOP, Queue), (LOOP, Proceed(false)), (LOOP, Proceed(false)), (LOOP, Proceed(false))]);
      s.phase.Polling? && s.pending == [0] && s.wakeups == 0 && !SignalComing(s)
  {
    var s0 := Start(threads);
    var s1 := Step(s0, LOOP, Queue);
    var s2 := Step(s1, LOOP, Proceed(false));
    var s3 := Step(s2, LOOP, Proceed(false));
    var s4 := Step(s3, LOOP, Proceed(false));
    var p := (LOOP, Proceed(false));
    assert [(LOOP, Queue), p, p, p][1..] == [p, p, p] && [p, p, p][1..] == [p, p] && [p, p][1..] == [p];
    assert Run(s3, [p]) == Run(s4, []) == s4;
    assert Run(s2, [p, p]) == s4;
    assert Run(s1, [p, p, p]) == s4;
  }

  /** Told to quit, the loop does not block in poll without a wakeup readable or on its way. */
  lemma PollSeesQuit(s: State)
    requires Inv(s) && s.phase.Polling? && s.quit
    ensures s.wakeups > 0 || SignalComing(s)
  {
  }

  /** Whether the loop thread is outside `loop()` at some point of a run. */
  predicate ComesOut(s: State, moves: seq<(nat, Action)>)
    decreases |moves|
  {
    s.phase.Outside? || (moves != [] && ComesOut(Step(s, moves[0].0, moves[0].1), moves[1..]))
  }

  /** A `quit` that finds the loop looping holds until it has come out, and the loop does not start another poll. */
  lemma {:induction false} QuitSticks(s: State, moves: seq<(nat, Action)>)
    requires s.quit && !ComesOut(s, moves)
    ensures Run(s, moves).quit
    ensures !s.phase.Polling? ==> !Run(s, moves).phase.Polling?
    decreases |moves|
  {
    if moves != [] {
      var s' := Step(s, moves[0].0, moves[0].1);
      QuitSticks(s', moves[1..]);
    }
  }

  /**
   A `quit` that finds the loop thread outside `loop()` is lost, whoever makes it: entering `loop()`
   forgets it, and the loop goes on to poll.
   */
  lemma QuitOutsideIsLost(s: State, t: nat, ready: bool)
    requires s.phase.Outside? && t < |s.pcs| && s.pcs[t].Free? && s.pcs[LOOP].Free?
    ensures var s' := Run(s, [(t, Quit), (LOOP, Proceed(ready)), (LOOP, Proceed(ready))]);
      s'.phase.Polling? && !s'.quit
  {
    var p := (LOOP, Proceed(ready));
    var s1 := Step(s, t, Quit);
    var s2 := Step(s1, LOOP, Proceed(ready));
    var s3 := Step(s2, LOOP, Proceed(ready));
    assert s1.pcs[LOOP].Free? || t != LOOP;
    assert [(t, Quit), p, p][1..] == [p, p] && [p, p][1..] == [p];
    assert Run(s2, [p]) == Run(s3, []) == s3;
    assert Run(s1, [p, p]) == s3;
  }

  // ----- The loop gets on -----

  /** Steps of one thread, one after another. */
  function Steps(s: State, t: nat, n: nat): State
    decreases n
  {
    if n == 0 then s else Steps(Step(s, t, Proceed(false)), t, n - 1)
  }

  lemma {:induction false} StepsAre(s: State, t: nat, n: nat) returns (moves: seq<(nat, Action)>)
    ensures |moves| == n && Run(s, moves) == Steps(s, t, n)
    decreases n
  {
    if n == 0 {
      moves := [];
    } else {
      var rest := StepsAre(Step(s, t, Proceed(false)), t, n - 1);
      moves := [(t, Proceed(false))] + rest;
      assert moves[1..] == rest;
    }
  }

  /** The loop thread on its own. */
  predicate LoopFree(s: State) { |s.pcs| > 0 && s.pcs[LOOP].Free? }

  /** A batch once swapped out runs to its end, every functor of it, in order, and the loop goes on. */
  lemma {:induction false} BatchRuns(s: State)
    requires LoopFree(s) && s.phase.Running?
    ensures Steps(s, LOOP, |s.phase.batch| + 1) == s.(phase := TestQuit, calling := false, ran := s.ran + s.phase.batch)
    decreases |s.phase.batch|
  {
    var batch := s.phase.batch;
    var s1 := Step(s, LOOP, Proceed(false));
    if batch == [] {
      assert s.ran + [] == s.ran;
      assert Steps(s1, LOOP, 0) == s1;
    } else {
      BatchRuns(s1);
      assert s.ran + [batch[0]] + batch[1..] == s.ran + batch;
    }
  }

  lemma StepsConcat(s: State, t: nat, m: nat, n: nat)
    ensures Steps(s, t, m + n) == Steps(Steps(s, t, m), t, n)
    decreases m
  {
    if m > 0 {
      StepsConcat(Step(s, t, Proceed(false)), t, m - 1, n);
    }
  }

  /** Woken, the loop runs everything pending, in order, and has taken note of the wakeup. */
  lemma WakeupRunsPending(s: State)
    requires LoopFree(s) && s.phase.Polling? && s.wakeups > 0
    ensures Steps(s, LOOP, |s.pending| + 5)
      == s.(phase := TestQuit, calling := false, wakeups := 0, pending := [], swapped := true, ran := s.ran + s.pending)
  {
    var s1 := s.(phase := Dispatching(true));
    var s2 := s.(phase := Dispatching(false), wakeups := 0);
    var s3 := s2.(phase := SwapNext, calling := true);
    var s4 := s3.(phase := Running(s.pending), pending := [], swapped := true);
    assert Step(s, LOOP, Proceed(false)) == s1 && Step(s1, LOOP, Proceed(false)) == s2;
    assert Step(s2, LOOP, Proceed(false)) == s3 && Step(s3, LOOP, Proceed(false)) == s4;
    assert Steps(s2, LOOP, 2) == Steps(s3, LOOP, 1) == Steps(s4, LOOP, 0) == s4;
    assert Steps(s, LOOP, 4) == Steps(s1, LOOP, 3) == Steps(s2, LOOP, 2);
    StepsConcat(s, LOOP, 4, |s.pending| + 1);
    BatchRuns(s4);
  }

  /** Whether queueing wakes the loop. */
  predicate Tells(s: State, t: nat) { t != LOOP || s.calling }

  /** A `queueInLoop`, undisturbed: the functor is last in the queue, and the loop is woken if it needs to be. */
  lemma QueueTells(s: State, t: nat)
    requires t < |s.pcs| && s.pcs[t].Free? && MayCall(s, t)
    ensures var s' := Steps(Step(s, t, Queue), t, if Tells(s, t) then 2 else 1);
      && s'.pending == s.pending + [s.queued] && s'.queued == s.queued + 1 && s'.pcs == s.pcs && s'.phase == s.phase
      && s'.ran == s.ran && s'.quit == s.quit && s'.wakeups == s.wakeups + if Tells(s, t) then 1 else 0
  {
    var s1 := Step(s, t, Queue);
    var s2 := Step(s1, t, Proceed(false));
    assert Steps(s2, t, 0) == s2;
    assert Steps(s1, t, 1) == s2;
    assert s.pcs[t := Check][t := Free] == s.pcs && s.pcs[t := Check][t := Signal][t := Free] == s.pcs;
    if Tells(s, t) {
      var s3 := Step(s2, t, Proceed(false));
      assert Steps(s3, t, 0) == s3;
      assert Steps(s1, t, 2) == Steps(s2, t, 1) == s3;
    }
  }

  /** A functor that another thread hands to a loop that polls is run by it, behind those before it. */
  lemma HandedOverIsRun(s: State, t: nat)
    requires Inv(s) && LoopFree(s) && s.phase.Polling? && 0 < t < |s.pcs| && s.pcs[t].Free?
    ensures var s' := Steps(Steps(Step(s, t, Queue), t, 2), LOOP, |s.pending| + 6);
      s'.phase.TestQuit? && s'.pending == [] && s'.ran == s.ran + s.pending + [s.queued]
  {
    QueueTells(s, t);
    WakeupRunsPending(Steps(Step(s, t, Queue), t, 2));
    assert s.ran + (s.pending + [s.queued]) == s.ran + s.pending + [s.queued];
  }

  /** So is a `quit`: the loop comes out at its next test. */
  lemma QuitComesOut(s: State, t: nat)
    requires LoopFree(s) && s.phase.Polling? && 0 < t < |s.pcs| && s.pcs[t].Free?
    ensures var s' := Steps(Steps(Step(s, t, Quit), t, 1), LOOP, |s.pending| + 6);
      s'.phase.Outside? && s'.ran == s.ran + s.pending
  {
    var s1 := Step(s, t, Quit);
    var s2 := Steps(s1, t, 1);
    assert s2 == Steps(Step(s1, t, Proceed(false)), t, 0);
    assert s.pcs[t := Signal][t := Free] == s.pcs;
    WakeupRunsPending(s2);
    StepsConcat(s2, LOOP, |s.pending| + 5, 1);
    var s3 := Steps(s2, LOOP, |s.pending| + 5);
    assert Steps(s3, LOOP, 1) == Steps(Step(s3, LOOP, Proceed(false)), LOOP, 0);
  }
}
