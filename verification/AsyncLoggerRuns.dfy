/** A run of the asynchronous logger to where its destructor waits for itself. */
module AsyncLoggerRuns {
  import opened AsyncLogger
  import opened AsyncLoggerProgress

  const URGENT: Event := Event(50, "first")
  const LATER: Event := Event(10, "second")

  /** A logger of one sink, over a pool of one worker and room for one task, and one caller. */
  function Small(): State { Start(2, 40, 1, [0], 1, 1) }

  lemma SmallIs()
    ensures Small() == State(2, 40, 1, [Sink(0, [])], [], None, [], false, false, false, [WorkerWait, Idle], {0}, [], [])
  {
    assert FirstThreads(1) == [0];
    assert Small().workers == {0};
    assert Small().threads == [WorkerWait, Idle];
  }

  /** Some moves that lead from one state to another. */
  predicate Leads(s: State, moves: seq<(nat, Action)>, s': State) { Run(s, moves) == s' }

  lemma RunConcat(s: State, a: seq<(nat, Action)>, b: seq<(nat, Action)>)
    ensures Run(s, a + b) == Run(Run(s, a), b)
    decreases |a|
  {
    if a == [] {
      assert a + b == b;
    } else {
      assert (a + b)[1..] == a[1..] + b;
      RunConcat(Step(s, a[0].0, a[0].1), a[1..], b);
    }
  }

  lemma One(s0: State, moves: seq<(nat, Action)>, s: State, t: nat, a: Action, s': State)
    returns (moves': seq<(nat, Action)>)
    requires Leads(s0, moves, s) && Step(s, t, a) == s'
    ensures Leads(s0, moves', s')
  {
    moves' := moves + [(t, a)];
    RunConcat(s0, moves, [(t, a)]);
    assert [(t, a)][1..] == [];
  }

  /** The small logger with these positions of its worker and its caller. */
  function Now(pending: seq<Event>, lock: Option<nat>, queue: seq<Task>, worker: Pc, caller: Pc, trace: seq<Out>,
      logged: seq<Event>, submitted: seq<Task>): State
  {
    State(2, 40, 1, [Sink(0, trace)], pending, lock, queue, false, false, false, [worker, caller], {0}, logged, submitted)
  }

  const FIRST: Task := Batch([URGENT], true)
  const LAST: Task := Batch([LATER], false)

  lemma LogSubmits(s2: State, s3: State)
    requires s2 == Now([], None, [], WorkerWait, LogLock(URGENT), [], [], [])
    requires s3 == Now([], Some(1), [], WorkerWait, Submitting([FIRST]), [], [URGENT], [FIRST])
    ensures Step(s2, 1, Go(false)) == s3
  {
    var s := s2.(pending := [URGENT], logged := [URGENT]);
    assert URGENT in s.pending && Urgent(s, s.pending);
    assert [] + [URGENT] == [URGENT] && [FIRST] + [] == [FIRST];
  }

  lemma FirstTaken(s3: State, s4: State)
    requires s3 == Now([], Some(1), [], WorkerWait, Submitting([FIRST]), [], [URGENT], [FIRST])
    requires s4 == Now([], None, [FIRST], WorkerWait, Idle, [], [URGENT], [FIRST])
    ensures Step(s3, 1, Go(false)) == s4
  {
    assert [FIRST][1..] == [] && [] + [FIRST] == [FIRST];
  }

  /** The caller logs an urgent event, which fills the queue. */
  lemma CallerLogs() returns (moves: seq<(nat, Action)>)
    ensures Leads(Small(), moves, Now([], None, [FIRST], WorkerWait, Idle, [], [URGENT], [FIRST]))
  {
    SmallIs();
    var s0 := Now([], None, [], WorkerWait, Idle, [], [], []);
    var s1 := Now([], None, [], WorkerWait, LogEnter(URGENT), [], [], []);
    var s2 := Now([], None, [], WorkerWait, LogLock(URGENT), [], [], []);
    var s3 := Now([], Some(1), [], WorkerWait, Submitting([FIRST]), [], [URGENT], [FIRST]);
    var s4 := Now([], None, [FIRST], WorkerWait, Idle, [], [URGENT], [FIRST]);
    moves := One(s0, [], s0, 1, CallLog(URGENT), s1);
    moves := One(s0, moves, s1, 1, Go(false), s2);
    LogSubmits(s2, s3);
    moves := One(s0, moves, s2, 1, Go(false), s3);
    FirstTaken(s3, s4);
    moves := One(s0, moves, s3, 1, Go(false), s4);
  }

  /** The worker takes the batch; the caller logs one event more, and others fill the queue. */
  lemma QueueFills(before: seq<(nat, Action)>) returns (moves: seq<(nat, Action)>)
    requires Leads(Small(), before, Now([], None, [FIRST], WorkerWait, Idle, [], [URGENT], [FIRST]))
    ensures Leads(Small(), moves,
      Now([LATER], None, [Foreign], Writing([URGENT], 0, 0, true, NextTask), Idle, [], [URGENT, LATER], [FIRST]))
  {
    var worker := Writing([URGENT], 0, 0, true, NextTask);
    var s0 := Now([], None, [FIRST], WorkerWait, Idle, [], [URGENT], [FIRST]);
    var s1 := Now([], None, [], worker, Idle, [], [URGENT], [FIRST]);
    var s2 := Now([], None, [], worker, LogEnter(LATER), [], [URGENT], [FIRST]);
    var s3 := Now([], None, [], worker, LogLock(LATER), [], [URGENT], [FIRST]);
    var s4 := Now([LATER], None, [], worker, Idle, [], [URGENT, LATER], [FIRST]);
    var s5 := Now([LATER], None, [Foreign], worker, Idle, [], [URGENT, LATER], [FIRST]);
    assert [FIRST][1..] == [];
    moves := One(Small(), before, s0, 0, Go(false), s1);
    moves := One(Small(), moves, s1, 1, CallLog(LATER), s2);
    moves := One(Small(), moves, s2, 1, Go(false), s3);
    assert [] + [LATER] == [LATER] && [URGENT] + [LATER] == [URGENT, LATER];
    moves := One(Small(), moves, s3, 1, Go(false), s4);
    moves := One(Small(), moves, s4, 1, SubmitForeign, s5);
  }

  /** The worker writes and flushes the batch. */
  lemma WorkerWrites(before: seq<(nat, Action)>) returns (moves: seq<(nat, Action)>)
    requires Leads(Small(), before,
      Now([LATER], None, [Foreign], Writing([URGENT], 0, 0, true, NextTask), Idle, [], [URGENT, LATER], [FIRST]))
    ensures Leads(Small(), moves,
      Now([LATER], None, [Foreign], WorkerWait, Idle, [Wrote(URGENT), Flushed], [URGENT, LATER], [FIRST]))
  {
    var history := [URGENT, LATER];
    var out, all := [Wrote(URGENT)], [Wrote(URGENT), Flushed];
    var s0 := Now([LATER], None, [Foreign], Writing([URGENT], 0, 0, true, NextTask), Idle, [], history, [FIRST]);
    var s1 := Now([LATER], None, [Foreign], Writing([URGENT], 0, 1, true, NextTask), Idle, out, history, [FIRST]);
    var s2 := Now([LATER], None, [Foreign], Writing([URGENT], 1, 0, true, NextTask), Idle, out, history, [FIRST]);
    var s3 := Now([LATER], None, [Foreign], Flushing(0, NextTask), Idle, out, history, [FIRST]);
    var s4 := Now([LATER], None, [Foreign], Flushing(1, NextTask), Idle, all, history, [FIRST]);
    var s5 := Now([LATER], None, [Foreign], WorkerWait, Idle, all, history, [FIRST]);
    assert [] + out == out && out + [Flushed] == all;
    moves := One(Small(), before, s0, 0, Go(false), s1);
    moves := One(Small(), moves, s1, 0, Go(false), s2);
    moves := One(Small(), moves, s2, 0, Go(false), s3);
    moves := One(Small(), moves, s3, 0, Go(false), s4);
    moves := One(Small(), moves, s4, 0, Go(false), s5);
  }

  /**
   A logger whose last reference goes with the last of its tasks is destroyed by the worker that ran it.
   If an event is pending, and others have filled the pool's queue meanwhile, the only worker waits for
   room in the queue it alone could empty.
   */
  lemma DestructorBlocksItself() returns (moves: seq<(nat, Action)>)
    ensures var s := Run(Small(), moves);
      SelfBlocked(s, 0) && s.logged == [URGENT, LATER] && s.sinks == [Sink(0, [Wrote(URGENT), Flushed])]
  {
    moves := CallerLogs();
    moves := QueueFills(moves);
    moves := WorkerWrites(moves);
    var s := Now([LATER], None, [Foreign], WorkerWait, Idle, [Wrote(URGENT), Flushed], [URGENT, LATER], [FIRST]);
    var submitted := [FIRST, LAST];
    var s' := Now([], Some(0), [Foreign], Submitting([LAST]), Idle, [Wrote(URGENT), Flushed], [URGENT, LATER], submitted)
      .(destroyed := true);
    assert [LAST] + [] == [LAST] && [FIRST] + [LAST] == submitted;
    assert LastReference(s, 0) == DestroySection(s, 0);
    moves := One(Small(), moves, s, 0, CallDestroy, s');
  }
}
