/** How a `getConnection` or a return that has begun may end, whatever other threads do in between. */
module DbPoolCalls {
  import opened DbPool
  import opened DbPoolInvariant
  import opened DbPoolLocal
  import opened DbPoolLaws
  import opened DbPoolSafety
  import Q = QueueSpec

  // ----- Why a waiter gives up -----

  /** Who leaves the wait with nothing has run out of time or has seen the pool stopped; only waiters run out of time. */
  predicate Explained(th: Thread, stopped: bool) {
    && (th.at.Leave? || th.at.CountOut? ==> th.grip.Mine? || th.timedOut || stopped)
    && (th.timedOut ==> th.at.Relock? || ((th.at.Leave? || th.at.CountOut?) && !th.grip.Mine?))
  }

  ghost predicate AllExplained(s: Pool) {
    forall t: nat :: t < |s.threads| ==> Explained(s.threads[t], s.stopped)
  }

  lemma CallTimeStays(s: Pool, t: nat, th: Thread, a: Action)
    ensures CallStep(s, t, th, a).1.timedOut == th.timedOut
  {
  }

  lemma PutTimeStays(s: Pool, th: Thread, ok: bool)
    ensures PutStep(s, th, ok).1.timedOut == th.timedOut && DiscardStep(s, th).1.timedOut == th.timedOut
  {
  }

  lemma ScanTimeStays(s: Pool, th: Thread, verdict: Verdict)
    ensures ScanStep(s, th, verdict).1.timedOut == th.timedOut && RoundStep(s, th).1.timedOut == th.timedOut
    ensures DrainStep(s, th).1.timedOut == th.timedOut && ReplenishStep(s, th).1.timedOut == th.timedOut
  {
  }

  lemma BorrowTimeStays(s: Pool, th: Thread, ok: bool)
    ensures BorrowStep(s, th).1.timedOut == th.timedOut && WaitStep(s, th).1.timedOut == th.timedOut
    ensures NoticeStep(s, th).1.timedOut == th.timedOut && CreateStep(s, th, ok).1.timedOut == th.timedOut
  {
  }

  /** Nobody but a waiter going to sleep or waking looks at the time. */
  lemma TimeStays(s: Pool, t: nat, th: Thread, a: Action)
    requires !PartOf(th.at).Sleeping?
    ensures Program(s, t, th, a).1.timedOut == th.timedOut
  {
    var ok := a.Go? && a.verdict.Good?;
    CallTimeStays(s, t, th, a);
    PutTimeStays(s, th, ok);
    ScanTimeStays(s, th, if a.Go? then a.verdict else Good);
    BorrowTimeStays(s, th, ok);
  }

  lemma SleepExplained(s: Pool, th: Thread, a: Action, e: Effect, th': Thread)
    requires Explained(th, s.stopped) && PartOf(th.at).Sleeping? && (e, th') == SleepStep(s, th, a)
    requires th.grip.Mine? ==> th.at.Leave? || th.at.CountOut?
    ensures Explained(th', s.stopped)
  {
  }

  lemma WaitExplained(s: Pool, th: Thread, e: Effect, th': Thread)
    requires Explained(th, s.stopped) && PartOf(th.at).Waiting? && (e, th') == WaitStep(s, th)
    requires th.at.UncountWait? ==> th.grip.Mine?
    ensures Explained(th', s.stopped)
  {
  }

  /** Nobody else comes to leave a wait. */
  lemma OtherExplained(s: Pool, t: nat, th: Thread, a: Action, e: Effect, th': Thread)
    requires Explained(th, s.stopped) && !PartOf(th.at).Sleeping? && !PartOf(th.at).Waiting?
    requires (e, th') == Program(s, t, th, a) && LawsFit(s, th, e, th')
    ensures Explained(th', s.stopped)
  {
    TimeStays(s, t, th, a);
    assert !Waits(th.at) && !th.timedOut;
    if Waits(th'.at) {
      OnlyWaitersCount(s, t, th, a, e, th');
    }
  }

  lemma OnlyWaitersCount(s: Pool, t: nat, th: Thread, a: Action, e: Effect, th': Thread)
    requires (e, th') == Program(s, t, th, a) && e.WaitersAdd?
    ensures th.at.CountIn?
  {
  }

  lemma StepExplained(s: Pool, t: nat, a: Action)
    requires Inv(s) && AllExplained(s) && t < |s.threads|
    ensures AllExplained(Step(s, t, a))
  {
    var th := s.threads[t];
    var (e, th') := Program(s, t, th, a);
    var s' := Step(s, t, a);
    StepTaken(s, t, a, e, th', s');
    StopStays(s, t, e, th');
    assert LocalOk(t, th) && Explained(th, s.stopped);
    if PartOf(th.at).Sleeping? {
      SleepExplained(s, th, a, e, th');
    } else if PartOf(th.at).Waiting? {
      WaitExplained(s, th, e, th');
    } else {
      OtherExplained(s, t, th, a, e, th');
    }
    OthersExplained(s, s', t, e, th');
  }

  lemma StopStays(s: Pool, t: nat, e: Effect, th': Thread)
    requires t < |s.threads| && Enabled(s, e)
    ensures s.stopped ==> MoveTo(Perform(s, t, e), t, th').stopped
  {
  }

  lemma OthersExplained(s: Pool, s': Pool, t: nat, e: Effect, th': Thread)
    requires AllExplained(s) && Woken(s, s', t, e, th') && Explained(th', s.stopped) && (s.stopped ==> s'.stopped)
    ensures AllExplained(s')
  {
    forall u: nat | u < |s'.threads| ensures Explained(s'.threads[u], s'.stopped) {
      assert Explained(s.threads[u], s.stopped);
    }
  }

  // ----- Whole runs -----

  ghost predicate Reachable(s: Pool) { Inv(s) && AllExplained(s) }

  lemma NextReachable(s: Pool, m: Move)
    requires Reachable(s)
    ensures Reachable(Next(s, m))
  {
    match m
    case ThreadStep(t, a) =>
      if t < |s.threads| {
        StepInv(s, t, a);
        StepExplained(s, t, a);
      }
    case SlotReturn(k) => GiveBackInv(s, k);
  }

  /** After any run whoever leaves the wait without a connection has run out of time or has seen the stop. */
  lemma {:induction false} RunReachable(s: Pool, moves: seq<Move>)
    requires Reachable(s)
    ensures Reachable(Run(s, moves))
    decreases |moves|
  {
    if moves != [] {
      NextReachable(s, moves[0]);
      RunReachable(Next(s, moves[0]), moves[1..]);
    }
  }

  lemma StartReachable(config: Config, cap: nat, threads: nat)
    requires 0 < threads && Max(1, config.maxPoolSize) <= cap
    ensures Reachable(Start(config, cap, threads))
  {
    StartInv(config, cap, threads);
  }

  /** Before every step of the run the thread is in the call. */
  predicate Through(s: Pool, t: nat, call: Thread -> bool, moves: seq<Move>)
    decreases |moves|
  {
    moves == [] || (t < |s.threads| && call(s.threads[t]) && Through(Next(s, moves[0]), t, call, moves[1..]))
  }

  /** The state before the last step. */
  function Before(s: Pool, moves: seq<Move>): Pool
    decreases |moves|
  {
    if |moves| <= 1 then s else Before(Next(s, moves[0]), moves[1..])
  }

  /** A call that each step goes on with or ends is, after a run of it, going on or was ended last. */
  lemma {:induction false} CallRuns(s: Pool, t: nat, moves: seq<Move>, call: Thread -> bool, ended: (Pool, Pool) -> bool)
    requires Reachable(s) && t < |s.threads| && call(s.threads[t]) && Through(s, t, call, moves)
    requires forall x: Pool, m: Move {:trigger Next(x, m)} :: Reachable(x) && t < |x.threads| && call(x.threads[t]) ==>
      t < |Next(x, m).threads| && (call(Next(x, m).threads[t]) || ended(x, Next(x, m)))
    ensures var s' := Run(s, moves);
      t < |s'.threads| && (call(s'.threads[t]) || ended(Before(s, moves), s'))
    decreases |moves|
  {
    if moves != [] {
      var s1, rest := Next(s, moves[0]), moves[1..];
      NextReachable(s, moves[0]);
      if call(s1.threads[t]) {
        CallRuns(s1, t, rest, call, ended);
      } else {
        assert rest == [];
      }
    }
  }

  // ----- getConnection -----

  predicate Getting(th: Thread) {
    match th.at
    case TakeFast | UncountFast | BorrowCheck | BorrowFlag | BorrowDone | CountIn => true
    case _ => Waits(th.at)
  }

  /** It has lent a connection it alone had, or has returned without one, out of time or over a stopped pool. */
  ghost predicate GetEnded(s: Pool, s': Pool, t: nat) {
    && t < |s.threads| == |s'.threads| && s'.threads[t].at.Idle?
    && var th := s.threads[t];
       if th.at.BorrowDone? then
         && OwnedBy(s, th.conn, Held(t)) && th.conn !in s.borrowed
         && s'.borrowed == s.borrowed + {th.conn} && OwnedBy(s', th.conn, Lent)
       else th.at.CountOut? && th.grip.Nothing? && (th.timedOut || s.stopped) && s'.borrowed == s.borrowed
  }

  lemma GettingGoesOn(s: Pool, t: nat, th: Thread, a: Action)
    requires Getting(th)
    ensures var (e, th') := Program(s, t, th, a);
      || Getting(th')
      || (th'.at.Idle? && th.at.BorrowDone? && e == Lend(th.conn))
      || (th'.at.Idle? && th.at.CountOut? && !th.grip.Mine? && e.WaitersSub?)
  {
  }

  lemma OwnGetStep(s: Pool, t: nat, a: Action)
    requires Reachable(s) && t < |s.threads| && Getting(s.threads[t])
    ensures var s' := Step(s, t, a);
      Getting(s'.threads[t]) || GetEnded(s, s', t)
  {
    var th := s.threads[t];
    var (e, th') := Program(s, t, th, a);
    var s' := Step(s, t, a);
    StepTaken(s, t, a, e, th', s');
    GettingGoesOn(s, t, th, a);
    assert LocalOk(t, th) && Explained(th, s.stopped) && ThreadHolds(s, t);
    if !Getting(th') && th.at.BorrowDone? {
      assert Holds(th, th.conn) > 0;
      assert OwnedBy(s, th.conn, Held(t));
    }
  }

  lemma GetStep(s: Pool, t: nat, m: Move)
    requires Reachable(s) && t < |s.threads| && Getting(s.threads[t])
    ensures var s' := Next(s, m);
      t < |s'.threads| && (Getting(s'.threads[t]) || GetEnded(s, s', t))
  {
    match m
    case SlotReturn(_) =>
    case ThreadStep(u, a) =>
      if u == t {
        OwnGetStep(s, t, a);
      } else if u < |s.threads| {
        var (e, th') := Program(s, u, s.threads[u], a);
        StepTaken(s, u, a, e, th', Step(s, u, a));
      }
  }

  /**
   Every `getConnection` of every run: when it is over, it has lent a connection that was this thread's
   alone, or it has returned without one because its time was up or the pool had been stopped.
   */
  lemma EveryGet(config: Config, cap: nat, threads: nat, before: seq<Move>, t: nat, during: seq<Move>)
    requires 0 < threads && Max(1, config.maxPoolSize) <= cap
    requires var s := Run(Start(config, cap, threads), before);
      t < |s.threads| && Getting(s.threads[t]) && Through(s, t, Getting, during)
    ensures var s := Run(Start(config, cap, threads), before);
      var s' := Run(s, during);
      t < |s'.threads| && (Getting(s'.threads[t]) || GetEnded(Before(s, during), s', t))
  {
    var s := Run(Start(config, cap, threads), before);
    StartReachable(config, cap, threads);
    RunReachable(Start(config, cap, threads), before);
    var ended := (x: Pool, y: Pool) => GetEnded(x, y, t);
    forall x: Pool, m: Move | Reachable(x) && t < |x.threads| && Getting(x.threads[t])
      ensures t < |Next(x, m).threads| && (Getting(Next(x, m).threads[t]) || ended(x, Next(x, m)))
    {
      GetStep(x, t, m);
    }
    CallRuns(s, t, during, Getting, ended);
  }

  // ----- Putting a connection back, or discarding it -----

  /** A connection on its way from this thread's hands into the idle queue or out of the pool. */
  predicate Returning(th: Thread, c: Conn) {
    (th.at.Return? || th.at.Spin? || th.at.Pub? || th.at.CountOff? || th.at.Erase? || th.at.Delete?) && th.conn == c
  }

  /** It is in the queue for anyone to take, or no longer live. */
  ghost predicate ReturnEnded(s: Pool, s': Pool, t: nat, c: Conn) {
    && t < |s.threads| == |s'.threads|
    && if s.threads[t].at.Pub? then Q.Entry(c, true) in s'.queue.entries && OwnedBy(s', c, Queued)
       else s.threads[t].at.Delete? && c !in s'.owner
  }

  lemma ReturningGoesOn(s: Pool, t: nat, th: Thread, a: Action, c: Conn)
    requires Returning(th, c)
    ensures var (e, th') := Program(s, t, th, a);
      || Returning(th', c)
      || (th.at.Pub? && e == Publish(c, th.ticket))
      || (th.at.Delete? && e == Destroy(c))
  {
  }

  lemma ReturnEnds(s: Pool, t: nat, c: Conn, e: Effect, th': Thread)
    requires t < |s.threads| && s.threads[t].conn == c && Publishes(s, t) && Enabled(s, e)
    requires (s.threads[t].at.Pub? && e == Publish(c, s.threads[t].ticket)) || (s.threads[t].at.Delete? && e == Destroy(c))
    ensures ReturnEnded(s, MoveTo(Perform(s, t, e), t, th'), t, c)
  {
    if s.threads[t].at.Pub? {
      assert Perform(s, t, e).queue.entries[s.threads[t].ticket - s.queue.base] == Q.Entry(c, true);
    }
  }

  lemma OwnReturnStep(s: Pool, t: nat, a: Action, c: Conn, e: Effect, th': Thread)
    requires Reachable(s) && t < |s.threads| && Returning(s.threads[t], c) && (e, th') == Program(s, t, s.threads[t], a)
    ensures var s' := Step(s, t, a);
      Returning(s'.threads[t], c) || ReturnEnded(s, s', t, c)
  {
    ReturningGoesOn(s, t, s.threads[t], a, c);
    StepIsPossible(s, t, a);
    assert Publishes(s, t);
    if !Returning(th', c) {
      ReturnEnds(s, t, c, e, th');
    }
  }

  lemma ReturnStep(s: Pool, t: nat, m: Move, c: Conn)
    requires Reachable(s) && t < |s.threads| && Returning(s.threads[t], c)
    ensures var s' := Next(s, m);
      t < |s'.threads| && (Returning(s'.threads[t], c) || ReturnEnded(s, s', t, c))
  {
    match m
    case SlotReturn(_) =>
    case ThreadStep(u, a) =>
      if u == t {
        var (e, th') := Program(s, t, s.threads[t], a);
        OwnReturnStep(s, t, a, c, e, th');
      } else if u < |s.threads| {
        var (e, th') := Program(s, u, s.threads[u], a);
        StepTaken(s, u, a, e, th', Step(s, u, a));
      }
  }

  /** Every connection given back, created or scanned, in every run, comes into the idle queue or is destroyed. */
  lemma EveryReturn(config: Config, cap: nat, threads: nat, before: seq<Move>, t: nat, c: Conn, during: seq<Move>)
    requires 0 < threads && Max(1, config.maxPoolSize) <= cap
    requires var s := Run(Start(config, cap, threads), before);
      t < |s.threads| && Returning(s.threads[t], c) && Through(s, t, th => Returning(th, c), during)
    ensures var s := Run(Start(config, cap, threads), before);
      var s' := Run(s, during);
      t < |s'.threads| && (Returning(s'.threads[t], c) || ReturnEnded(Before(s, during), s', t, c))
  {
    var s := Run(Start(config, cap, threads), before);
    StartReachable(config, cap, threads);
    RunReachable(Start(config, cap, threads), before);
    var call := th => Returning(th, c);
    var ended := (x: Pool, y: Pool) => ReturnEnded(x, y, t, c);
    forall x: Pool, m: Move | Reachable(x) && t < |x.threads| && call(x.threads[t])
      ensures t < |Next(x, m).threads| && (call(Next(x, m).threads[t]) || ended(x, Next(x, m)))
    {
      ReturnStep(x, t, m, c);
    }
    CallRuns(s, t, during, call, ended);
  }
}
