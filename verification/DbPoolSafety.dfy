/** The whole invariant, kept by every step, and what it means for callers of the pool. */
module DbPoolSafety {
  import opened DbPool
  import opened DbPoolInvariant
  import opened DbPoolLocal
  import opened DbPoolOwnership
  import opened DbPoolLaws
  import Q = QueueSpec

  // ----- Every reachable state -----

  lemma StartOwnership(config: Config, cap: nat, threads: nat)
    requires 0 < threads
    ensures Ownership(Start(config, cap, threads))
  {
    var s := Start(config, cap, threads);
    var ids := FirstConns(s.minIdle);
    assert ValuesOf(s.queue.entries) == ids;
    forall c: Conn | c in s.owner ensures OwnerKnown(s, c) {
      assert c in ids;
    }
  }

  lemma StartBooks(config: Config, cap: nat, threads: nat)
    requires 0 < threads
    ensures Counts(Start(config, cap, threads)) && Registry(Start(config, cap, threads))
  {
    CountIds(Start(config, cap, threads).minIdle);
  }

  lemma StartLaws(config: Config, cap: nat, threads: nat)
    ensures var s := Start(config, cap, threads);
      IdleLaw(s) && WaiterLaw(s) && Mutex(s) && Wakeups(s) && StopNotice(s)
  {
  }

  lemma StartInv(config: Config, cap: nat, threads: nat)
    requires 0 < threads && Max(1, config.maxPoolSize) <= cap
    ensures Inv(Start(config, cap, threads))
  {
    StartOwnership(config, cap, threads);
    StartBooks(config, cap, threads);
    StartLaws(config, cap, threads);
  }

  lemma {:induction false} CountIds(n: nat)
    ensures |ConnSet(n)| == n
  {
    if n > 0 {
      CountIds(n - 1);
      var ids, fewer := FirstConns(n), FirstConns(n - 1);
      assert ids == fewer + [n - 1];
      assert ConnSet(n) == ConnSet(n - 1) + {n - 1};
    }
  }

  /** The access a thread is about to make is always possible: `Enabled` never stops a step. */
  lemma StepIsPossible(s: Pool, t: nat, a: Action)
    requires Inv(s) && t < |s.threads|
    ensures var (e, th') := Program(s, t, s.threads[t], a);
      Enabled(s, e) && Step(s, t, a) == After(s, t, e, th')
  {
    var (e, th') := Program(s, t, s.threads[t], a);
    assert LocalOk(t, s.threads[t]) && Publishes(s, t);
    assert Totals(s);
    ProgramFits(s, t, s.threads[t], a, e, th');
  }

  /** The step as the access and the move it consists of, and all that the thread itself guarantees of it. */
  lemma StepTaken(s: Pool, t: nat, a: Action, e: Effect, th': Thread, s': Pool)
    requires Inv(s) && t < |s.threads| && (e, th') == Program(s, t, s.threads[t], a) && s' == Step(s, t, a)
    ensures StepFits(s, t, s.threads[t], e, th') && Woken(s, s', t, e, th')
    ensures Enabled(s, e) && s' == After(s, t, e, th')
  {
    StepIsPossible(s, t, a);
    assert LocalOk(t, s.threads[t]) && Publishes(s, t) && Totals(s);
    ProgramFits(s, t, s.threads[t], a, e, th');
    Others(s, t, e, th');
  }

  lemma StepKeepsOwners(s: Pool, t: nat, a: Action, e: Effect, th': Thread, s': Pool)
    requires Inv(s) && t < |s.threads| && StepFits(s, t, s.threads[t], e, th')
    requires s' == After(s, t, e, th') && Woken(s, s', t, e, th')
    ensures Locals(s') && Ownership(s') && Counts(s') && Registry(s')
  {
    StepNamesOwn(s, t, e, th');
    TotalsMove(s, t, e, th');
    BooksMove(s, t, e, th');
    StepLocals(s, s', t, e, th');
    StepOwnership(s, t, e, th');
    StepCounts(s, s', t, e, th');
  }

  lemma PerformKeepsSizes(s: Pool, t: nat, e: Effect, th': Thread)
    requires t < |s.threads| && Enabled(s, e)
    ensures var s' := After(s, t, e, th');
      s'.maxSize == s.maxSize && s'.minIdle == s.minIdle && s'.queue.cap == s.queue.cap
  {
  }

  lemma StepKeepsLaws(s: Pool, t: nat, a: Action, e: Effect, th': Thread, s': Pool)
    requires Inv(s) && t < |s.threads| && StepFits(s, t, s.threads[t], e, th')
    requires s' == After(s, t, e, th') && Woken(s, s', t, e, th')
    ensures IdleLaw(s') && WaiterLaw(s') && Mutex(s') && Wakeups(s') && StopNotice(s') && s'.maxSize <= s'.queue.cap
  {
    PerformKeepsSizes(s, t, e, th');
    CountersMove(s, t, e, th');
    FlagsMove(s, t, e, th');
    StepIdleLaw(s, s', t, e, th');
    StepWaiterLaw(s, s', t, e, th');
    StepMutex(s, s', t, e, th');
    StepWakeups(s, s', t, e, th');
    StepStopNotice(s, s', t, e, th');
  }

  lemma StepInv(s: Pool, t: nat, a: Action)
    requires Inv(s) && t < |s.threads|
    ensures Inv(Step(s, t, a))
  {
    var (e, th') := Program(s, t, s.threads[t], a);
    var s' := Step(s, t, a);
    StepTaken(s, t, a, e, th', s');
    StepKeepsOwners(s, t, a, e, th', s');
    StepKeepsLaws(s, t, a, e, th', s');
  }

  lemma GiveBackOwnership(s: Pool, ticket: nat)
    requires Ownership(s)
    ensures Ownership(GiveBack(s, ticket))
  {
    var s' := GiveBack(s, ticket);
    assert forall t: nat :: t < |s.threads| ==> ThreadHolds(s', t) == ThreadHolds(s, t) && Publishes(s', t) == Publishes(s, t);
    assert forall i: nat :: i < |s.queue.entries| ==> EntryOwned(s', i) == EntryOwned(s, i);
    assert forall c: Conn :: c in s.owner ==> OwnerKnown(s', c) == OwnerKnown(s, c);
  }

  lemma GiveBackInv(s: Pool, ticket: nat)
    requires Inv(s)
    ensures Inv(GiveBack(s, ticket))
  {
    GiveBackOwnership(s, ticket);
    assert forall c: Conn :: CountedOk(GiveBack(s, ticket), c) == CountedOk(s, c);
    assert forall c: Conn :: ListedOk(GiveBack(s, ticket), c) == ListedOk(s, c);
  }

  /** Main result: after any run of any threads, the whole invariant holds. */
  lemma {:induction false} RunInv(s: Pool, moves: seq<Move>)
    requires Inv(s)
    ensures Inv(Run(s, moves))
    decreases |moves|
  {
    if moves != [] {
      match moves[0]
      case ThreadStep(t, a) =>
        if t < |s.threads| {
          StepInv(s, t, a);
        }
        RunInv(Next(s, moves[0]), moves[1..]);
      case SlotReturn(k) =>
        GiveBackInv(s, k);
        RunInv(Next(s, moves[0]), moves[1..]);
    }
  }

  // ----- What it means -----

  predicate InIdleQueue(s: Pool, c: Conn) {
    c in ValuesOf(s.queue.entries)
  }

  predicate HeldBy(s: Pool, t: nat, c: Conn) {
    t < |s.threads| && Holds(s.threads[t], c) > 0
  }

  /**
   Exactly one owner: a live connection is in the idle queue, or lent, or in the hands of exactly
   one thread, never two of these and never twice; anything else is not a live connection.
   */
  lemma OneOwner(s: Pool, c: Conn)
    requires Inv(s)
    ensures c in s.owner <==> InIdleQueue(s, c) || c in s.borrowed || exists t: nat :: HeldBy(s, t, c)
    ensures !(InIdleQueue(s, c) && c in s.borrowed)
    ensures forall t: nat :: HeldBy(s, t, c) ==>
      !InIdleQueue(s, c) && c !in s.borrowed && Holds(s.threads[t], c) == 1
    ensures forall t: nat, u: nat :: HeldBy(s, t, c) && HeldBy(s, u, c) ==> t == u
    ensures forall i, j :: 0 <= i < j < |s.queue.entries| ==> s.queue.entries[i].value != s.queue.entries[j].value
  {
    var xs := ValuesOf(s.queue.entries);
    if InIdleQueue(s, c) {
      var i: nat :| i < |xs| && xs[i] == c;
      assert EntryOwned(s, i);
    }
    if c in s.owner {
      assert OwnerKnown(s, c);
      if s.owner[c].Held? {
        assert ThreadHolds(s, s.owner[c].thread);
        assert HeldBy(s, s.owner[c].thread, c);
      }
    }
    assert forall t: nat :: HeldBy(s, t, c) ==> ThreadHolds(s, t) && OwnedBy(s, c, Held(t));
    forall i, j | 0 <= i < j < |s.queue.entries| ensures s.queue.entries[i].value != s.queue.entries[j].value {
      assert xs[i] != xs[j];
    }
  }

  lemma {:induction false} DistinctFit(xs: seq<Conn>, pool: set<Conn>)
    requires Distinct(xs) && forall c :: c in xs ==> c in pool
    ensures |xs| <= |pool|
    decreases |xs|
  {
    if xs != [] {
      var rest := xs[1..];
      forall c | c in rest ensures c in pool - {xs[0]} {
        var i :| 0 <= i < |rest| && rest[i] == c;
        assert c == xs[i + 1] && xs[0] != xs[i + 1];
      }
      assert forall i, j :: 0 <= i < j < |rest| ==> rest[i] != rest[j];
      DistinctFit(rest, pool - {xs[0]});
    }
  }

  /** The limit holds at all times, whatever the races between reading and adding. */
  lemma WithinLimit(s: Pool)
    requires Inv(s)
    ensures |s.queue.entries| <= s.total <= s.maxSize <= s.queue.cap
  {
    var xs := ValuesOf(s.queue.entries);
    forall c | c in xs ensures c in s.counted {
      var i: nat :| i < |xs| && xs[i] == c;
      assert EntryOwned(s, i) && CountedOk(s, c);
    }
    DistinctFit(xs, s.counted);
  }

  /** The idle queue is never genuinely full for a thread spinning to put a connection back. */
  lemma SpinIsTransient(s: Pool, t: nat)
    requires Inv(s) && t < |s.threads| && s.threads[t].at.Spin?
    ensures |s.queue.entries| < s.queue.cap
  {
    var xs := ValuesOf(s.queue.entries);
    var c0 := s.threads[t].conn;
    assert LocalOk(t, s.threads[t]) && ThreadHolds(s, t) && Holds(s.threads[t], c0) >= 1;
    assert OwnedBy(s, c0, Held(t)) && CountedOk(s, c0);
    forall c | c in xs ensures c in s.counted - {c0} {
      var i: nat :| i < |xs| && xs[i] == c;
      assert EntryOwned(s, i) && CountedOk(s, c);
    }
    DistinctFit(xs, s.counted - {c0});
  }

  /**
   No lost wakeup: while a waiter whose locked re-check failed has not been woken and the head of
   the idle queue can be taken, some thread still has its look at the waiter count or its
   notification ahead of it.
   */
  lemma NoLostWakeup(s: Pool, w: nat)
    requires Inv(s) && w < |s.threads| && Committed(s.threads[w].at) && Q.HeadPublished(s.queue)
    ensures exists u: nat :: u < |s.threads| && WillNotify(s.threads[u])
  {
    assert SomeoneCommitted(s);
  }

  /** And that look does not miss the waiter: it leads to the notification. */
  lemma LookSeesWaiter(s: Pool, w: nat, u: nat)
    requires Inv(s) && w < |s.threads| && Committed(s.threads[w].at)
    requires u < |s.threads| && s.threads[u].at.SeeWaiters?
    ensures NoticeStep(s, s.threads[u]) == (Nop, s.threads[u].(at := LockNotify))
  {
    assert w in s.waiting && s.waiters > 0;
  }

  lemma UnpublishedHasPublisher(s: Pool, i: nat)
    requires Ownership(s) && i < |s.queue.entries| && !s.queue.entries[i].published
    ensures exists t: nat :: t < |s.threads| && s.threads[t].at.Pub?
  {
    assert EntryOwned(s, i) && OwnerKnown(s, s.queue.entries[i].value);
  }

  /** So when no thread is putting a connection back, a sleeping waiter means an empty idle queue. */
  lemma SleepersMeanEmpty(s: Pool, w: nat)
    requires Inv(s) && w < |s.threads| && s.threads[w].at.Asleep?
    requires forall u: nat :: u < |s.threads| ==> !WillNotify(s.threads[u]) && !s.threads[u].at.Pub?
    ensures s.queue.entries == []
  {
    assert SomeoneCommitted(s);
    if s.queue.entries != [] && !s.queue.entries[0].published {
      UnpublishedHasPublisher(s, 0);
    }
  }

  /** After `shutdown` has set the stop flag, nobody sleeps on without its notification still to come. */
  lemma StopReachesSleepers(s: Pool, w: nat)
    requires Inv(s) && s.stopped && w < |s.threads| && s.threads[w].at.Asleep?
    ensures exists u: nat :: u < |s.threads| && WillNotifyStop(s.threads[u])
  {
  }

  /** The idle counter is exact whenever no thread is between moving a connection and counting it. */
  lemma IdleCountAtRest(s: Pool)
    requires Inv(s)
    ensures s.idle >= -|s.adders|
    ensures (forall t: nat :: t < |s.threads| ==> !TakerAt(s.threads[t].at) && !AdderAt(s.threads[t].at)) ==>
      s.idle == |s.queue.entries|
  {
    if forall t: nat :: t < |s.threads| ==> !TakerAt(s.threads[t].at) && !AdderAt(s.threads[t].at) {
      assert s.takers == {} && s.adders == {};
    }
  }

  /**
   In between it is off by the threads that have moved a connection and not yet counted it, so that it
   is negative exactly when more have put one back uncounted than the queue and the takers account for.
   */
  lemma IdleCountNegativeExactly(s: Pool)
    requires Inv(s)
    ensures s.takers == (set t: nat | t < |s.threads| && TakerAt(s.threads[t].at))
    ensures s.adders == (set t: nat | t < |s.threads| && AdderAt(s.threads[t].at))
    ensures s.idle < 0 <==> |s.adders| > |s.queue.entries| + |s.takers|
  {
    assert IdleLaw(s);
  }

  /**
   The registry, from which `shutdown` deletes, is the live connections: one that is missing from it is
   in the hands of a thread about to enlist it or, having struck it off, about to destroy it.
   */
  lemma RegistryIsLive(s: Pool)
    requires Inv(s)
    ensures s.registry <= s.owner.Keys
    ensures forall c: Conn :: c in s.owner && c !in s.registry ==>
      exists t: nat :: t < |s.threads| && Unlists(s.threads[t], c) && OwnedBy(s, c, Held(t))
    ensures (forall t: nat :: t < |s.threads| ==> !UnlistedAt(s.threads[t].at)) ==> s.registry == s.owner.Keys
  {
    forall c: Conn | c in s.registry ensures c in s.owner {
      assert ListedOk(s, c);
    }
    forall c: Conn | c in s.owner && c !in s.registry
      ensures exists t: nat :: t < |s.threads| && Unlists(s.threads[t], c) && OwnedBy(s, c, Held(t))
    {
      assert ListedOk(s, c);
    }
    if forall t: nat :: t < |s.threads| ==> !UnlistedAt(s.threads[t].at) {
      forall c: Conn | c in s.owner ensures c in s.registry {
        assert ListedOk(s, c);
      }
    }
  }

  /** No connection is deleted twice: `discard` finds what it strikes off, and deletes what is live and struck off. */
  lemma DiscardFindsIt(s: Pool, t: nat)
    requires Inv(s) && t < |s.threads|
    ensures s.threads[t].at.Erase? ==> s.threads[t].conn in s.registry
    ensures s.threads[t].at.Delete? ==> s.threads[t].conn in s.owner && s.threads[t].conn !in s.registry
  {
    var c := s.threads[t].conn;
    assert LocalOk(t, s.threads[t]) && ThreadHolds(s, t) && ListedOk(s, c);
    assert HasConn(s.threads[t].at) ==> Holds(s.threads[t], c) >= 1;
  }

  // ----- The idle queue as the lock-free queue provides it -----

  /** What an access is to the idle queue, and what a failed attempt is. */
  function EventOf(s: Pool, th: Thread, e: Effect): Q.Event<Conn>
    requires Enabled(s, e)
  {
    match e
    case Take => Q.Event.Take(s.queue.entries[0].value)
    case Claim(c) => Q.Event.Claim(c)
    case Publish(_, k) => Q.Event.Publish(k)
    case _ =>
      if (th.at.TakeFast? || th.at.Recheck? || th.at.MDrain?) && !Q.HeadPublished(s.queue) then Q.ReportEmpty
      else if th.at.Spin? && (|s.queue.entries| == s.queue.cap || s.queue.held != {}) then Q.ReportFull
      else Q.Stutter
  }

  /** Every access of the pool to its idle queue is an event the lock-free queue is proved to allow. */
  lemma StepIsQueueEvent(s: Pool, t: nat, a: Action, e: Effect, th': Thread)
    requires Inv(s) && t < |s.threads| && (e, th') == Program(s, t, s.threads[t], a)
    ensures Enabled(s, e) && Q.Happens(s.queue, EventOf(s, s.threads[t], e), Step(s, t, a).queue)
  {
    var s' := Step(s, t, a);
    StepTaken(s, t, a, e, th', s');
    NotYetPublished(s, t, e, th');
    QueueMoves(s, t, e, th');
  }

  lemma NotYetPublished(s: Pool, t: nat, e: Effect, th': Thread)
    requires Ownership(s) && t < |s.threads| && OwnershipFits(s, s.threads[t], e, th')
    ensures e.Publish? ==> !s.queue.entries[e.ticket - s.queue.base].published
  {
    assert Publishes(s, t);
  }

  lemma QueueMoves(s: Pool, t: nat, e: Effect, th': Thread)
    requires t < |s.threads| && Enabled(s, e)
    requires e.Publish? ==> !s.queue.entries[e.ticket - s.queue.base].published
    ensures Q.Happens(s.queue, EventOf(s, s.threads[t], e), After(s, t, e, th').queue)
  {
  }

  lemma ReturnIsQueueEvent(s: Pool, ticket: nat)
    ensures Q.Happens(s.queue, if ticket in s.queue.held then Q.GiveBack(ticket) else Q.Stutter, GiveBack(s, ticket).queue)
  {
    assert ticket !in s.queue.held ==> s.queue.held - {ticket} == s.queue.held;
  }
}
