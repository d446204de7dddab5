/**
 Calls of the pool that nobody disturbs: what each leads to, from any state, with its thread's accesses
 one after another.
 */
module DbPoolAlone {
  import opened DbPool
  import opened DbPoolInvariant
  import Q = QueueSpec

  // ----- One thread on its own -----

  const GO := Go(Good)

  /** The actions of one thread, one after another. */
  function Does(t: nat, actions: seq<Action>): (moves: seq<Move>)
    ensures |moves| == |actions|
  {
    seq(|actions|, i requires 0 <= i < |actions| => ThreadStep(t, actions[i]))
  }

  lemma {:induction false} RunOn(s: Pool, first: seq<Move>, second: seq<Move>)
    ensures Run(s, first + second) == Run(Run(s, first), second)
    decreases |first|
  {
    if first == [] {
      assert first + second == second;
    } else {
      RunOn(Next(s, first[0]), first[1..], second);
      assert (first + second)[1..] == first[1..] + second;
    }
  }

  lemma DoesOne(s: Pool, t: nat, a: Action, rest: seq<Action>)
    ensures Run(s, Does(t, [a] + rest)) == Run(Step(s, t, a), Does(t, rest))
  {
    assert Does(t, [a] + rest)[1..] == Does(t, rest);
  }

  /** A step of thread `t`, kept apart from the others: the pool, whose entry for `t` is not looked at, and the thread. */
  function Advance(s: Pool, t: nat, th: Thread, a: Action): (Pool, Thread) {
    var (e, th') := Program(s, t, th, a);
    if Enabled(s, e) then (Perform(s, t, e), th') else (s, th)
  }

  lemma WakeOthers(threads: seq<Thread>, t: nat, a: Thread, b: Thread)
    requires t < |threads|
    ensures WakeAll(threads[t := a])[t := b] == WakeAll(threads)[t := b]
  {
  }

  lemma ProgramApart(s: Pool, t: nat, th: Thread, a: Action)
    requires t < |s.threads|
    ensures Program(MoveTo(s, t, th), t, th, a) == Program(s, t, th, a)
  {
  }

  lemma PerformApart(s: Pool, t: nat, th: Thread, e: Effect, th': Thread)
    requires t < |s.threads| && Enabled(s, e)
    ensures |Perform(s, t, e).threads| == |s.threads| && Enabled(MoveTo(s, t, th), e)
    ensures MoveTo(Perform(MoveTo(s, t, th), t, e), t, th') == MoveTo(Perform(s, t, e), t, th')
  {
    WakeOthers(s.threads, t, th, th');
    assert s.threads[t := th][t := th'] == s.threads[t := th'];
  }

  lemma AdvanceIsStep(s: Pool, t: nat, th: Thread, a: Action)
    requires t < |s.threads|
    ensures var (s', th') := Advance(s, t, th, a);
      |s'.threads| == |s.threads| && Step(MoveTo(s, t, th), t, a) == MoveTo(s', t, th')
  {
    var (e, th') := Program(s, t, th, a);
    ProgramApart(s, t, th, a);
    if Enabled(s, e) {
      PerformApart(s, t, th, e, th');
    }
  }

  lemma RunLast(s: Pool, t: nat, before: seq<Action>, last: Action)
    ensures Run(s, Does(t, before + [last])) == Step(Run(s, Does(t, before)), t, last)
  {
    RunOn(s, Does(t, before), Does(t, [last]));
    assert Does(t, before + [last]) == Does(t, before) + Does(t, [last]);
    assert [last] + [] == [last];
    DoesOne(Run(s, Does(t, before)), t, last, []);
  }

  /** Some accesses of thread `t`, undisturbed, lead from one state to another. */
  predicate Leads(s: Pool, t: nat, th: Thread, actions: seq<Action>, s': Pool, th': Thread) {
    t < |s.threads| == |s'.threads| && Run(MoveTo(s, t, th), Does(t, actions)) == MoveTo(s', t, th')
  }

  lemma LeadsNowhere(s: Pool, t: nat, th: Thread)
    requires t < |s.threads|
    ensures Leads(s, t, th, [], s, th)
  {
  }

  /** One access more, and where it leads. */
  lemma On(s: Pool, t: nat, th: Thread, actions: seq<Action>, s1: Pool, th1: Thread, a: Action, e: Effect, th2: Thread)
    returns (actions': seq<Action>, s2: Pool)
    requires Leads(s, t, th, actions, s1, th1) && Program(s1, t, th1, a) == (e, th2) && Enabled(s1, e)
    ensures s2 == Perform(s1, t, e) && Leads(s, t, th, actions', s2, th2) && actions' == actions + [a]
  {
    s2, actions' := Perform(s1, t, e), actions + [a];
    AdvanceIsStep(s1, t, th1, a);
    RunLast(MoveTo(s, t, th), t, actions, a);
  }

  // ----- getConnection -----

  function Beheaded(q: Q.Queue<Conn>): Q.Queue<Conn>
    requires q.entries != []
  {
    q.(base := q.base + 1, entries := q.entries[1..], held := q.held + {q.base})
  }

  /** The connection is lent, and too few left idle are noticed. */
  predicate Lent(s: Pool, th: Thread, s': Pool, th': Thread) {
    && th' == th.(at := Idle, grip := Nothing)
    && s' == s.(borrowed := s.borrowed + {th.conn}, owner := s.owner[th.conn := Owner.Lent],
         needReplenish := s.needReplenish || s.idle < s.minIdle)
  }

  lemma FromDone(s: Pool, t: nat, th: Thread, before: seq<Action>, s1: Pool, th1: Thread)
    returns (actions: seq<Action>, s': Pool, th': Thread)
    requires Leads(s, t, th, before, s1, th1) && th1.at.BorrowDone?
    ensures Leads(s, t, th, actions, s', th') && th' == th1.(at := Idle, grip := Nothing)
    ensures s' == s1.(borrowed := s1.borrowed + {th1.conn}, owner := s1.owner[th1.conn := Owner.Lent])
  {
    th' := th1.(grip := Nothing, at := Idle);
    actions, s' := On(s, t, th, before, s1, th1, GO, Lend(th1.conn), th');
  }

  lemma FromFlag(s: Pool, t: nat, th: Thread, before: seq<Action>, s1: Pool, th1: Thread)
    returns (actions: seq<Action>, s': Pool, th': Thread)
    requires Leads(s, t, th, before, s1, th1) && th1.at.BorrowFlag?
    ensures Leads(s, t, th, actions, s', th') && s' == s1.(needReplenish := true) && th' == th1.(at := BorrowDone)
  {
    th' := th1.(at := BorrowDone);
    actions, s' := On(s, t, th, before, s1, th1, GO, SetNeed(true), th');
  }

  /** From having its connection counted off the idle ones. */
  lemma FromCheck(s: Pool, t: nat, th: Thread, before: seq<Action>, s1: Pool, th1: Thread)
    returns (actions: seq<Action>, s': Pool, th': Thread)
    requires Leads(s, t, th, before, s1, th1) && th1.at.BorrowCheck?
    ensures Leads(s, t, th, actions, s', th') && Lent(s1, th1, s', th')
  {
    var low := s1.idle < s1.minIdle;
    var s2, th2 := s1, th1.(at := if low then BorrowFlag else BorrowDone);
    actions, s2 := On(s, t, th, before, s1, th1, GO, Nop, th2);
    if low {
      actions, s2, th2 := FromFlag(s, t, th, actions, s2, th2);
    }
    actions, s', th' := FromDone(s, t, th, actions, s2, th2);
  }

  /** The head of the queue taken and counted off. */
  function Without(s: Pool, t: nat): Pool
    requires Q.HeadPublished(s.queue)
  {
    s.(queue := Beheaded(s.queue), owner := s.owner[s.queue.entries[0].value := Held(t)], takers := s.takers - {t},
      idle := s.idle - 1)
  }

  /** Taking the head where it is published: `to` comes behind counting it off. */
  lemma TakesIt(s: Pool, t: nat, th: Thread, before: seq<Action>, s1: Pool, th1: Thread, to: Label)
    returns (actions: seq<Action>, s': Pool, th': Thread)
    requires Leads(s, t, th, before, s1, th1) && Q.HeadPublished(s1.queue) && t !in s1.takers
    requires (th1.at.TakeFast? && to.BorrowCheck?) || (th1.at.Recheck? && to.Leave?)
    ensures Leads(s, t, th, actions, s', th') && s' == Without(s1, t)
    ensures th' == th1.(at := to, conn := s1.queue.entries[0].value, grip := Mine)
  {
    var th2 := th1.(at := if to.Leave? then UncountWait else UncountFast, conn := s1.queue.entries[0].value, grip := Mine);
    var s2;
    actions, s2 := On(s, t, th, before, s1, th1, GO, Take, th2);
    th' := th2.(at := to);
    actions, s' := On(s, t, th, actions, s2, th2, GO, IdleSub, th');
    assert s1.takers + {t} - {t} == s1.takers - {t};
  }

  /** Out of the wait, the mutex in hand. */
  lemma FromLeave(s: Pool, t: nat, th: Thread, before: seq<Action>, s1: Pool, th1: Thread)
    returns (actions: seq<Action>, s': Pool, th': Thread)
    requires Leads(s, t, th, before, s1, th1) && th1.at.Leave?
    ensures Leads(s, t, th, actions, s', th') && s' == CountedOut(s1, t)
    ensures th' == th1.(at := if th1.grip.Mine? then BorrowCheck else Idle, timedOut := false)
  {
    var s2;
    actions, s2 := On(s, t, th, before, s1, th1, GO, Unlock, th1.(at := CountOut));
    actions, s', th' := FromCountOut(s, t, th, actions, s2, th1.(at := CountOut));
  }

  lemma FromCountOut(s: Pool, t: nat, th: Thread, before: seq<Action>, s1: Pool, th1: Thread)
    returns (actions: seq<Action>, s': Pool, th': Thread)
    requires Leads(s, t, th, before, s1, th1) && th1.at.CountOut?
    ensures Leads(s, t, th, actions, s', th') && s' == s1.(waiters := s1.waiters - 1, waiting := s1.waiting - {t})
    ensures th' == th1.(at := if th1.grip.Mine? then BorrowCheck else Idle, timedOut := false)
  {
    th' := th1.(at := if th1.grip.Mine? then BorrowCheck else Idle, timedOut := false);
    actions, s' := On(s, t, th, before, s1, th1, GO, WaitersSub, th');
  }

  /** No waiter any more, and without the mutex. */
  function CountedOut(s: Pool, t: nat): Pool {
    s.(lock := None, waiters := s.waiters - 1, waiting := s.waiting - {t})
  }

  /** Asleep, counted as a waiter, or out without a connection because the pool is stopped. */
  predicate SleepsOrStops(s: Pool, t: nat, th: Thread, s': Pool, th': Thread) {
    if s.stopped then
      && th' == th.(at := Idle, timedOut := false)
      && s' == CountedOut(s, t)
    else th' == th.(at := Asleep) && s' == s.(lock := None)
  }

  lemma FromReadStop(s: Pool, t: nat, th: Thread, before: seq<Action>, s1: Pool, th1: Thread)
    returns (actions: seq<Action>, s': Pool, th': Thread)
    requires Leads(s, t, th, before, s1, th1) && th1.at.ReadStop? && th1.grip.Nothing?
    ensures Leads(s, t, th, actions, s', th') && SleepsOrStops(s1, t, th1, s', th')
  {
    var th2, s2 := th1.(at := if s1.stopped then Leave else Commit), s1;
    actions, s2 := On(s, t, th, before, s1, th1, GO, Nop, th2);
    if s1.stopped {
      actions, s', th' := FromLeave(s, t, th, actions, s2, th2);
    } else {
      th' := th2.(at := Asleep);
      actions, s' := On(s, t, th, actions, s2, th2, GO, Unlock, th');
    }
  }

  /**
   At its locked look at the queue a thread gets the published head and lends it, whoever put it there;
   where there is none it sleeps, or is out if the pool is stopped.
   */
  predicate Looks(s: Pool, t: nat, th: Thread, s': Pool, th': Thread) {
    if Q.HeadPublished(s.queue) then
      Lent(CountedOut(Without(s, t), t), th.(conn := s.queue.entries[0].value, timedOut := false), s', th')
    else SleepsOrStops(s, t, th, s', th')
  }

  lemma FromRecheck(s: Pool, t: nat, th: Thread, before: seq<Action>, s1: Pool, th1: Thread)
    returns (actions: seq<Action>, s': Pool, th': Thread)
    requires Leads(s, t, th, before, s1, th1) && th1.at.Recheck? && th1.grip.Nothing? && t !in s1.takers
    ensures Leads(s, t, th, actions, s', th') && Looks(s1, t, th1, s', th')
  {
    if Q.HeadPublished(s1.queue) {
      var s2, th2, s3, th3;
      actions, s2, th2 := TakesIt(s, t, th, before, s1, th1, Leave);
      actions, s3, th3 := FromLeave(s, t, th, actions, s2, th2);
      actions, s', th' := FromCheck(s, t, th, actions, s3, th3);
    } else {
      var s2;
      actions, s2 := On(s, t, th, before, s1, th1, GO, Nop, th1.(at := ReadStop));
      actions, s', th' := FromReadStop(s, t, th, actions, s2, th1.(at := ReadStop));
    }
  }

  /** What an undisturbed `getConnection` comes to. */
  predicate Gets(s: Pool, t: nat, th: Thread, s': Pool, th': Thread) {
    if Q.HeadPublished(s.queue) then Lent(Without(s, t), th.(conn := s.queue.entries[0].value), s', th')
    else if s.stopped then s' == s && th' == th
    else s' == s.(waiters := s.waiters + 1, waiting := s.waiting + {t}) && th' == th.(at := Asleep)
  }

  predicate Rests(s: Pool, t: nat) {
    && 0 < t < |s.threads| && s.threads[t].at.Idle? && s.threads[t].grip.Nothing? && !s.threads[t].timedOut
    && s.lock.None? && t !in s.takers && t !in s.waiting
  }

  lemma FromStart(s: Pool, t: nat, a: Action, e: Effect, th': Thread) returns (s1: Pool)
    requires t < |s.threads| && Program(s, t, s.threads[t], a) == (e, th') && Enabled(s, e)
    ensures s1 == Perform(s, t, e) && Leads(s, t, s.threads[t], [a], s1, th') && MoveTo(s, t, s.threads[t]) == s
  {
    var actions;
    LeadsNowhere(s, t, s.threads[t]);
    actions, s1 := On(s, t, s.threads[t], [], s, s.threads[t], a, e, th');
    assert [] + [a] == [a] && s.threads[t := s.threads[t]] == s.threads;
  }

  lemma FromCountIn(s: Pool, t: nat, th: Thread, before: seq<Action>, s1: Pool, th1: Thread)
    returns (actions: seq<Action>, s': Pool, th': Thread)
    requires Leads(s, t, th, before, s1, th1) && th1.at.CountIn? && s1.lock.None? && t !in s1.waiting
    requires th1.grip.Nothing? && !th1.timedOut && t !in s1.takers && !Q.HeadPublished(s1.queue)
    ensures Leads(s, t, th, actions, s', th') && Gets(s1, t, th1.(at := Idle), s', th')
  {
    var s2, s3;
    actions, s2 := On(s, t, th, before, s1, th1, GO, WaitersAdd, th1.(at := LockWait));
    actions, s3 := On(s, t, th, actions, s2, th1.(at := LockWait), GO, Lock, th1.(at := Recheck));
    actions, s', th' := FromRecheck(s, t, th, actions, s3, th1.(at := Recheck));
    assert s1.waiting + {t} - {t} == s1.waiting;
  }

  /**
   `getConnection`, undisturbed: with an idle connection it lends the oldest one and flags too few being
   left; with none it sleeps as a waiter, or returns without one if the pool is stopped.
   */
  lemma AloneGet(s: Pool, t: nat) returns (actions: seq<Action>, s': Pool, th': Thread)
    requires Rests(s, t)
    ensures t < |s'.threads| && Run(s, Does(t, actions)) == MoveTo(s', t, th') && Gets(s, t, s.threads[t], s', th')
  {
    var th := s.threads[t];
    var s1 := FromStart(s, t, CallGet, Nop, th.(at := TakeFast));
    if Q.HeadPublished(s.queue) {
      var s2, th2;
      actions, s2, th2 := TakesIt(s, t, th, [CallGet], s1, th.(at := TakeFast), BorrowCheck);
      actions, s', th' := FromCheck(s, t, th, actions, s2, th2);
    } else {
      var s2;
      actions, s2 := On(s, t, th, [CallGet], s1, th.(at := TakeFast), GO, Nop, th.(at := CountIn));
      actions, s', th' := FromCountIn(s, t, th, actions, s2, th.(at := CountIn));
    }
  }

  /**
   A waiter that has been woken, and whose time is not up, looks again once it gets the mutex: over a
   published head it ends with that connection lent; otherwise it sleeps again, or stops.
   */
  lemma AloneWoken(s: Pool, t: nat) returns (actions: seq<Action>, s': Pool, th': Thread)
    requires t < |s.threads| && s.threads[t].at.Relock? && s.threads[t].grip.Nothing? && !s.threads[t].timedOut
    requires s.lock.None? && t !in s.takers
    ensures t < |s'.threads| && Run(s, Does(t, actions)) == MoveTo(s', t, th')
    ensures Looks(s.(lock := Some(t)), t, s.threads[t], s', th')
  {
    var th := s.threads[t];
    var s1 := FromStart(s, t, GO, Lock, th.(at := Recheck));
    actions, s', th' := FromRecheck(s, t, th, [GO], s1, th.(at := Recheck));
  }

  /** A waiter whose time is up gives up: no waiter any more, and with nothing. */
  lemma AloneTimedOut(s: Pool, t: nat) returns (actions: seq<Action>, s': Pool, th': Thread)
    requires t < |s.threads| && s.threads[t].at.Asleep? && s.threads[t].grip.Nothing? && s.lock.None?
    ensures t < |s'.threads| && Run(s, Does(t, actions)) == MoveTo(s', t, th')
    ensures s' == CountedOut(s, t) && th' == s.threads[t].(at := Idle, timedOut := false)
  {
    var th := s.threads[t];
    var late := th.(at := Relock, timedOut := true);
    var s1 := FromStart(s, t, Timeout, Nop, late);
    var s2;
    actions, s2 := On(s, t, th, [Timeout], s1, late, GO, Lock, late.(at := Leave));
    actions, s', th' := FromLeave(s, t, th, actions, s2, late.(at := Leave));
  }

  // ----- releaseConnection and createOne -----

  /** A connection put back behind the others, and counted. */
  function With(s: Pool, t: nat, c: Conn): Pool {
    s.(queue := s.queue.(entries := s.queue.entries + [Q.Entry(c, true)]), owner := s.owner[c := Queued],
       adders := s.adders - {t}, idle := s.idle + 1)
  }

  lemma FromSpin(s: Pool, t: nat, th: Thread, before: seq<Action>, s1: Pool, th1: Thread)
    returns (actions: seq<Action>, s': Pool, th': Thread)
    requires Leads(s, t, th, before, s1, th1) && th1.at.Spin? && |s1.queue.entries| < s1.queue.cap
    ensures Leads(s, t, th, actions, s', th') && s' == With(s1, t, th1.conn)
    ensures var ticket := s1.queue.base + |s1.queue.entries|;
      th' == th1.(at := if th1.role.SecondRound? then MSecond else SeeWaiters, grip := Nothing, ticket := ticket,
        requeued := th1.role.SecondRound?)
  {
    var th2 := th1.(at := Pub, grip := InQueue, ticket := s1.queue.base + |s1.queue.entries|);
    var s2, s3;
    actions, s2 := On(s, t, th, before, s1, th1, GO, Claim(th1.conn), th2);
    actions, s3 := FromPub(s, t, th, actions, s2, th2);
    actions, s', th' := FromCount(s, t, th, actions, s3, th2.(at := Count, grip := Nothing, requeued := th1.role.SecondRound?));
    PutIsWith(s1, t, th1.conn, s2, s3, s');
  }

  lemma FromCount(s: Pool, t: nat, th: Thread, before: seq<Action>, s1: Pool, th1: Thread)
    returns (actions: seq<Action>, s': Pool, th': Thread)
    requires Leads(s, t, th, before, s1, th1) && th1.at.Count?
    ensures Leads(s, t, th, actions, s', th') && s' == Perform(s1, t, IdleAdd)
    ensures th' == th1.(at := if th1.role.SecondRound? then MSecond else SeeWaiters)
  {
    th' := th1.(at := if th1.role.SecondRound? then MSecond else SeeWaiters);
    actions, s' := On(s, t, th, before, s1, th1, GO, IdleAdd, th');
  }

  lemma PutIsWith(s1: Pool, t: nat, c: Conn, s2: Pool, s3: Pool, s4: Pool)
    requires |s1.queue.entries| < s1.queue.cap && s2 == Perform(s1, t, Claim(c))
    requires var k := s1.queue.base + |s1.queue.entries|; Enabled(s2, Publish(c, k)) && s3 == Perform(s2, t, Publish(c, k))
    requires s4 == Perform(s3, t, IdleAdd)
    ensures s4 == With(s1, t, c)
  {
    assert s3.queue.entries == s1.queue.entries + [Q.Entry(c, true)];
    assert s1.adders + {t} - {t} == s1.adders - {t};
  }

  lemma FromPub(s: Pool, t: nat, th: Thread, before: seq<Action>, s1: Pool, th1: Thread)
    returns (actions: seq<Action>, s': Pool)
    requires Leads(s, t, th, before, s1, th1) && th1.at.Pub? && Enabled(s1, Publish(th1.conn, th1.ticket))
    ensures s' == Perform(s1, t, Publish(th1.conn, th1.ticket))
    ensures Leads(s, t, th, actions, s', th1.(at := Count, grip := Nothing, requeued := th1.role.SecondRound?))
  {
    actions, s' := On(s, t, th, before, s1, th1, GO, Publish(th1.conn, th1.ticket),
      th1.(at := Count, grip := Nothing, requeued := th1.role.SecondRound?));
  }

  /** Whoever waits is woken. */
  function Noticed(s: Pool): Pool {
    if s.waiters > 0 then s.(threads := WakeAll(s.threads)) else s
  }

  lemma FromSeeWaiters(s: Pool, t: nat, th: Thread, before: seq<Action>, s1: Pool, th1: Thread)
    returns (actions: seq<Action>, s': Pool, th': Thread)
    requires Leads(s, t, th, before, s1, th1) && th1.at.SeeWaiters? && s1.lock.None?
    ensures Leads(s, t, th, actions, s', th') && s' == Noticed(s1)
    ensures th' == th1.(at := AfterNotify(th1.role), requeued := false)
  {
    if s1.waiters > 0 {
      var s2;
      actions, s2 := On(s, t, th, before, s1, th1, GO, Nop, th1.(at := LockNotify));
      actions, s', th' := FromLockNotify(s, t, th, actions, s2, th1.(at := LockNotify));
    } else {
      th' := th1.(at := AfterNotify(th1.role), requeued := false);
      actions, s' := On(s, t, th, before, s1, th1, GO, Nop, th');
    }
  }

  lemma FromLockNotify(s: Pool, t: nat, th: Thread, before: seq<Action>, s1: Pool, th1: Thread)
    returns (actions: seq<Action>, s': Pool, th': Thread)
    requires Leads(s, t, th, before, s1, th1) && th1.at.LockNotify? && s1.lock.None?
    ensures Leads(s, t, th, actions, s', th') && s' == s1.(threads := WakeAll(s1.threads))
    ensures th' == th1.(at := AfterNotify(th1.role), requeued := false)
  {
    var s2;
    actions, s2 := On(s, t, th, before, s1, th1, GO, Lock, th1.(at := Notify));
    actions, s', th' := FromNotify(s, t, th, actions, s2, th1.(at := Notify));
  }

  lemma FromNotify(s: Pool, t: nat, th: Thread, before: seq<Action>, s1: Pool, th1: Thread)
    returns (actions: seq<Action>, s': Pool, th': Thread)
    requires Leads(s, t, th, before, s1, th1) && th1.at.Notify?
    ensures Leads(s, t, th, actions, s', th') && s' == s1.(threads := WakeAll(s1.threads), lock := None)
    ensures th' == th1.(at := AfterNotify(th1.role), requeued := false)
  {
    var s2;
    actions, s2 := On(s, t, th, before, s1, th1, GO, NotifyAll, th1.(at := UnlockNotify, requeued := false));
    actions, s', th' := FromUnlockNotify(s, t, th, actions, s2, th1.(at := UnlockNotify, requeued := false));
  }

  lemma FromUnlockNotify(s: Pool, t: nat, th: Thread, before: seq<Action>, s1: Pool, th1: Thread)
    returns (actions: seq<Action>, s': Pool, th': Thread)
    requires Leads(s, t, th, before, s1, th1) && th1.at.UnlockNotify?
    ensures Leads(s, t, th, actions, s', th') && s' == s1.(lock := None) && th' == th1.(at := AfterNotify(th1.role))
  {
    th' := th1.(at := AfterNotify(th1.role));
    actions, s' := On(s, t, th, before, s1, th1, GO, Unlock, th');
  }

  /** Too few idle connections are flagged. */
  function Flagged(s: Pool): Pool { s.(needReplenish := s.needReplenish || s.idle < s.minIdle) }

  lemma FromReleaseCheck(s: Pool, t: nat, th: Thread, before: seq<Action>, s1: Pool, th1: Thread)
    returns (actions: seq<Action>, s': Pool, th': Thread)
    requires Leads(s, t, th, before, s1, th1) && th1.at.ReleaseCheck?
    ensures Leads(s, t, th, actions, s', th') && s' == Flagged(s1) && th' == th1.(at := Idle)
  {
    th' := th1.(at := Idle);
    if s1.idle < s1.minIdle {
      var s2;
      actions, s2 := On(s, t, th, before, s1, th1, GO, Nop, th1.(at := ReleaseFlag));
      actions, s' := On(s, t, th, actions, s2, th1.(at := ReleaseFlag), GO, SetNeed(true), th');
    } else {
      actions, s' := On(s, t, th, before, s1, th1, GO, Nop, th');
    }
  }

  /** A connection discarded: off the total, off the registry, no longer live. */
  function Gone(s: Pool, c: Conn): Pool {
    s.(total := s.total - 1, counted := s.counted - {c}, registry := s.registry - {c}, owner := s.owner - {c})
  }

  lemma FromCountOff(s: Pool, t: nat, th: Thread, before: seq<Action>, s1: Pool, th1: Thread)
    returns (actions: seq<Action>, s': Pool, th': Thread)
    requires Leads(s, t, th, before, s1, th1) && th1.at.CountOff?
    ensures Leads(s, t, th, actions, s', th') && s' == Gone(s1, th1.conn)
    ensures th' == th1.(at := AfterDiscard(th1.role), grip := Nothing)
  {
    var s2;
    actions, s2 := On(s, t, th, before, s1, th1, GO, TotalSub(th1.conn), th1.(at := Erase));
    actions, s', th' := FromErase(s, t, th, actions, s2, th1.(at := Erase));
  }

  lemma FromErase(s: Pool, t: nat, th: Thread, before: seq<Action>, s1: Pool, th1: Thread)
    returns (actions: seq<Action>, s': Pool, th': Thread)
    requires Leads(s, t, th, before, s1, th1) && th1.at.Erase?
    ensures Leads(s, t, th, actions, s', th')
    ensures s' == s1.(registry := s1.registry - {th1.conn}, owner := s1.owner - {th1.conn})
    ensures th' == th1.(at := AfterDiscard(th1.role), grip := Nothing)
  {
    var s2;
    actions, s2 := On(s, t, th, before, s1, th1, GO, Unregister(th1.conn), th1.(at := Delete));
    actions, s', th' := FromDelete(s, t, th, actions, s2, th1.(at := Delete));
  }

  lemma FromDelete(s: Pool, t: nat, th: Thread, before: seq<Action>, s1: Pool, th1: Thread)
    returns (actions: seq<Action>, s': Pool, th': Thread)
    requires Leads(s, t, th, before, s1, th1) && th1.at.Delete?
    ensures Leads(s, t, th, actions, s', th') && s' == s1.(owner := s1.owner - {th1.conn})
    ensures th' == th1.(at := AfterDiscard(th1.role), grip := Nothing)
  {
    th' := th1.(at := AfterDiscard(th1.role), grip := Nothing);
    actions, s' := On(s, t, th, before, s1, th1, GO, Destroy(th1.conn), th');
  }

  lemma FromReturn(s: Pool, t: nat, th: Thread, before: seq<Action>, s1: Pool, th1: Thread, good: bool)
    returns (actions: seq<Action>, s': Pool, th': Thread)
    requires Leads(s, t, th, before, s1, th1) && th1.at.Return? && s1.lock.None?
    requires good ==> |s1.queue.entries| < s1.queue.cap
    ensures Leads(s, t, th, actions, s', th') && th'.at.Idle?
    ensures s' == Flagged(if good then Noticed(With(s1, t, th1.conn)) else Gone(s1, th1.conn))
  {
    var verdict := Go(if good then Good else Bad);
    var s2, th2 := s1, th1.(role := Releaser, at := if good then Spin else CountOff);
    actions, s2 := On(s, t, th, before, s1, th1, verdict, Nop, th2);
    if good {
      actions, s2, th2 := FromPut(s, t, th, actions, s2, th2);
    } else {
      actions, s2, th2 := FromCountOff(s, t, th, actions, s2, th2);
    }
    actions, s', th' := FromReleaseCheck(s, t, th, actions, s2, th2);
  }

  /**
   Returning a connection, undisturbed: a valid one comes behind the idle ones and whoever waits is woken,
   any other is discarded; too few being idle is flagged.
   */
  lemma AloneReturn(s: Pool, t: nat, c: Conn, good: bool) returns (actions: seq<Action>, s': Pool, th': Thread)
    requires Rests(s, t) && c in s.borrowed && (good ==> |s.queue.entries| < s.queue.cap)
    ensures t < |s'.threads| && Run(s, Does(t, actions)) == MoveTo(s', t, th') && th'.at.Idle?
    ensures var back := s.(borrowed := s.borrowed - {c}, owner := s.owner[c := Held(t)]);
      s' == Flagged(if good then Noticed(With(back, t, c)) else Gone(back, c))
  {
    var th := s.threads[t];
    var th1 := th.(at := Return, conn := c, grip := Mine);
    var s1 := FromStart(s, t, CallReturn(c), Reclaim(c), th1);
    actions, s', th' := FromReturn(s, t, th, [CallReturn(c)], s1, th1, good);
  }

  /** Put back, and whoever waits is woken. */
  lemma FromPut(s: Pool, t: nat, th: Thread, before: seq<Action>, s1: Pool, th1: Thread)
    returns (actions: seq<Action>, s': Pool, th': Thread)
    requires Leads(s, t, th, before, s1, th1) && th1.at.Spin? && !th1.role.SecondRound?
    requires s1.lock.None? && |s1.queue.entries| < s1.queue.cap
    ensures Leads(s, t, th, actions, s', th') && s' == Noticed(With(s1, t, th1.conn))
    ensures th'.at == AfterNotify(th1.role) && th'.role == th1.role
  {
    var s2, th2;
    actions, s2, th2 := FromSpin(s, t, th, before, s1, th1);
    actions, s', th' := FromSeeWaiters(s, t, th, actions, s2, th2);
  }

  lemma FromRegister(s: Pool, t: nat, th: Thread, before: seq<Action>, s1: Pool, th1: Thread)
    returns (actions: seq<Action>, s': Pool, th': Thread)
    requires Leads(s, t, th, before, s1, th1) && th1.at.Register? && s1.lock.None? && |s1.queue.entries| < s1.queue.cap
    ensures Leads(s, t, th, actions, s', th') && th'.at.Idle?
    ensures s' == Noticed(With(s1.(registry := s1.registry + {th1.conn}), t, th1.conn))
  {
    var s2;
    actions, s2 := On(s, t, th, before, s1, th1, GO, Enlist(th1.conn), th1.(role := Creator, at := Spin));
    actions, s', th' := FromPut(s, t, th, actions, s2, th1.(role := Creator, at := Spin));
  }

  lemma FromCreate(s: Pool, t: nat, th: Thread, before: seq<Action>, s1: Pool, th1: Thread)
    returns (actions: seq<Action>, s': Pool, th': Thread)
    requires Leads(s, t, th, before, s1, th1) && th1.at.Create? && s1.lock.None? && |s1.queue.entries| < s1.queue.cap
    ensures Leads(s, t, th, actions, s', th') && th'.at.Idle?
    ensures var c := s1.nextConn;
      s' == Noticed(With(Perform(s1, t, New).(registry := s1.registry + {c}), t, c))
  {
    var s2;
    var th2 := th1.(at := Register, conn := s1.nextConn, grip := Mine);
    actions, s2 := On(s, t, th, before, s1, th1, GO, New, th2);
    actions, s', th' := FromRegister(s, t, th, actions, s2, th2);
  }

  /** A new connection, counted, registered, and behind the idle ones. */
  function Created(s: Pool, t: nat): Pool {
    var c := s.nextConn;
    With(s.(nextConn := c + 1, owner := s.owner[c := Held(t)], counted := s.counted + {c}, registry := s.registry + {c}), t, c)
  }

  lemma Abandons(s: Pool, t: nat, th: Thread, before: seq<Action>, s1: Pool, th1: Thread)
    returns (actions: seq<Action>, s': Pool, th': Thread)
    requires Leads(s, t, th, before, s1, th1) && th1.at.Create?
    ensures Leads(s, t, th, actions, s', th') && th' == th1.(at := Idle)
    ensures s' == s1.(total := s1.total - 1, creating := s1.creating - {t})
  {
    th' := th1.(at := Idle);
    actions, s' := On(s, t, th, before, s1, th1, Go(Bad), Abandon, th');
  }

  /** A creation task, undisturbed: a new connection is there and waiters are woken, or its place is given up. */
  lemma AloneCreate(s: Pool, t: nat, good: bool) returns (actions: seq<Action>, s': Pool, th': Thread)
    requires Rests(s, t) && s.createQueue > 0 && t !in s.creating && (good ==> |s.queue.entries| < s.queue.cap)
    ensures t < |s'.threads| && Run(s, Does(t, actions)) == MoveTo(s', t, th') && th'.at.Idle?
    ensures var begun := s.(createQueue := s.createQueue - 1);
      s' == if good then Noticed(Created(begun, t)) else begun.(total := s.total - 1)
  {
    var th := s.threads[t];
    var s1 := FromStart(s, t, RunTask, StartTask, th.(at := Create));
    assert s.creating + {t} - {t} == s.creating;
    if good {
      actions, s', th' := FromCreate(s, t, th, [RunTask], s1, th.(at := Create));
    } else {
      actions, s', th' := Abandons(s, t, th, [RunTask], s1, th.(at := Create));
    }
  }
}
