/** Every step keeps the counters, the registry, the mutex and the wakeups in order. */
module DbPoolLaws {
  import opened DbPool
  import opened DbPoolInvariant
  import opened DbPoolLocal
  import opened DbPoolOwnership
  import Q = QueueSpec

  // ----- What an access changes -----

  /** Waking a thread changes nothing that the counters look at. */
  lemma AwakeIsQuiet(th: Thread)
    ensures var w := Awake(th);
      && LeavingAt(w.at) == LeavingAt(th.at) && UnlistedAt(w.at) == UnlistedAt(th.at)
      && w.conn == th.conn && w.need == th.need && w.at.Create? == th.at.Create?
      && w.at.MSubmit? == th.at.MSubmit? && w.at.MReserve? == th.at.MReserve?
      && TakerAt(w.at) == TakerAt(th.at) && AdderAt(w.at) == AdderAt(th.at)
      && Waits(w.at) == Waits(th.at) && HoldsLock(w.at) == HoldsLock(th.at)
      && WillNotify(w) == WillNotify(th) && WillNotifyStop(w) == WillNotifyStop(th)
      && !w.at.Asleep? && (Committed(w.at) ==> HoldsLock(th.at))
  {
  }

  /** The threads after a step: the stepping one moved on, the others as they were or woken. */
  predicate Woken(s: Pool, s': Pool, t: nat, e: Effect, th': Thread) {
    && t < |s.threads| == |s'.threads| && s'.threads[t] == th'
    && forall u: nat :: u < |s.threads| && u != t ==>
         s'.threads[u] == if e.NotifyAll? then Awake(s.threads[u]) else s.threads[u]
  }

  lemma Others(s: Pool, t: nat, e: Effect, th': Thread)
    requires t < |s.threads| && Enabled(s, e)
    ensures Woken(s, After(s, t, e, th'), t, e, th')
  {
    assert e.NotifyAll? ==> Perform(s, t, e).threads == WakeAll(s.threads);
    assert !e.NotifyAll? ==> Perform(s, t, e).threads == s.threads;
  }

  predicate IdleMoves(s: Pool, s': Pool, t: nat, e: Effect) {
    && s'.idle == s.idle + (if e.IdleAdd? then 1 else if e.IdleSub? then -1 else 0)
    && s'.takers == (if e.Take? then s.takers + {t} else if e.IdleSub? then s.takers - {t} else s.takers)
    && s'.adders == (if e.Claim? then s.adders + {t} else if e.IdleAdd? then s.adders - {t} else s.adders)
    && |s'.queue.entries| == |s.queue.entries| + (if e.Claim? then 1 else if e.Take? then -1 else 0)
  }

  predicate WaiterMoves(s: Pool, s': Pool, t: nat, e: Effect) {
    && s'.waiters == s.waiters + (if e.WaitersAdd? then 1 else if e.WaitersSub? then -1 else 0)
    && s'.waiting ==
         (if e.WaitersAdd? then s.waiting + {t} else if e.WaitersSub? then s.waiting - {t} else s.waiting)
  }

  predicate TotalMoves(s: Pool, s': Pool, t: nat, e: Effect) {
    && s'.maxSize == s.maxSize
    && s'.total == s.total + (if e.Reserve? then e.n else if e.TotalSub? || e.Abandon? then -1 else 0)
    && s'.createQueue == s.createQueue + (if e.Submit? then 1 else if e.StartTask? then -1 else 0)
    && s'.creating ==
         (if e.StartTask? then s.creating + {t} else if e.New? || e.Abandon? then s.creating - {t} else s.creating)
  }

  function OwnerAfter(s: Pool, t: nat, e: Effect): map<Conn, Owner>
    requires Enabled(s, e)
  {
    match e
    case Take => s.owner[s.queue.entries[0].value := Held(t)]
    case Claim(c) => s.owner[c := Claimed(t)]
    case Publish(c, _) => s.owner[c := Queued]
    case New => s.owner[s.nextConn := Held(t)]
    case Destroy(c) => s.owner - {c}
    case Lend(c) => s.owner[c := Lent]
    case Reclaim(c) => s.owner[c := Held(t)]
    case _ => s.owner
  }

  predicate BookMoves(s: Pool, s': Pool, t: nat, e: Effect)
    requires Enabled(s, e)
  {
    && s'.owner == OwnerAfter(s, t, e)
    && s'.counted == (match e
         case New => s.counted + {s.nextConn}
         case TotalSub(c) => s.counted - {c}
         case _ => s.counted)
    && s'.registry == (match e
         case Enlist(c) => s.registry + {c}
         case Unregister(c) => s.registry - {c}
         case _ => s.registry)
  }

  lemma CountersMove(s: Pool, t: nat, e: Effect, th': Thread)
    requires t < |s.threads| && Enabled(s, e)
    ensures var s' := After(s, t, e, th'); IdleMoves(s, s', t, e) && WaiterMoves(s, s', t, e)
  {
  }

  lemma TotalsMove(s: Pool, t: nat, e: Effect, th': Thread)
    requires t < |s.threads| && Enabled(s, e)
    ensures TotalMoves(s, After(s, t, e, th'), t, e)
  {
  }

  lemma BooksMove(s: Pool, t: nat, e: Effect, th': Thread)
    requires t < |s.threads| && Enabled(s, e)
    ensures BookMoves(s, After(s, t, e, th'), t, e)
  {
  }

  predicate FlagMoves(s: Pool, s': Pool, t: nat, e: Effect) {
    && s'.lock == (if e.Lock? then Some(t) else if e.Unlock? then None else s.lock)
    && s'.stopped == (s.stopped || e.SetStop?)
    && (!e.Publish? && Q.HeadPublished(s'.queue) ==> Q.HeadPublished(s.queue))
  }

  lemma FlagsMove(s: Pool, t: nat, e: Effect, th': Thread)
    requires t < |s.threads| && Enabled(s, e)
    ensures FlagMoves(s, After(s, t, e, th'), t, e)
  {
  }

  // ----- Counters -----

  lemma StepLocals(s: Pool, s': Pool, t: nat, e: Effect, th': Thread)
    requires Locals(s) && Woken(s, s', t, e, th') && LocalOk(t, th')
    ensures Locals(s')
  {
    forall u: nat | u < |s'.threads| ensures LocalOk(u, s'.threads[u]) {
      assert LocalOk(u, s.threads[u]);
      assert u != t ==> LocalOk(u, Awake(s.threads[u]));
    }
  }

  lemma StepIdleLaw(s: Pool, s': Pool, t: nat, e: Effect, th': Thread)
    requires IdleLaw(s) && Woken(s, s', t, e, th') && IdleMoves(s, s', t, e) && LawsFit(s, s.threads[t], e, th')
    ensures IdleLaw(s')
  {
    forall u: nat | u < |s'.threads|
      ensures (u in s'.takers <==> TakerAt(s'.threads[u].at)) && (u in s'.adders <==> AdderAt(s'.threads[u].at))
    {
      AwakeIsQuiet(s.threads[u]);
    }
  }

  lemma StepWaiterLaw(s: Pool, s': Pool, t: nat, e: Effect, th': Thread)
    requires WaiterLaw(s) && Woken(s, s', t, e, th') && WaiterMoves(s, s', t, e) && LawsFit(s, s.threads[t], e, th')
    ensures WaiterLaw(s')
  {
    forall u: nat | u < |s'.threads| ensures u in s'.waiting <==> Waits(s'.threads[u].at) {
      AwakeIsQuiet(s.threads[u]);
    }
  }

  lemma StepMutex(s: Pool, s': Pool, t: nat, e: Effect, th': Thread)
    requires Mutex(s) && Woken(s, s', t, e, th') && LawsFit(s, s.threads[t], e, th')
    requires FlagMoves(s, s', t, e)
    ensures Mutex(s')
  {
    forall u: nat | u < |s'.threads| ensures HoldsLock(s'.threads[u].at) <==> s'.lock == Some(u) {
      AwakeIsQuiet(s.threads[u]);
    }
  }

  /** Whose each connection is that an access moves. */
  predicate NamesOwn(s: Pool, t: nat, e: Effect) {
    && (e.TotalSub? || e.Destroy? || e.Claim? || e.Lend? || e.Enlist? || e.Unregister? ==> OwnedBy(s, e.c, Held(t)))
    && (e.Publish? ==> OwnedBy(s, e.c, Claimed(t)))
    && (e.Reclaim? ==> OwnedBy(s, e.c, Lent))
    && (e.Take? ==> Enabled(s, e) && OwnedBy(s, s.queue.entries[0].value, Queued))
    && (e.New? ==> s.nextConn !in s.owner)
  }

  lemma StepNamesOwn(s: Pool, t: nat, e: Effect, th': Thread)
    requires Ownership(s) && Locals(s) && t < |s.threads| && LocalOk(t, th')
    requires OwnershipFits(s, s.threads[t], e, th') && TotalsFit(s, t, s.threads[t], e, th')
    ensures NamesOwn(s, t, e)
    ensures Regrips(e) && !e.Destroy? ==> !LeavingAt(s.threads[t].at)
  {
    assert LocalOk(t, s.threads[t]) && ThreadHolds(s, t) && Publishes(s, t);
    if e.TotalSub? || e.Destroy? || e.Claim? || e.Lend? || e.Enlist? || e.Unregister? {
      assert Holds(s.threads[t], e.c) >= 1;
    }
    if e.Take? {
      assert EntryOwned(s, 0);
    }
    if e.New? {
      assert s.nextConn in s.owner ==> OwnerKnown(s, s.nextConn);
    }
  }

  /** Whether an access concerns connection `c`. */
  predicate Concerns(s: Pool, e: Effect, c: Conn)
    requires Enabled(s, e)
  {
    match e
    case Take => c == s.queue.entries[0].value
    case New => c == s.nextConn
    case Claim(d) => c == d
    case Publish(d, _) => c == d
    case TotalSub(d) => c == d
    case Unregister(d) => c == d
    case Destroy(d) => c == d
    case Enlist(d) => c == d
    case Lend(d) => c == d
    case Reclaim(d) => c == d
    case _ => false
  }

  predicate SameBooks(s: Pool, s': Pool, c: Conn) {
    && (c in s'.owner <==> c in s.owner) && (c in s.owner ==> s'.owner[c] == s.owner[c])
    && (c in s'.counted <==> c in s.counted) && (c in s'.registry <==> c in s.registry)
  }

  lemma UnconcernedBooks(s: Pool, s': Pool, t: nat, e: Effect, c: Conn)
    requires Enabled(s, e) && BookMoves(s, s', t, e) && !Concerns(s, e, c)
    ensures SameBooks(s, s', c)
  {
  }

  lemma UnconcernedStays(s: Pool, s': Pool, t: nat, e: Effect, th': Thread, c: Conn)
    requires Enabled(s, e) && Woken(s, s', t, e, th') && !Concerns(s, e, c) && SameBooks(s, s', c)
    requires LeavingFits(s.threads[t], e, th') && ListingFits(s.threads[t], e, th')
    requires e.New? ==> th'.conn == s.nextConn
    ensures CountedOk(s, c) ==> CountedOk(s', c)
    ensures ListedOk(s, c) ==> ListedOk(s', c)
  {
    if c in s.owner && s.owner[c].Held? && s.owner[c].thread < |s.threads| {
      AwakeIsQuiet(s.threads[s.owner[c].thread]);
    }
  }

  lemma ConcernedCounted(s: Pool, s': Pool, t: nat, e: Effect, th': Thread, c: Conn)
    requires Enabled(s, e) && Woken(s, s', t, e, th') && BookMoves(s, s', t, e) && NamesOwn(s, t, e)
    requires Concerns(s, e, c) && CountedOk(s, c) && LeavingFits(s.threads[t], e, th')
    requires Regrips(e) && !e.Destroy? ==> !LeavingAt(s.threads[t].at)
    ensures CountedOk(s', c)
  {
  }

  lemma ConcernedListed(s: Pool, s': Pool, t: nat, e: Effect, th': Thread, c: Conn)
    requires Enabled(s, e) && Woken(s, s', t, e, th') && BookMoves(s, s', t, e) && NamesOwn(s, t, e)
    requires Concerns(s, e, c) && ListedOk(s, c) && ListingFits(s.threads[t], e, th')
    requires e.New? ==> th'.conn == s.nextConn
    ensures ListedOk(s', c)
  {
  }

  lemma StepBooks(s: Pool, s': Pool, t: nat, e: Effect, th': Thread, c: Conn)
    requires Enabled(s, e) && Woken(s, s', t, e, th') && BookMoves(s, s', t, e) && NamesOwn(s, t, e)
    requires LeavingFits(s.threads[t], e, th') && ListingFits(s.threads[t], e, th')
    requires Regrips(e) && !e.Destroy? ==> !LeavingAt(s.threads[t].at)
    requires e.New? ==> th'.conn == s.nextConn
    requires CountedOk(s, c) && ListedOk(s, c)
    ensures CountedOk(s', c) && ListedOk(s', c)
  {
    if Concerns(s, e, c) {
      ConcernedCounted(s, s', t, e, th', c);
      ConcernedListed(s, s', t, e, th', c);
    } else {
      UnconcernedBooks(s, s', t, e, c);
      UnconcernedStays(s, s', t, e, th', c);
    }
  }

  lemma StepTotals(s: Pool, s': Pool, t: nat, e: Effect, th': Thread)
    requires Totals(s) && Enabled(s, e) && Woken(s, s', t, e, th') && TotalMoves(s, s', t, e)
    requires BookMoves(s, s', t, e) && CreatingFits(s, t, s.threads[t], e, th')
    requires t > 0 ==> !th'.at.MSubmit? && !th'.at.MReserve?
    requires e.TotalSub? ==> e.c in s.counted
    requires e.New? ==> s.nextConn !in s.counted
    requires t in s.creating <==> s.threads[t].at.Create?
    ensures Totals(s')
  {
    AwakeIsQuiet(s.threads[0]);
  }

  lemma StepCreating(s: Pool, s': Pool, t: nat, e: Effect, th': Thread)
    requires Counts(s) && Woken(s, s', t, e, th') && TotalMoves(s, s', t, e)
    requires CreatingFits(s, t, s.threads[t], e, th')
    ensures forall u: nat :: u < |s'.threads| ==> (u in s'.creating <==> s'.threads[u].at.Create?)
    ensures forall u: nat :: u in s'.creating ==> u < |s'.threads|
  {
    forall u: nat | u < |s'.threads| ensures u in s'.creating <==> s'.threads[u].at.Create? {
      AwakeIsQuiet(s.threads[u]);
    }
  }

  lemma StepCounts(s: Pool, s': Pool, t: nat, e: Effect, th': Thread)
    requires Counts(s) && Registry(s) && Enabled(s, e) && Woken(s, s', t, e, th') && LocalOk(t, th')
    requires TotalMoves(s, s', t, e) && BookMoves(s, s', t, e) && NamesOwn(s, t, e)
    requires TotalsFit(s, t, s.threads[t], e, th') && (e.New? ==> th'.conn == s.nextConn)
    requires Regrips(e) && !e.Destroy? ==> !LeavingAt(s.threads[t].at)
    ensures Counts(s') && Registry(s')
  {
    assert e.TotalSub? ==> CountedOk(s, e.c);
    assert e.New? ==> CountedOk(s, s.nextConn);
    StepTotals(s, s', t, e, th');
    forall c: Conn ensures CountedOk(s', c) && ListedOk(s', c) {
      assert CountedOk(s, c) && ListedOk(s, c);
      StepBooks(s, s', t, e, th', c);
    }
    StepCreating(s, s', t, e, th');
  }

  // ----- Wakeups -----

  /** Whoever notifies holds the mutex, so every waiter past its re-check is asleep and is woken. */
  lemma NoticeReachesAll(s: Pool, s': Pool, t: nat, th': Thread)
    requires Mutex(s) && Woken(s, s', t, NotifyAll, th') && HoldsLock(s.threads[t].at) && !Committed(th'.at)
    ensures !SomeoneCommitted(s')
  {
    forall w: nat | w < |s'.threads| ensures !Committed(s'.threads[w].at) {
      AwakeIsQuiet(s.threads[w]);
    }
  }

  /** While anyone is committed, no thread reads a waiter count of zero, so whoever will notify still will. */
  lemma NotifierStays(s: Pool, s': Pool, t: nat, e: Effect, th': Thread, w: nat, u: nat)
    requires WaiterLaw(s) && Woken(s, s', t, e, th') && !e.NotifyAll?
    requires WakeupsFit(s, s.threads[t], e, th')
    requires w < |s.threads| && Committed(s.threads[w].at)
    requires u < |s.threads| && WillNotify(s.threads[u])
    ensures SomeoneWillNotify(s')
  {
    assert w in s.waiting && s.waiters > 0;
    assert WillNotify(s'.threads[u]);
  }

  lemma StepWakeups(s: Pool, s': Pool, t: nat, e: Effect, th': Thread)
    requires Wakeups(s) && Mutex(s) && WaiterLaw(s) && Woken(s, s', t, e, th') && FlagMoves(s, s', t, e)
    requires LawsFit(s, s.threads[t], e, th') && WakeupsFit(s, s.threads[t], e, th')
    ensures Wakeups(s')
  {
    if e.NotifyAll? {
      NoticeReachesAll(s, s', t, th');
    } else if e.Publish? {
      assert WillNotify(s'.threads[t]);
    } else if SomeoneCommitted(s') && Q.HeadPublished(s'.queue) {
      var w: nat :| w < |s'.threads| && Committed(s'.threads[w].at);
      assert Committed(s.threads[w].at) && Q.HeadPublished(s.queue);
      var u: nat :| u < |s.threads| && WillNotify(s.threads[u]);
      NotifierStays(s, s', t, e, th', w, u);
    }
  }

  /** A sleeper that is still there has its notification still to come from where it was to come from. */
  lemma StopNoticeStays(s: Pool, s': Pool, t: nat, e: Effect, th': Thread, w: nat)
    requires StopNotice(s) && Woken(s, s', t, e, th') && FlagMoves(s, s', t, e) && !e.NotifyAll? && !e.SetStop?
    requires LawsFit(s, s.threads[t], e, th') && WakeupsFit(s, s.threads[t], e, th')
    requires s'.stopped && w < |s'.threads| && (s'.threads[w].at.Commit? || s'.threads[w].at.Asleep?)
    ensures exists u: nat :: u < |s'.threads| && WillNotifyStop(s'.threads[u])
  {
    assert s.threads[w].at.Commit? || s.threads[w].at.Asleep?;
    var u: nat :| u < |s.threads| && WillNotifyStop(s.threads[u]);
    assert WillNotifyStop(s'.threads[u]);
  }

  lemma StepStopNotice(s: Pool, s': Pool, t: nat, e: Effect, th': Thread)
    requires StopNotice(s) && Mutex(s) && Woken(s, s', t, e, th') && FlagMoves(s, s', t, e)
    requires LawsFit(s, s.threads[t], e, th') && WakeupsFit(s, s.threads[t], e, th')
    ensures StopNotice(s')
  {
    if e.NotifyAll? {
      NoticeReachesAll(s, s', t, th');
      assert forall w: nat :: w < |s'.threads| ==> !Committed(s'.threads[w].at);
    } else if e.SetStop? {
      assert WillNotifyStop(s'.threads[t]);
    } else if s'.stopped && exists w: nat :: w < |s'.threads| && (s'.threads[w].at.Commit? || s'.threads[w].at.Asleep?) {
      var w: nat :| w < |s'.threads| && (s'.threads[w].at.Commit? || s'.threads[w].at.Asleep?);
      StopNoticeStays(s, s', t, e, th', w);
    }
  }
}
