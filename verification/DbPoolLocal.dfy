/**
 What each part of the pool's program guarantees about a single step, seen from the thread that
 takes it: the bookkeeping every access implies is matched by the program counter and the locals.
 */
module DbPoolLocal {
  import opened DbPool
  import opened DbPoolInvariant
  import Q = QueueSpec

  predicate SameLists(th: Thread, th': Thread) {
    th'.todo == th.todo && th'.healthy == th.healthy
  }

  predicate SameGrip(th: Thread, th': Thread) {
    SameLists(th, th') && (th'.grip.Mine? <==> th.grip.Mine?) && (th.grip.Mine? ==> th'.conn == th.conn)
  }

  /** The thread's hold on every connection is unchanged, if only because the same ones were moved around. */
  ghost predicate SameHoldings(th: Thread, th': Thread) {
    || SameGrip(th, th')
    || (forall c: Conn :: Holds(th', c) == Holds(th, c))
  }

  /** The thread comes to hold `c`, which it did not. */
  predicate Gains(th: Thread, th': Thread, c: Conn) {
    SameLists(th, th') && !th.grip.Mine? && th'.grip.Mine? && th'.conn == c
  }

  predicate Loses(th: Thread, th': Thread, c: Conn) {
    SameLists(th, th') && th.grip.Mine? && th.conn == c && !th'.grip.Mine?
  }

  ghost predicate OwnershipFits(s: Pool, th: Thread, e: Effect, th': Thread) {
    && Enabled(s, e)
    && (th.at.Pub? <==> e.Publish?)
    && (th'.at.Pub? <==> e.Claim?)
    && (e.Take? ==> Gains(th, th', s.queue.entries[0].value))
    && (e.Claim? ==>
         Loses(th, th', e.c) && th'.conn == e.c && th'.ticket == s.queue.base + |s.queue.entries|)
    && (e.Publish? ==> th.conn == e.c && th.ticket == e.ticket)
    && (e.New? ==> Gains(th, th', s.nextConn))
    && (e.Destroy? || e.Lend? ==> Loses(th, th', e.c))
    && (e.Reclaim? ==> Gains(th, th', e.c) && e.c in s.borrowed)
    && (!Regrips(e) ==> SameHoldings(th, th'))
  }

  /** The accesses that change what a thread holds. */
  predicate Regrips(e: Effect) {
    e.Take? || e.Claim? || e.New? || e.Destroy? || e.Lend? || e.Reclaim?
  }

  /** The discard of a connection: taken off the total, struck off the registry, destroyed. */
  predicate LeavingFits(th: Thread, e: Effect, th': Thread) {
    && (LeavingAt(th'.at) <==> e.TotalSub? || (LeavingAt(th.at) && !e.Destroy?))
    && (LeavingAt(th'.at) ==> th'.conn == th.conn)
    && (e.TotalSub? ==> !LeavingAt(th.at) && th.conn == e.c && th.grip.Mine?)
    && (e.Destroy? ==> LeavingAt(th.at) && th.conn == e.c)
  }

  predicate ListingFits(th: Thread, e: Effect, th': Thread) {
    && (UnlistedAt(th'.at) <==> e.New? || e.Unregister?)
    && (UnlistedAt(th.at) <==> e.Enlist? || e.Destroy?)
    && (e.Enlist? || e.Unregister? || e.Destroy? ==> th.conn == e.c && th.grip.Mine?)
    && (e.Unregister? ==> th'.conn == e.c)
  }

  predicate CreatingFits(s: Pool, t: nat, th: Thread, e: Effect, th': Thread) {
    && (th'.at.Create? <==> e.StartTask? || (th.at.Create? && !e.New? && !e.Abandon?))
    && (e.StartTask? ==> !th.at.Create?)
    && (e.New? || e.Abandon? ==> th.at.Create?)
    && Unsubmitted(th') == Unsubmitted(th) + (match e case Reserve(n) => n case Submit => -1 case _ => 0)
    && (e.Reserve? ==> t == 0 && th.at.MReserve? && th.need == e.n)
    && (e.Submit? ==> t == 0)
    && (th'.at.MReserve? ==> e.Nop? && s.total + th'.need <= s.maxSize)
  }

  predicate TotalsFit(s: Pool, t: nat, th: Thread, e: Effect, th': Thread) {
    LeavingFits(th, e, th') && ListingFits(th, e, th') && CreatingFits(s, t, th, e, th')
  }

  predicate LawsFit(s: Pool, th: Thread, e: Effect, th': Thread) {
    && (TakerAt(th'.at) <==> e.Take? || (TakerAt(th.at) && !e.IdleSub?))
    && (e.Take? ==> !TakerAt(th.at))
    && (e.IdleSub? ==> TakerAt(th.at))
    && (AdderAt(th'.at) <==> e.Claim? || (AdderAt(th.at) && !e.IdleAdd?))
    && (e.Claim? ==> !AdderAt(th.at))
    && (e.IdleAdd? ==> AdderAt(th.at))
    && (Waits(th'.at) <==> e.WaitersAdd? || (Waits(th.at) && !e.WaitersSub?))
    && (e.WaitersAdd? ==> !Waits(th.at))
    && (e.WaitersSub? ==> Waits(th.at))
    && (HoldsLock(th'.at) <==> e.Lock? || (HoldsLock(th.at) && !e.Unlock?))
    && (e.Lock? ==> s.lock.None?)
    && (e.Unlock? || e.NotifyAll? ==> HoldsLock(th.at))
  }

  predicate WakeupsFit(s: Pool, th: Thread, e: Effect, th': Thread) {
    && (Committed(th'.at) ==> Committed(th.at) || (e.Nop? && !Q.HeadPublished(s.queue)))
    && (Committed(th.at) || Committed(th'.at) ==> e.Nop? || e.Unlock?)
    && (WillNotify(th) && !WillNotify(th') ==> e.NotifyAll? || (e.Nop? && s.waiters <= 0))
    && (e.Publish? ==> WillNotify(th'))
    && (th'.at.Commit? || th'.at.Asleep? ==> th.at.Commit? || th.at.Asleep? || (e.Nop? && !s.stopped))
    && (WillNotifyStop(th) && !WillNotifyStop(th') ==> e.NotifyAll?)
    && (e.SetStop? ==> WillNotifyStop(th'))
    && (e.NotifyAll? ==> !Committed(th'.at))
  }

  lemma CountSplit(xs: seq<Conn>, c: Conn)
    requires xs != []
    ensures multiset(xs)[c] == One(xs[0] == c) + multiset(xs[1..])[c]
  {
    assert xs == [xs[0]] + xs[1..];
  }

  lemma ShuffleKeepsHoldings(th: Thread, th': Thread, taken: nat)
    requires th.todo != [] && !th.grip.Mine? && taken <= 1
    requires th'.todo == th.todo[1..]
    requires taken == 1 ==> th'.grip.Mine? && th'.conn == th.todo[0] && th'.healthy == th.healthy
    requires taken == 0 ==> !th'.grip.Mine? && th'.healthy == th.healthy + [th.todo[0]]
    ensures SameHoldings(th, th')
  {
    forall c: Conn ensures Holds(th', c) == Holds(th, c) {
      CountSplit(th.todo, c);
    }
  }

  // ----- What each part of the program guarantees -----

  lemma CallLocal(s: Pool, t: nat, th: Thread, a: Action, e: Effect, th': Thread)
    requires LocalOk(t, th) && PartOf(th.at).Calling? && (e, th') == CallStep(s, t, th, a)
    ensures LocalOk(t, th')
  {
  }

  lemma BorrowLocal(s: Pool, t: nat, th: Thread, e: Effect, th': Thread)
    requires LocalOk(t, th) && PartOf(th.at).Borrowing? && (e, th') == BorrowStep(s, th)
    ensures LocalOk(t, th')
  {
  }

  lemma WaitLocal(s: Pool, t: nat, th: Thread, e: Effect, th': Thread)
    requires LocalOk(t, th) && PartOf(th.at).Waiting? && (e, th') == WaitStep(s, th)
    ensures LocalOk(t, th')
  {
  }

  lemma SleepLocal(s: Pool, t: nat, th: Thread, a: Action, e: Effect, th': Thread)
    requires LocalOk(t, th) && PartOf(th.at).Sleeping? && (e, th') == SleepStep(s, th, a)
    ensures LocalOk(t, th')
  {
  }

  lemma PutLocal(s: Pool, t: nat, th: Thread, ok: bool, e: Effect, th': Thread)
    requires LocalOk(t, th) && PartOf(th.at).Putting? && (e, th') == PutStep(s, th, ok)
    ensures LocalOk(t, th')
  {
  }

  lemma NoticeLocal(s: Pool, t: nat, th: Thread, e: Effect, th': Thread)
    requires LocalOk(t, th) && PartOf(th.at).Noticing? && (e, th') == NoticeStep(s, th)
    ensures LocalOk(t, th')
  {
  }

  lemma DiscardLocal(s: Pool, t: nat, th: Thread, e: Effect, th': Thread)
    requires LocalOk(t, th) && PartOf(th.at).Discarding? && (e, th') == DiscardStep(s, th)
    ensures LocalOk(t, th')
  {
  }

  lemma CreateLocal(s: Pool, t: nat, th: Thread, ok: bool, e: Effect, th': Thread)
    requires LocalOk(t, th) && PartOf(th.at).Creating? && (e, th') == CreateStep(s, th, ok)
    ensures LocalOk(t, th')
  {
  }

  lemma DrainLocal(s: Pool, t: nat, th: Thread, e: Effect, th': Thread)
    requires LocalOk(t, th) && PartOf(th.at).Draining? && (e, th') == DrainStep(s, th)
    ensures LocalOk(t, th')
  {
  }

  lemma ScanLocal(s: Pool, t: nat, th: Thread, verdict: Verdict, e: Effect, th': Thread)
    requires LocalOk(t, th) && PartOf(th.at).Scanning? && (e, th') == ScanStep(s, th, verdict)
    ensures LocalOk(t, th')
  {
  }

  lemma RoundLocal(s: Pool, t: nat, th: Thread, e: Effect, th': Thread)
    requires LocalOk(t, th) && PartOf(th.at).Rounding? && (e, th') == RoundStep(s, th)
    ensures LocalOk(t, th')
  {
  }

  lemma ReplenishLocal(s: Pool, t: nat, th: Thread, e: Effect, th': Thread)
    requires LocalOk(t, th) && PartOf(th.at).Replenishing? && (e, th') == ReplenishStep(s, th)
    ensures LocalOk(t, th')
  {
  }

  lemma CallOwns(s: Pool, t: nat, th: Thread, a: Action, e: Effect, th': Thread)
    requires LocalOk(t, th) && PartOf(th.at).Calling? && (e, th') == CallStep(s, t, th, a)
    ensures OwnershipFits(s, th, e, th')
  {
  }

  lemma BorrowOwns(s: Pool, t: nat, th: Thread, e: Effect, th': Thread)
    requires LocalOk(t, th) && PartOf(th.at).Borrowing? && (e, th') == BorrowStep(s, th)
    ensures OwnershipFits(s, th, e, th')
  {
  }

  lemma WaitOwns(s: Pool, t: nat, th: Thread, e: Effect, th': Thread)
    requires LocalOk(t, th) && PartOf(th.at).Waiting? && (e, th') == WaitStep(s, th)
    ensures OwnershipFits(s, th, e, th')
  {
    assert e.Take? || SameGrip(th, th');
  }

  lemma SleepOwns(s: Pool, t: nat, th: Thread, a: Action, e: Effect, th': Thread)
    requires LocalOk(t, th) && PartOf(th.at).Sleeping? && (e, th') == SleepStep(s, th, a)
    ensures OwnershipFits(s, th, e, th')
  {
    assert SameGrip(th, th');
  }

  lemma PutOwns(s: Pool, t: nat, th: Thread, ok: bool, e: Effect, th': Thread)
    requires LocalOk(t, th) && PartOf(th.at).Putting? && (e, th') == PutStep(s, th, ok)
    requires th.at.Pub? ==> Enabled(s, Publish(th.conn, th.ticket))
    ensures OwnershipFits(s, th, e, th')
  {
  }

  lemma NoticeOwns(s: Pool, t: nat, th: Thread, e: Effect, th': Thread)
    requires LocalOk(t, th) && PartOf(th.at).Noticing? && (e, th') == NoticeStep(s, th)
    ensures OwnershipFits(s, th, e, th')
  {
  }

  lemma DiscardOwns(s: Pool, t: nat, th: Thread, e: Effect, th': Thread)
    requires LocalOk(t, th) && PartOf(th.at).Discarding? && (e, th') == DiscardStep(s, th)
    ensures OwnershipFits(s, th, e, th')
  {
  }

  lemma CreateOwns(s: Pool, t: nat, th: Thread, ok: bool, e: Effect, th': Thread)
    requires LocalOk(t, th) && PartOf(th.at).Creating? && (e, th') == CreateStep(s, th, ok)
    ensures OwnershipFits(s, th, e, th')
  {
  }

  lemma DrainOwns(s: Pool, t: nat, th: Thread, e: Effect, th': Thread)
    requires LocalOk(t, th) && PartOf(th.at).Draining? && (e, th') == DrainStep(s, th)
    ensures OwnershipFits(s, th, e, th')
  {
    if th.at.MUncount? {
      assert forall c: Conn :: Holds(th', c) == Holds(th, c);
    }
  }

  lemma ScanOwns(s: Pool, t: nat, th: Thread, verdict: Verdict, e: Effect, th': Thread)
    requires LocalOk(t, th) && PartOf(th.at).Scanning? && (e, th') == ScanStep(s, th, verdict)
    ensures OwnershipFits(s, th, e, th')
  {
    if th.todo != [] {
      ShuffleKeepsHoldings(th, th', One(th'.grip.Mine?));
    } else {
      assert forall c: Conn :: th.at.MPing? ==> Holds(th', c) == Holds(th, c);
    }
  }

  lemma RoundOwns(s: Pool, t: nat, th: Thread, e: Effect, th': Thread)
    requires LocalOk(t, th) && PartOf(th.at).Rounding? && (e, th') == RoundStep(s, th)
    ensures OwnershipFits(s, th, e, th')
  {
  }

  lemma ReplenishOwns(s: Pool, t: nat, th: Thread, e: Effect, th': Thread)
    requires LocalOk(t, th) && PartOf(th.at).Replenishing? && (e, th') == ReplenishStep(s, th)
    ensures OwnershipFits(s, th, e, th')
  {
  }

  lemma CallTotals(s: Pool, t: nat, th: Thread, a: Action, e: Effect, th': Thread)
    requires LocalOk(t, th) && PartOf(th.at).Calling? && (e, th') == CallStep(s, t, th, a)
    ensures TotalsFit(s, t, th, e, th')
  {
  }

  lemma BorrowTotals(s: Pool, t: nat, th: Thread, e: Effect, th': Thread)
    requires LocalOk(t, th) && PartOf(th.at).Borrowing? && (e, th') == BorrowStep(s, th)
    ensures TotalsFit(s, t, th, e, th')
  {
  }

  lemma WaitTotals(s: Pool, t: nat, th: Thread, e: Effect, th': Thread)
    requires LocalOk(t, th) && PartOf(th.at).Waiting? && (e, th') == WaitStep(s, th)
    ensures TotalsFit(s, t, th, e, th')
  {
  }

  lemma SleepTotals(s: Pool, t: nat, th: Thread, a: Action, e: Effect, th': Thread)
    requires LocalOk(t, th) && PartOf(th.at).Sleeping? && (e, th') == SleepStep(s, th, a)
    ensures TotalsFit(s, t, th, e, th')
  {
  }

  lemma PutTotals(s: Pool, t: nat, th: Thread, ok: bool, e: Effect, th': Thread)
    requires LocalOk(t, th) && PartOf(th.at).Putting? && (e, th') == PutStep(s, th, ok)
    ensures TotalsFit(s, t, th, e, th')
  {
  }

  lemma NoticeTotals(s: Pool, t: nat, th: Thread, e: Effect, th': Thread)
    requires LocalOk(t, th) && PartOf(th.at).Noticing? && (e, th') == NoticeStep(s, th)
    ensures TotalsFit(s, t, th, e, th')
  {
  }

  lemma DiscardTotals(s: Pool, t: nat, th: Thread, e: Effect, th': Thread)
    requires LocalOk(t, th) && PartOf(th.at).Discarding? && (e, th') == DiscardStep(s, th)
    ensures TotalsFit(s, t, th, e, th')
  {
  }

  lemma CreateTotals(s: Pool, t: nat, th: Thread, ok: bool, e: Effect, th': Thread)
    requires LocalOk(t, th) && PartOf(th.at).Creating? && (e, th') == CreateStep(s, th, ok)
    ensures TotalsFit(s, t, th, e, th')
  {
  }

  lemma DrainTotals(s: Pool, t: nat, th: Thread, e: Effect, th': Thread)
    requires LocalOk(t, th) && PartOf(th.at).Draining? && (e, th') == DrainStep(s, th)
    ensures TotalsFit(s, t, th, e, th')
  {
  }

  lemma ScanTotals(s: Pool, t: nat, th: Thread, verdict: Verdict, e: Effect, th': Thread)
    requires LocalOk(t, th) && PartOf(th.at).Scanning? && (e, th') == ScanStep(s, th, verdict)
    ensures TotalsFit(s, t, th, e, th')
  {
  }

  lemma RoundTotals(s: Pool, t: nat, th: Thread, e: Effect, th': Thread)
    requires LocalOk(t, th) && PartOf(th.at).Rounding? && (e, th') == RoundStep(s, th)
    ensures TotalsFit(s, t, th, e, th')
  {
  }

  lemma ReplenishTotals(s: Pool, t: nat, th: Thread, e: Effect, th': Thread)
    requires LocalOk(t, th) && PartOf(th.at).Replenishing? && (e, th') == ReplenishStep(s, th)
    requires th.at.MReserve? ==> s.total + th.need <= s.maxSize
    ensures TotalsFit(s, t, th, e, th')
  {
  }

  lemma CallLaws(s: Pool, t: nat, th: Thread, a: Action, e: Effect, th': Thread)
    requires LocalOk(t, th) && PartOf(th.at).Calling? && (e, th') == CallStep(s, t, th, a)
    ensures LawsFit(s, th, e, th') && WakeupsFit(s, th, e, th')
  {
  }

  lemma BorrowLaws(s: Pool, t: nat, th: Thread, e: Effect, th': Thread)
    requires LocalOk(t, th) && PartOf(th.at).Borrowing? && (e, th') == BorrowStep(s, th)
    ensures LawsFit(s, th, e, th') && WakeupsFit(s, th, e, th')
  {
  }

  lemma WaitLaws(s: Pool, t: nat, th: Thread, e: Effect, th': Thread)
    requires LocalOk(t, th) && PartOf(th.at).Waiting? && (e, th') == WaitStep(s, th)
    ensures LawsFit(s, th, e, th') && WakeupsFit(s, th, e, th')
  {
  }

  lemma SleepLaws(s: Pool, t: nat, th: Thread, a: Action, e: Effect, th': Thread)
    requires LocalOk(t, th) && PartOf(th.at).Sleeping? && (e, th') == SleepStep(s, th, a)
    ensures LawsFit(s, th, e, th') && WakeupsFit(s, th, e, th')
  {
  }

  lemma PutLaws(s: Pool, t: nat, th: Thread, ok: bool, e: Effect, th': Thread)
    requires LocalOk(t, th) && PartOf(th.at).Putting? && (e, th') == PutStep(s, th, ok)
    ensures LawsFit(s, th, e, th') && WakeupsFit(s, th, e, th')
  {
  }

  lemma NoticeLaws(s: Pool, t: nat, th: Thread, e: Effect, th': Thread)
    requires LocalOk(t, th) && PartOf(th.at).Noticing? && (e, th') == NoticeStep(s, th)
    ensures LawsFit(s, th, e, th') && WakeupsFit(s, th, e, th')
  {
  }

  lemma DiscardLaws(s: Pool, t: nat, th: Thread, e: Effect, th': Thread)
    requires LocalOk(t, th) && PartOf(th.at).Discarding? && (e, th') == DiscardStep(s, th)
    ensures LawsFit(s, th, e, th') && WakeupsFit(s, th, e, th')
  {
  }

  lemma CreateLaws(s: Pool, t: nat, th: Thread, ok: bool, e: Effect, th': Thread)
    requires LocalOk(t, th) && PartOf(th.at).Creating? && (e, th') == CreateStep(s, th, ok)
    ensures LawsFit(s, th, e, th') && WakeupsFit(s, th, e, th')
  {
  }

  lemma DrainLaws(s: Pool, t: nat, th: Thread, e: Effect, th': Thread)
    requires LocalOk(t, th) && PartOf(th.at).Draining? && (e, th') == DrainStep(s, th)
    ensures LawsFit(s, th, e, th') && WakeupsFit(s, th, e, th')
  {
  }

  lemma ScanLaws(s: Pool, t: nat, th: Thread, verdict: Verdict, e: Effect, th': Thread)
    requires LocalOk(t, th) && PartOf(th.at).Scanning? && (e, th') == ScanStep(s, th, verdict)
    ensures LawsFit(s, th, e, th') && WakeupsFit(s, th, e, th')
  {
  }

  lemma RoundLaws(s: Pool, t: nat, th: Thread, e: Effect, th': Thread)
    requires LocalOk(t, th) && PartOf(th.at).Rounding? && (e, th') == RoundStep(s, th)
    ensures LawsFit(s, th, e, th') && WakeupsFit(s, th, e, th')
  {
  }

  lemma ReplenishLaws(s: Pool, t: nat, th: Thread, e: Effect, th': Thread)
    requires LocalOk(t, th) && PartOf(th.at).Replenishing? && (e, th') == ReplenishStep(s, th)
    ensures LawsFit(s, th, e, th') && WakeupsFit(s, th, e, th')
  {
  }

  /** Everything a step has to satisfy for the invariant to be kept, as far as its own thread can tell. */
  ghost predicate StepFits(s: Pool, t: nat, th: Thread, e: Effect, th': Thread) {
    && LocalOk(t, th')
    && OwnershipFits(s, th, e, th')
    && TotalsFit(s, t, th, e, th')
    && LawsFit(s, th, e, th')
    && WakeupsFit(s, th, e, th')
  }

  lemma ProgramFits(s: Pool, t: nat, th: Thread, a: Action, e: Effect, th': Thread)
    requires LocalOk(t, th) && (e, th') == Program(s, t, th, a)
    requires th.at.Pub? ==> Enabled(s, Publish(th.conn, th.ticket))
    requires th.at.MReserve? ==> s.total + th.need <= s.maxSize
    ensures StepFits(s, t, th, e, th')
  {
    var ok := a.Go? && a.verdict.Good?;
    var verdict := if a.Go? then a.verdict else Good;
    match PartOf(th.at)
    case Calling =>
      CallLocal(s, t, th, a, e, th');
      CallOwns(s, t, th, a, e, th');
      CallTotals(s, t, th, a, e, th');
      CallLaws(s, t, th, a, e, th');
    case Borrowing =>
      BorrowLocal(s, t, th, e, th');
      BorrowOwns(s, t, th, e, th');
      BorrowTotals(s, t, th, e, th');
      BorrowLaws(s, t, th, e, th');
    case Waiting =>
      WaitLocal(s, t, th, e, th');
      WaitOwns(s, t, th, e, th');
      WaitTotals(s, t, th, e, th');
      WaitLaws(s, t, th, e, th');
    case Sleeping =>
      SleepLocal(s, t, th, a, e, th');
      SleepOwns(s, t, th, a, e, th');
      SleepTotals(s, t, th, a, e, th');
      SleepLaws(s, t, th, a, e, th');
    case Putting =>
      PutLocal(s, t, th, ok, e, th');
      PutOwns(s, t, th, ok, e, th');
      PutTotals(s, t, th, ok, e, th');
      PutLaws(s, t, th, ok, e, th');
    case Noticing =>
      NoticeLocal(s, t, th, e, th');
      NoticeOwns(s, t, th, e, th');
      NoticeTotals(s, t, th, e, th');
      NoticeLaws(s, t, th, e, th');
    case Discarding =>
      DiscardLocal(s, t, th, e, th');
      DiscardOwns(s, t, th, e, th');
      DiscardTotals(s, t, th, e, th');
      DiscardLaws(s, t, th, e, th');
    case Creating =>
      CreateLocal(s, t, th, ok, e, th');
      CreateOwns(s, t, th, ok, e, th');
      CreateTotals(s, t, th, ok, e, th');
      CreateLaws(s, t, th, ok, e, th');
    case Draining =>
      DrainLocal(s, t, th, e, th');
      DrainOwns(s, t, th, e, th');
      DrainTotals(s, t, th, e, th');
      DrainLaws(s, t, th, e, th');
    case Scanning =>
      ScanLocal(s, t, th, verdict, e, th');
      ScanOwns(s, t, th, verdict, e, th');
      ScanTotals(s, t, th, verdict, e, th');
      ScanLaws(s, t, th, verdict, e, th');
    case Rounding =>
      RoundLocal(s, t, th, e, th');
      RoundOwns(s, t, th, e, th');
      RoundTotals(s, t, th, e, th');
      RoundLaws(s, t, th, e, th');
    case Replenishing =>
      ReplenishLocal(s, t, th, e, th');
      ReplenishOwns(s, t, th, e, th');
      ReplenishTotals(s, t, th, e, th');
      ReplenishLaws(s, t, th, e, th');
  }
}
