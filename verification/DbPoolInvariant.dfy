/**
 What every reachable state of the connection pool satisfies, in independent parts: who owns each
 connection, how the counters and the registry relate to it, who holds the mutex, and who will wake whom.
 */
module DbPoolInvariant {
  import opened DbPool
  import Q = QueueSpec

  // ----- What a thread's program counter and locals say -----

  function One(b: bool): nat { if b then 1 else 0 }

  /** How many times a thread has connection `c` to itself: in hand, or in its scan lists. */
  function Holds(th: Thread, c: Conn): nat {
    One(th.grip.Mine? && th.conn == c) + multiset(th.todo)[c] + multiset(th.healthy)[c]
  }

  /** Program counters at which the local connection pointer is set. */
  predicate HasConn(at: Label) {
    match at
    case UncountFast | BorrowCheck | BorrowFlag | BorrowDone | UncountWait | Return | Spin | CountOff
       | Erase | Delete | Register | MUncount => true
    case _ => false
  }

  predicate InScan(at: Label) {
    match at
    case MSleep | MReset | MDrain | MUncount | MPing | MSecond | MLow | MLowFlag | MNeed | MNeedIdle
       | MReadIdle | MReadTotal | MReserve | MSubmit => true
    case _ => false
  }

  predicate Putters(at: Label) {
    match at
    case Spin | Pub | Count | SeeWaiters => true
    case _ => false
  }

  predicate Discards(at: Label) {
    match at
    case CountOff | Erase | Delete => true
    case _ => false
  }

  predicate Notifiers(at: Label) {
    match at
    case LockNotify | Notify | UnlockNotify => true
    case _ => false
  }

  /** The part of the invariant that is about one thread's own variables. */
  predicate LocalOk(t: nat, th: Thread) {
    && (HasConn(th.at) ==> th.grip.Mine?)
    && (th.at.Pub? <==> th.grip.InQueue?)
    && (th.grip.Mine? ==> HasConn(th.at) || th.at.Leave? || th.at.CountOut?)
    && (t == 0 <==>
         || InScan(th.at)
         || (Discards(th.at) && (th.role.FirstRound? || th.role.SecondRound?))
         || ((Putters(th.at) || Notifiers(th.at)) && th.role.SecondRound?))
    && (Discards(th.at) && t > 0 ==> th.role.Releaser?)
    && (Putters(th.at) && t > 0 ==> th.role.Releaser? || th.role.Creator?)
    && (Notifiers(th.at) && t > 0 ==> th.role.Releaser? || th.role.Creator? || th.role.Stopper?)
    && (th.requeued ==>
         || th.at.MSecond?
         || (th.role.SecondRound? && (Discards(th.at) || Putters(th.at) || th.at.LockNotify? || th.at.Notify?)))
    && (t == 0 && (th.at.Count? || th.at.SeeWaiters?) ==> th.requeued)
  }

  predicate Waits(at: Label) {
    match at
    case LockWait | Recheck | UncountWait | ReadStop | Commit | Asleep | Relock | Leave | CountOut => true
    case _ => false
  }

  predicate HoldsLock(at: Label) {
    match at
    case Recheck | UncountWait | ReadStop | Commit | Leave | Notify | UnlockNotify => true
    case _ => false
  }

  predicate TakerAt(at: Label) {
    match at
    case UncountFast | UncountWait | MUncount => true
    case _ => false
  }

  predicate AdderAt(at: Label) {
    match at
    case Pub | Count => true
    case _ => false
  }

  predicate LeavingAt(at: Label) {
    match at
    case Erase | Delete => true
    case _ => false
  }

  /** Where the connection in hand is live but not in the registry: not yet enlisted, or struck off. */
  predicate UnlistedAt(at: Label) {
    match at
    case Register | Delete => true
    case _ => false
  }

  /** A waiter whose locked re-check has failed, and who has not been woken since. */
  predicate Committed(at: Label) {
    match at
    case ReadStop | Commit | Asleep => true
    case _ => false
  }

  /**
   A thread that has published a connection and whose check of the waiter count, or notification,
   is still ahead; the maintenance scan makes one for everything it puts back.
   */
  predicate WillNotify(th: Thread) {
    th.requeued || th.at.Count? || th.at.SeeWaiters? || th.at.LockNotify? || th.at.Notify?
  }

  function Unsubmitted(th: Thread): nat { if th.at.MSubmit? then th.need else 0 }

  // ----- Ownership -----

  function ValuesOf(entries: seq<Q.Entry<Conn>>): (r: seq<Conn>)
    ensures |r| == |entries|
    ensures forall i :: 0 <= i < |r| ==> r[i] == entries[i].value
  {
    seq(|entries|, i requires 0 <= i < |entries| => entries[i].value)
  }

  predicate Distinct<T(==)>(xs: seq<T>) {
    forall i, j :: 0 <= i < j < |xs| ==> xs[i] != xs[j]
  }

  predicate OwnedBy(s: Pool, c: Conn, o: Owner) {
    c in s.owner && s.owner[c] == o
  }

  /** A thread holds exactly the connections it owns, each once. */
  ghost predicate ThreadHolds(s: Pool, t: nat)
    requires t < |s.threads|
  {
    forall c: Conn :: Holds(s.threads[t], c) == One(OwnedBy(s, c, Held(t)))
  }

  /** A thread about to publish has its unpublished entry in the queue. */
  predicate Publishes(s: Pool, t: nat)
    requires t < |s.threads|
  {
    s.threads[t].at.Pub? ==>
      var c, k := s.threads[t].conn, s.threads[t].ticket;
      && s.queue.base <= k < s.queue.base + |s.queue.entries|
      && s.queue.entries[k - s.queue.base] == Q.Entry(c, false)
      && OwnedBy(s, c, Claimed(t))
  }

  predicate EntryOwned(s: Pool, i: nat)
    requires i < |s.queue.entries|
  {
    var e := s.queue.entries[i];
    && e.value in s.owner
    && (e.published ==> s.owner[e.value] == Queued)
    && (!e.published ==> s.owner[e.value].Claimed?)
  }

  predicate OwnerKnown(s: Pool, c: Conn)
    requires c in s.owner
  {
    && c < s.nextConn
    && match s.owner[c]
       case Held(t) => t < |s.threads|
       case Claimed(t) =>
         && c in ValuesOf(s.queue.entries)
         && t < |s.threads| && s.threads[t].at.Pub? && s.threads[t].conn == c
       case Queued => c in ValuesOf(s.queue.entries)
       case Lent => c in s.borrowed
  }

  ghost predicate Ownership(s: Pool) {
    && (forall t: nat :: t < |s.threads| ==> ThreadHolds(s, t) && Publishes(s, t))
    && (forall i: nat :: i < |s.queue.entries| ==> EntryOwned(s, i))
    && (forall c: Conn :: c in s.owner ==> OwnerKnown(s, c))
    && (forall c: Conn :: c in s.borrowed ==> OwnedBy(s, c, Lent))
    && Distinct(ValuesOf(s.queue.entries))
  }

  // ----- Counters -----

  predicate Leaves(th: Thread, c: Conn) {
    LeavingAt(th.at) && th.conn == c
  }

  /** The total counts every live connection not already being discarded, and every creation promised. */
  predicate CountedOk(s: Pool, c: Conn) {
    c in s.counted <==>
      && c in s.owner
      && !(s.owner[c].Held? && s.owner[c].thread < |s.threads| && Leaves(s.threads[s.owner[c].thread], c))
  }

  /** The registry is the live connections less those a thread is about to enlist or to destroy. */
  predicate ListedOk(s: Pool, c: Conn) {
    c in s.registry <==>
      && c in s.owner
      && !(s.owner[c].Held? && s.owner[c].thread < |s.threads| && Unlists(s.threads[s.owner[c].thread], c))
  }

  predicate Unlists(th: Thread, c: Conn) {
    UnlistedAt(th.at) && th.conn == c
  }

  ghost predicate Registry(s: Pool) {
    forall c: Conn :: ListedOk(s, c)
  }

  predicate Totals(s: Pool) {
    && 0 < |s.threads|
    && s.total == |s.counted| + s.createQueue + |s.creating| + Unsubmitted(s.threads[0])
    && s.total <= s.maxSize
    && (s.threads[0].at.MReserve? ==> s.total + s.threads[0].need <= s.maxSize)
  }

  ghost predicate Counts(s: Pool) {
    && Totals(s)
    && (forall c: Conn :: CountedOk(s, c))
    && (forall t: nat :: t < |s.threads| ==> (t in s.creating <==> s.threads[t].at.Create?))
    && (forall t: nat :: t in s.creating ==> t < |s.threads|)
  }

  /** The idle counter is off by exactly the threads between moving a connection and counting it. */
  ghost predicate IdleLaw(s: Pool) {
    && s.idle == |s.queue.entries| + |s.takers| - |s.adders|
    && (forall t: nat :: t < |s.threads| ==> (t in s.takers <==> TakerAt(s.threads[t].at)))
    && (forall t: nat :: t < |s.threads| ==> (t in s.adders <==> AdderAt(s.threads[t].at)))
    && (forall t: nat :: t in s.takers || t in s.adders ==> t < |s.threads|)
  }

  ghost predicate WaiterLaw(s: Pool) {
    && s.waiters == |s.waiting|
    && (forall t: nat :: t < |s.threads| ==> (t in s.waiting <==> Waits(s.threads[t].at)))
  }

  // ----- Mutual exclusion and wakeups -----

  ghost predicate Mutex(s: Pool) {
    forall t: nat :: t < |s.threads| ==> (HoldsLock(s.threads[t].at) <==> s.lock == Some(t))
  }

  ghost predicate SomeoneWillNotify(s: Pool) {
    exists u: nat :: u < |s.threads| && WillNotify(s.threads[u])
  }

  ghost predicate SomeoneCommitted(s: Pool) {
    exists t: nat :: t < |s.threads| && Committed(s.threads[t].at)
  }

  /** No lost wakeup. */
  ghost predicate Wakeups(s: Pool) {
    SomeoneCommitted(s) && Q.HeadPublished(s.queue) ==> SomeoneWillNotify(s)
  }

  predicate WillNotifyStop(th: Thread) { th.role.Stopper? && (th.at.LockNotify? || th.at.Notify?) }

  ghost predicate StopNotice(s: Pool) {
    s.stopped && (exists t: nat :: t < |s.threads| && (s.threads[t].at.Commit? || s.threads[t].at.Asleep?)) ==>
      exists u: nat :: u < |s.threads| && WillNotifyStop(s.threads[u])
  }

  predicate Locals(s: Pool) {
    forall t: nat :: t < |s.threads| ==> LocalOk(t, s.threads[t])
  }

  ghost predicate Inv(s: Pool) {
    && Locals(s)
    && s.maxSize <= s.queue.cap
    && Ownership(s) && Counts(s) && Registry(s) && IdleLaw(s) && WaiterLaw(s) && Mutex(s) && Wakeups(s) && StopNotice(s)
  }
}
