/** Every step of every thread hands each connection from exactly one owner to exactly one owner. */
module DbPoolOwnership {
  import opened DbPool
  import opened DbPoolInvariant
  import opened DbPoolLocal
  import Q = QueueSpec

  function After(s: Pool, t: nat, e: Effect, th': Thread): (s': Pool)
    requires t < |s.threads| && Enabled(s, e)
  {
    MoveTo(Perform(s, t, e), t, th')
  }

  /** Accesses that concern neither the idle queue nor the ownership of any connection. */
  predicate Aside(e: Effect) {
    !Regrips(e) && !e.Publish? && !e.NotifyAll?
  }

  /** Whatever else changes, ownership stays if no connection moves. */
  lemma UnmovedOwnership(s: Pool, s': Pool, t: nat)
    requires Ownership(s) && t < |s.threads| == |s'.threads|
    requires s'.queue == s.queue && s'.owner == s.owner && s'.borrowed == s.borrowed && s'.nextConn == s.nextConn
    requires SameHoldings(s.threads[t], s'.threads[t]) && !s.threads[t].at.Pub? && !s'.threads[t].at.Pub?
    requires forall u: nat :: u < |s.threads| && u != t ==>
      s'.threads[u] == s.threads[u] || s'.threads[u] == Awake(s.threads[u])
    ensures Ownership(s')
  {
    forall u: nat | u < |s'.threads| ensures ThreadHolds(s', u) && Publishes(s', u) {
      assert ThreadHolds(s, u) && Publishes(s, u);
      forall c: Conn ensures Holds(s'.threads[u], c) == Holds(s.threads[u], c) {
        assert u != t ==> SameGrip(s.threads[u], s'.threads[u]);
      }
    }
    forall i: nat | i < |s'.queue.entries| ensures EntryOwned(s', i) {
      assert EntryOwned(s, i);
    }
    forall c: Conn | c in s'.owner ensures OwnerKnown(s', c) {
      assert OwnerKnown(s, c);
    }
  }

  lemma AsideIsUnmoved(s: Pool, t: nat, e: Effect)
    requires Aside(e) && Enabled(s, e)
    ensures var s' := Perform(s, t, e);
      s'.queue == s.queue && s'.owner == s.owner && s'.borrowed == s.borrowed && s'.nextConn == s.nextConn
      && s'.threads == s.threads
  {
  }

  /** The part of ownership each thread sees. */
  ghost predicate ThreadsOwn(s: Pool) {
    forall u: nat :: u < |s.threads| ==> ThreadHolds(s, u) && Publishes(s, u)
  }

  /** A thread whose entry, if it has one to publish, is where it was. */
  predicate KeepsEntry(s: Pool, s': Pool, u: nat)
    requires u < |s.threads|
  {
    s.threads[u].at.Pub? ==>
      var k := s.threads[u].ticket;
      s.queue.base <= k < s.queue.base + |s.queue.entries| ==>
        && s'.queue.base <= k < s'.queue.base + |s'.queue.entries|
        && s'.queue.entries[k - s'.queue.base] == s.queue.entries[k - s.queue.base]
  }

  /** A thread that connection `c0` neither leaves nor comes to is not affected by its move. */
  lemma Bystander(s: Pool, s': Pool, c0: Conn, u: nat)
    requires u < |s.threads| && u < |s'.threads| && ThreadHolds(s, u) && Publishes(s, u)
    requires s'.threads[u] == s.threads[u] && s'.owner - {c0} == s.owner - {c0} && KeepsEntry(s, s', u)
    requires !OwnedBy(s, c0, Held(u)) && !OwnedBy(s, c0, Claimed(u)) && !OwnedBy(s', c0, Held(u))
    ensures ThreadHolds(s', u) && Publishes(s', u)
  {
    forall c: Conn | c != c0 ensures OwnedBy(s', c, Held(u)) == OwnedBy(s, c, Held(u)) {
      assert c in s.owner <==> c in s.owner - {c0};
      assert c in s'.owner <==> c in s'.owner - {c0};
      assert c in s.owner ==> (s.owner - {c0})[c] == (s'.owner - {c0})[c];
    }
    if s.threads[u].at.Pub? {
      var c := s.threads[u].conn;
      assert c in s.owner - {c0} && (s.owner - {c0})[c] == (s'.owner - {c0})[c];
    }
  }

  /** The thread a connection comes to, and the thread one leaves. */
  lemma GainSelf(s: Pool, t: nat, c0: Conn, s': Pool)
    requires t < |s.threads| && t < |s'.threads| && ThreadHolds(s, t) && !s'.threads[t].at.Pub?
    requires s'.owner == s.owner[c0 := Held(t)] && !OwnedBy(s, c0, Held(t)) && Gains(s.threads[t], s'.threads[t], c0)
    ensures ThreadHolds(s', t) && Publishes(s', t)
  {
    assert forall c: Conn :: Holds(s'.threads[t], c) == Holds(s.threads[t], c) + One(c == c0);
    assert forall c: Conn :: c != c0 ==> OwnedBy(s', c, Held(t)) == OwnedBy(s, c, Held(t));
  }

  lemma LoseSelf(s: Pool, t: nat, c0: Conn, s': Pool)
    requires t < |s.threads| && t < |s'.threads| && ThreadHolds(s, t) && Loses(s.threads[t], s'.threads[t], c0)
    requires s'.owner - {c0} == s.owner - {c0} && !OwnedBy(s', c0, Held(t))
    ensures OwnedBy(s, c0, Held(t)) && ThreadHolds(s', t)
  {
    assert forall c: Conn :: Holds(s.threads[t], c) == Holds(s'.threads[t], c) + One(c == c0);
    assert Holds(s.threads[t], c0) >= 1;
    forall c: Conn | c != c0 ensures OwnedBy(s', c, Held(t)) == OwnedBy(s, c, Held(t)) {
      assert c in s.owner <==> c in s.owner - {c0};
      assert c in s.owner ==> (s.owner - {c0})[c] == (s'.owner - {c0})[c];
    }
  }

  lemma TakeThreads(s: Pool, t: nat, th': Thread)
    requires Ownership(s) && t < |s.threads| && OwnershipFits(s, s.threads[t], Take, th')
    ensures OwnedBy(s, s.queue.entries[0].value, Queued) && ThreadsOwn(After(s, t, Take, th'))
  {
    var s' := After(s, t, Take, th');
    var c0 := s.queue.entries[0].value;
    assert EntryOwned(s, 0);
    forall u: nat | u < |s'.threads| ensures ThreadHolds(s', u) && Publishes(s', u) {
      assert ThreadHolds(s, u) && Publishes(s, u);
      if u == t {
        GainSelf(s, t, c0, s');
      } else {
        Bystander(s, s', c0, u);
      }
    }
  }

  lemma TakeOwnership(s: Pool, t: nat, th': Thread)
    requires Ownership(s) && t < |s.threads| && OwnershipFits(s, s.threads[t], Take, th')
    ensures Ownership(After(s, t, Take, th'))
  {
    var s' := After(s, t, Take, th');
    var c0 := s.queue.entries[0].value;
    TakeThreads(s, t, th');
    var xs, xs' := ValuesOf(s.queue.entries), ValuesOf(s'.queue.entries);
    assert xs' == xs[1..];
    forall i: nat | i < |s'.queue.entries| ensures EntryOwned(s', i) {
      assert EntryOwned(s, i + 1);
      assert xs[0] != xs[i + 1];
    }
    forall c: Conn | c in s'.owner ensures OwnerKnown(s', c) {
      assert c != c0 ==> OwnerKnown(s, c);
      assert OwnerKnown(s, c0);
    }
  }

  lemma ClaimThreads(s: Pool, t: nat, c0: Conn, th': Thread)
    requires Ownership(s) && t < |s.threads| && OwnershipFits(s, s.threads[t], Claim(c0), th')
    ensures OwnedBy(s, c0, Held(t)) && ThreadsOwn(After(s, t, Claim(c0), th'))
  {
    var s' := After(s, t, Claim(c0), th');
    assert ThreadHolds(s, t);
    LoseSelf(s, t, c0, s');
    forall u: nat | u < |s'.threads| ensures ThreadHolds(s', u) && Publishes(s', u) {
      assert ThreadHolds(s, u) && Publishes(s, u);
      if u != t {
        Bystander(s, s', c0, u);
      }
    }
  }

  lemma ClaimOwnership(s: Pool, t: nat, c0: Conn, th': Thread)
    requires Ownership(s) && t < |s.threads| && OwnershipFits(s, s.threads[t], Claim(c0), th')
    ensures Ownership(After(s, t, Claim(c0), th'))
  {
    var s' := After(s, t, Claim(c0), th');
    ClaimThreads(s, t, c0, th');
    assert OwnerKnown(s, c0);
    var xs, xs' := ValuesOf(s.queue.entries), ValuesOf(s'.queue.entries);
    assert xs' == xs + [c0];
    forall i: nat | i < |s'.queue.entries| ensures EntryOwned(s', i) {
      assert i < |s.queue.entries| ==> EntryOwned(s, i);
    }
    forall i: nat | i < |xs| ensures xs[i] != c0 {
      assert EntryOwned(s, i);
    }
    forall c: Conn | c in s'.owner ensures OwnerKnown(s', c) {
      assert OwnerKnown(s, c);
      assert xs'[|xs|] == c0;
    }
  }

  lemma PublishSelf(s: Pool, t: nat, c0: Conn, s': Pool)
    requires t < |s.threads| && t < |s'.threads| && ThreadHolds(s, t) && !s'.threads[t].at.Pub?
    requires SameHoldings(s.threads[t], s'.threads[t])
    requires s'.owner == s.owner[c0 := Queued] && OwnedBy(s, c0, Claimed(t))
    ensures ThreadHolds(s', t) && Publishes(s', t)
  {
    assert forall c: Conn :: Holds(s'.threads[t], c) == Holds(s.threads[t], c);
    assert forall c: Conn :: OwnedBy(s', c, Held(t)) == OwnedBy(s, c, Held(t));
  }

  lemma PublishThreads(s: Pool, t: nat, c0: Conn, k: nat, th': Thread)
    requires Ownership(s) && t < |s.threads| && OwnershipFits(s, s.threads[t], Publish(c0, k), th')
    ensures OwnedBy(s, c0, Claimed(t)) && ThreadsOwn(After(s, t, Publish(c0, k), th'))
  {
    var s' := After(s, t, Publish(c0, k), th');
    assert Publishes(s, t);
    forall u: nat | u < |s'.threads| ensures ThreadHolds(s', u) && Publishes(s', u) {
      assert ThreadHolds(s, u) && Publishes(s, u);
      if u == t {
        PublishSelf(s, t, c0, s');
      } else {
        Bystander(s, s', c0, u);
      }
    }
  }

  lemma PublishOwnership(s: Pool, t: nat, c0: Conn, k: nat, th': Thread)
    requires Ownership(s) && t < |s.threads| && OwnershipFits(s, s.threads[t], Publish(c0, k), th')
    ensures Ownership(After(s, t, Publish(c0, k), th'))
  {
    var s' := After(s, t, Publish(c0, k), th');
    PublishThreads(s, t, c0, k, th');
    assert Publishes(s, t) && OwnerKnown(s, c0);
    var xs, xs' := ValuesOf(s.queue.entries), ValuesOf(s'.queue.entries);
    assert xs' == xs;
    forall i: nat | i < |s'.queue.entries| ensures EntryOwned(s', i) {
      assert EntryOwned(s, i);
      assert i != k - s.queue.base ==> xs[i] != xs[k - s.queue.base];
    }
    forall c: Conn | c in s'.owner ensures OwnerKnown(s', c) {
      assert OwnerKnown(s, c);
    }
  }

  function Gained(s: Pool, e: Effect): Conn
    requires e.New? || e.Reclaim?
  {
    if e.New? then s.nextConn else e.c
  }

  lemma GainThreads(s: Pool, t: nat, e: Effect, th': Thread)
    requires Ownership(s) && t < |s.threads| && OwnershipFits(s, s.threads[t], e, th')
    requires e.New? || e.Reclaim?
    ensures ThreadsOwn(After(s, t, e, th'))
  {
    var s' := After(s, t, e, th');
    var c0 := Gained(s, e);
    assert s'.owner == s.owner[c0 := Held(t)] && s'.queue == s.queue;
    assert c0 in s.owner ==> OwnerKnown(s, c0);
    assert Gains(s.threads[t], th', c0);
    forall u: nat | u < |s'.threads| ensures ThreadHolds(s', u) && Publishes(s', u) {
      assert ThreadHolds(s, u) && Publishes(s, u);
      if u == t {
        GainSelf(s, t, c0, s');
      } else {
        Bystander(s, s', c0, u);
      }
    }
  }

  /** A connection that nobody had in the queue or in hand comes into a thread's hands. */
  lemma GainOwnership(s: Pool, t: nat, e: Effect, th': Thread)
    requires Ownership(s) && t < |s.threads| && OwnershipFits(s, s.threads[t], e, th')
    requires e.New? || e.Reclaim?
    ensures Ownership(After(s, t, e, th'))
  {
    var s' := After(s, t, e, th');
    GainThreads(s, t, e, th');
    assert Gained(s, e) in s.owner ==> OwnerKnown(s, Gained(s, e));
    forall i: nat | i < |s'.queue.entries| ensures EntryOwned(s', i) {
      assert EntryOwned(s, i);
    }
    forall c: Conn | c in s'.owner ensures OwnerKnown(s', c) {
      assert c in s.owner ==> OwnerKnown(s, c);
    }
  }

  lemma DestroyThreads(s: Pool, t: nat, c0: Conn, th': Thread)
    requires Ownership(s) && t < |s.threads| && OwnershipFits(s, s.threads[t], Destroy(c0), th')
    ensures OwnedBy(s, c0, Held(t)) && ThreadsOwn(After(s, t, Destroy(c0), th'))
  {
    var s' := After(s, t, Destroy(c0), th');
    assert ThreadHolds(s, t);
    LoseSelf(s, t, c0, s');
    forall u: nat | u < |s'.threads| ensures ThreadHolds(s', u) && Publishes(s', u) {
      assert ThreadHolds(s, u) && Publishes(s, u);
      if u != t {
        Bystander(s, s', c0, u);
      }
    }
  }

  lemma DestroyOwnership(s: Pool, t: nat, c0: Conn, th': Thread)
    requires Ownership(s) && t < |s.threads| && OwnershipFits(s, s.threads[t], Destroy(c0), th')
    ensures Ownership(After(s, t, Destroy(c0), th'))
  {
    var s' := After(s, t, Destroy(c0), th');
    DestroyThreads(s, t, c0, th');
    forall i: nat | i < |s'.queue.entries| ensures EntryOwned(s', i) {
      assert EntryOwned(s, i);
    }
    forall c: Conn | c in s'.owner ensures OwnerKnown(s', c) {
      assert OwnerKnown(s, c);
    }
  }

  lemma LendThreads(s: Pool, t: nat, c0: Conn, th': Thread)
    requires Ownership(s) && t < |s.threads| && OwnershipFits(s, s.threads[t], Lend(c0), th')
    ensures OwnedBy(s, c0, Held(t)) && ThreadsOwn(After(s, t, Lend(c0), th'))
  {
    var s' := After(s, t, Lend(c0), th');
    assert ThreadHolds(s, t);
    LoseSelf(s, t, c0, s');
    forall u: nat | u < |s'.threads| ensures ThreadHolds(s', u) && Publishes(s', u) {
      assert ThreadHolds(s, u) && Publishes(s, u);
      if u != t {
        Bystander(s, s', c0, u);
      }
    }
  }

  lemma LendOwnership(s: Pool, t: nat, c0: Conn, th': Thread)
    requires Ownership(s) && t < |s.threads| && OwnershipFits(s, s.threads[t], Lend(c0), th')
    ensures Ownership(After(s, t, Lend(c0), th'))
  {
    var s' := After(s, t, Lend(c0), th');
    LendThreads(s, t, c0, th');
    forall i: nat | i < |s'.queue.entries| ensures EntryOwned(s', i) {
      assert EntryOwned(s, i);
    }
    forall c: Conn | c in s'.owner ensures OwnerKnown(s', c) {
      assert OwnerKnown(s, c);
    }
  }

  lemma StepOwnership(s: Pool, t: nat, e: Effect, th': Thread)
    requires Ownership(s) && t < |s.threads| && OwnershipFits(s, s.threads[t], e, th')
    ensures Ownership(After(s, t, e, th'))
  {
    if Aside(e) {
      AsideIsUnmoved(s, t, e);
      UnmovedOwnership(s, After(s, t, e, th'), t);
    } else {
      match e
      case Take => TakeOwnership(s, t, th');
      case Claim(c) => ClaimOwnership(s, t, c, th');
      case Publish(c, k) => PublishOwnership(s, t, c, k, th');
      case NotifyAll => UnmovedOwnership(s, After(s, t, e, th'), t);
      case Destroy(c) => DestroyOwnership(s, t, c, th');
      case Lend(c) => LendOwnership(s, t, c, th');
      case _ => GainOwnership(s, t, e, th');
    }
  }
}
