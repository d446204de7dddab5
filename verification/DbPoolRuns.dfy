/** Runs of the pool from its start, a call at a time, to where one would not expect it to come. */
module DbPoolRuns {
  import opened DbPool
  import opened DbPoolInvariant
  import opened DbPoolAlone
  import opened DbPoolRound
  import opened DbPoolCalls
  import opened DbPoolSafety
  import Q = QueueSpec

  lemma Onward(s: Pool, first: seq<Move>, s1: Pool, second: seq<Move>, s2: Pool)
    requires Run(s, first) == s1 && Run(s1, second) == s2
    ensures Run(s, first + second) == s2
  {
    RunOn(s, first, second);
  }

  // ----- A borrower comes between putting back and counting -----

  /** A good connection put back, but not yet counted. */
  lemma PutsBack(s: Pool, t: nat, c: Conn) returns (actions: seq<Action>, s': Pool, th': Thread)
    requires Rests(s, t) && c in s.borrowed && |s.queue.entries| < s.queue.cap
    ensures t < |s'.threads| && Run(s, Does(t, actions)) == MoveTo(s', t, th')
    ensures s'.queue.entries == s.queue.entries + [Q.Entry(c, true)] && s'.queue.base == s.queue.base
    ensures s'.idle == s.idle && s'.threads == s.threads && s'.lock == s.lock
    ensures s'.takers == s.takers && s'.waiting == s.waiting && s'.minIdle == s.minIdle
  {
    var th := s.threads[t];
    var th1 := th.(at := Return, conn := c, grip := Mine);
    var th2 := th1.(role := Releaser, at := Spin);
    var s1 := FromStart(s, t, CallReturn(c), Reclaim(c), th1);
    var s2;
    actions, s2 := On(s, t, th, [CallReturn(c)], s1, th1, GO, Nop, th2);
    actions, s', th' := Publishes(s, t, actions, s2, th2);
  }

  lemma Publishes(s: Pool, t: nat, before: seq<Action>, s1: Pool, th1: Thread)
    returns (actions: seq<Action>, s': Pool, th': Thread)
    requires t < |s.threads| && Leads(s, t, s.threads[t], before, s1, th1) && th1.at.Spin?
    requires |s1.queue.entries| < s1.queue.cap
    ensures Leads(s, t, s.threads[t], actions, s', th') && th'.at.Count?
    ensures s'.queue == s1.queue.(entries := s1.queue.entries + [Q.Entry(th1.conn, true)])
    ensures s' == s1.(queue := s'.queue, owner := s'.owner, adders := s'.adders)
  {
    var th := s.threads[t];
    var th2 := th1.(grip := InQueue, ticket := s1.queue.base + |s1.queue.entries|, at := Pub);
    var s2;
    actions, s2 := On(s, t, th, before, s1, th1, GO, Claim(th1.conn), th2);
    actions, s' := FromPub(s, t, th, actions, s2, th2);
    th' := th2.(at := Count, grip := Nothing, requeued := th1.role.SecondRound?);
    assert s'.queue.entries == s1.queue.entries + [Q.Entry(th1.conn, true)];
  }

  /**
   The idle counter does go below zero: from a pool of one idle connection, thread 1 borrows it, puts
   it back and is about to count it when thread 2 takes it and counts that first.
   */
  lemma IdleCountGoesNegative() returns (moves: seq<Move>)
    ensures Run(Start(Config(1, 1), 2, 3), moves).idle == -1
  {
    var s := Start(Config(1, 1), 2, 3);
    var a1, p1, th1 := AloneGet(s, 1);
    var s1 := MoveTo(p1, 1, th1);
    var a2, p2, th2 := PutsBack(s1, 1, 0);
    var s2 := MoveTo(p2, 1, th2);
    assert s2.threads[2] == s.threads[2];
    var a3, p3, th3 := AloneGet(s2, 2);
    Onward(s, Does(1, a1), s1, Does(1, a2), s2);
    Onward(s, Does(1, a1) + Does(1, a2), s2, Does(2, a3), MoveTo(p3, 2, th3));
    moves := Does(1, a1) + Does(1, a2) + Does(2, a3);
  }

  // ----- A scan that keeps nothing -----

  /** What a second round may find: idle for too long as long as there is one to spare, then past the lifetime. */
  function Findings(n: nat, surplus: nat): (verdicts: seq<Verdict>)
    ensures |verdicts| == n
  {
    if n == 0 then [] else [if surplus > 0 then Stale else Bad] + Findings(n - 1, Max(surplus - 1, 0))
  }

  lemma {:induction false} FindingsKeepNone(conns: seq<Conn>, surplus: nat)
    ensures var verdicts := Findings(|conns|, surplus);
      Kept(conns, verdicts, surplus) == [] && Dropped(conns, verdicts, surplus) == conns
    decreases |conns|
  {
    if conns != [] {
      FindingsKeepNone(conns[1..], Max(surplus - 1, 0));
    }
  }

  /**
   A scan may put back nothing at all, however many healthy connections it began its second round with:
   those to spare are used up on connections idle for too long, and every other is past its lifetime.
   */
  lemma ScanMayKeepNone(s: Pool) returns (actions: seq<Action>, s': Pool, th': Thread)
    requires 0 < |s.threads| && s.threads[0].at.MSecond? && s.threads[0].grip.Nothing?
    ensures 0 < |s'.threads| && Run(s, Does(0, actions)) == MoveTo(s', 0, th')
    ensures th'.at.MSecond? && th'.todo == [] && (th'.requeued <==> s.threads[0].requeued)
    ensures s'.queue.entries == s.queue.entries && s'.idle == s.idle && s'.total == s.total - |s.threads[0].todo|
  {
    var th := s.threads[0];
    FindingsKeepNone(th.todo, th.surplus);
    LeadsNowhere(s, 0, th);
    actions, s', th' := Sifts(s, th, [], s, th, Findings(|th.todo|, th.surplus));
    MoreNone(GistOf(s));
    assert s.threads[0 := th] == s.threads;
  }

  // ----- From the start: a scan that discards the one connection it had to keep -----

  /** In a reachable state with the mutex free, a thread in no call is ready for one. */
  lemma Resting(s: Pool, t: nat)
    requires Reachable(s) && 0 < t < |s.threads| && s.threads[t].at.Idle? && s.lock.None?
    ensures Rests(s, t) && t !in s.creating
  {
    assert LocalOk(t, s.threads[t]) && Explained(s.threads[t], s.stopped);
  }

  const CONFIG: Config := Config(2, 1)

  /** What the steps below need to know of a pool of room for two that keeps one idle. */
  predicate Small(s: Pool, moves: seq<Move>) {
    && s == Run(Start(CONFIG, 2, 3), moves) && |s.threads| == 3 && s.minIdle == 1 && s.maxSize == 2 && s.queue.cap == 2
    && Between(s) && s.threads[1].at.Idle? && s.threads[2].at.Idle?
  }

  lemma SmallRests(s: Pool, moves: seq<Move>)
    requires Small(s, moves)
    ensures Rests(s, 1) && Rests(s, 2) && 1 !in s.creating && 2 !in s.creating
  {
    StartReachable(CONFIG, 2, 3);
    RunReachable(Start(CONFIG, 2, 3), moves);
    Resting(s, 1);
    Resting(s, 2);
  }

  /** The one idle connection is borrowed. */
  lemma LendsOne() returns (moves: seq<Move>, s': Pool)
    ensures Small(s', moves) && s'.idle == 0 && s'.total == 1 && s'.queue.entries == [] && s'.borrowed == {0}
  {
    var s := Start(CONFIG, 2, 3);
    var actions, p, th := AloneGet(s, 1);
    moves, s' := Does(1, actions), MoveTo(p, 1, th);
  }

  /** A round asks for another. */
  lemma AsksForOne(s: Pool, before: seq<Move>) returns (moves: seq<Move>, s': Pool)
    requires Small(s, before) && s.idle == 0 && s.total == 1 && s.queue.entries == [] && s.borrowed == {0}
    ensures Small(s', moves) && s'.idle == 0 && s'.queue.entries == [] && s'.borrowed == {0} && s'.createQueue > 0
  {
    var actions, p, th := AloneRound(s, [], []);
    MoreNone(GistOf(s));
    moves, s' := before + Does(0, actions), MoveTo(p, 0, th);
    Onward(Start(CONFIG, 2, 3), before, s, Does(0, actions), s');
  }

  /** It is created. */
  lemma CreatesOne(s: Pool, before: seq<Move>) returns (moves: seq<Move>, s': Pool)
    requires Small(s, before) && s.idle == 0 && s.queue.entries == [] && s.borrowed == {0} && s.createQueue > 0
    ensures Small(s', moves) && s'.idle == 1 && |s'.queue.entries| == 1 && s'.queue.entries[0].published && s'.borrowed == {0}
  {
    SmallRests(s, before);
    var actions, p, th := AloneCreate(s, 2, true);
    moves, s' := before + Does(2, actions), MoveTo(p, 2, th);
    Onward(Start(CONFIG, 2, 3), before, s, Does(2, actions), s');
  }

  /** The first is put back: two are idle, one more than has to be. */
  lemma PutsBackOne(s: Pool, before: seq<Move>) returns (moves: seq<Move>, s': Pool)
    requires Small(s, before) && s.idle == 1 && |s.queue.entries| == 1 && s.queue.entries[0].published && s.borrowed == {0}
    ensures Small(s', moves) && s'.idle == 2 && |s'.queue.entries| == 2
    ensures s'.queue.entries[0].published && s'.queue.entries[1].published
  {
    SmallRests(s, before);
    var actions, p, th := AloneReturn(s, 1, 0, true);
    moves, s' := before + Does(1, actions), MoveTo(p, 1, th);
    Onward(Start(CONFIG, 2, 3), before, s, Does(1, actions), s');
  }

  lemma TwoReady(entries: seq<Q.Entry<Conn>>)
    requires |entries| == 2 && entries[0].published && entries[1].published
    ensures Ready(entries) == 2 && |Healthy(entries, [true, true])| == 2
  {
    assert entries[1..][0] == entries[1] && entries[1..][1..] == [];
    var drained := ValuesOf(entries[..2]);
    assert [true, true][1..] == [true] && [true][1..] == [];
    assert Passed(drained[1..], [true]) == [drained[1..][0]] + Passed(drained[1..][1..], []);
  }

  /** The one to spare goes as idle for too long, the other as past its lifetime. */
  lemma NoneLeft(g: Gist)
    requires |g.entries| == 2 && g.entries[0].published && g.entries[1].published && g.minIdle == 1 && g.idle == 2
    ensures Ready(g.entries) == 2 && |Healthy(g.entries, [true, true])| == 2
    ensures var scanned := Scanned(g, [true, true], [Stale, Bad]); scanned.entries == [] && scanned.idle == 0
  {
    TwoReady(g.entries);
    var healthy := Healthy(g.entries, [true, true]);
    assert [Stale, Bad][1..] == [Bad];
    assert Kept(healthy[1..], [Bad], 0) == [] + Kept(healthy[1..][1..], [Bad][1..], 0);
    assert Kept(healthy, [Stale, Bad], 1) == [] + Kept(healthy[1..], [Bad], 0);
  }

  /**
   What to spare is fixed before lifetimes are looked at: a run from the start leads to where two healthy
   connections are idle, one more than have to be, and a round that finds the one idle for too long and
   the other past its lifetime leaves none.
   */
  lemma ScanEndsBelowMinIdle() returns (moves: seq<Move>, before: Pool, actions: seq<Action>, after: Pool)
    ensures before == Run(Start(CONFIG, 2, 3), moves) && before.idle == |before.queue.entries| == 2 && before.minIdle == 1
    ensures Ready(before.queue.entries) == 2 && |Healthy(before.queue.entries, [true, true])| == 2
    ensures after == Run(before, Does(0, actions)) && after.idle == 0 && after.queue.entries == []
    ensures GistOf(after) == Replenished(Scanned(GistOf(before), [true, true], [Stale, Bad]))
  {
    moves, before := LendsOne();
    moves, before := AsksForOne(before, moves);
    moves, before := CreatesOne(before, moves);
    moves, before := PutsBackOne(before, moves);
    NoneLeft(GistOf(before));
    var p, th;
    actions, p, th := AloneRound(before, [true, true], [Stale, Bad]);
    after := MoveTo(p, 0, th);
  }
}
