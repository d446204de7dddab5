/** A round of the maintenance thread that nobody disturbs: what it keeps, discards, puts back and asks for. */
module DbPoolRound {
  import opened DbPool
  import opened DbPoolInvariant
  import opened DbPoolAlone
  import Q = QueueSpec

  /** What a round depends on and changes, besides tickets and history. */
  datatype Gist = Gist(
    maxSize: nat, minIdle: nat, entries: seq<Q.Entry<Conn>>, cap: nat, total: int, idle: int, waiters: int,
    needReplenish: bool, stopped: bool, lock: Option<nat>, registry: set<Conn>, createQueue: nat, borrowed: set<Conn>)

  function GistOf(s: Pool): Gist {
    Gist(s.maxSize, s.minIdle, s.queue.entries, s.queue.cap, s.total, s.idle, s.waiters, s.needReplenish, s.stopped,
      s.lock, s.registry, s.createQueue, s.borrowed)
  }

  // ----- Draining the idle queue -----

  /** How many entries can be taken before one is not published. */
  function Ready(entries: seq<Q.Entry<Conn>>): (n: nat)
    ensures n <= |entries|
  {
    if entries == [] || !entries[0].published then 0 else 1 + Ready(entries[1..])
  }

  lemma DrainOnce(s: Pool, th: Thread, before: seq<Action>, s1: Pool, th1: Thread)
    returns (actions: seq<Action>, s': Pool, th': Thread)
    requires Leads(s, 0, th, before, s1, th1) && th1.at.MDrain? && th1.grip.Nothing? && Q.HeadPublished(s1.queue)
    ensures Leads(s, 0, th, actions, s', th') && th'.at.MDrain?
    ensures th' == th1.(conn := th'.conn, todo := th1.todo + [s1.queue.entries[0].value])
    ensures GistOf(s') == GistOf(s1).(entries := s1.queue.entries[1..], idle := s1.idle - 1) && s'.threads == s1.threads
  {
    var c := s1.queue.entries[0].value;
    var s2;
    actions, s2 := On(s, 0, th, before, s1, th1, GO, Take, th1.(at := MUncount, conn := c, grip := Mine));
    actions, s', th' := CountOnce(s, th, actions, s2, th1.(at := MUncount, conn := c, grip := Mine));
  }

  lemma CountOnce(s: Pool, th: Thread, before: seq<Action>, s1: Pool, th1: Thread)
    returns (actions: seq<Action>, s': Pool, th': Thread)
    requires Leads(s, 0, th, before, s1, th1) && th1.at.MUncount?
    ensures Leads(s, 0, th, actions, s', th') && s' == Perform(s1, 0, IdleSub)
    ensures th' == th1.(at := MDrain, todo := th1.todo + [th1.conn], grip := Nothing)
  {
    th' := th1.(at := MDrain, todo := th1.todo + [th1.conn], grip := Nothing);
    actions, s' := On(s, 0, th, before, s1, th1, GO, IdleSub, th');
  }

  lemma ValuesFirst(todo: seq<Conn>, entries: seq<Q.Entry<Conn>>, n: nat)
    requires 0 < n <= |entries|
    ensures todo + [entries[0].value] + ValuesOf(entries[1..][..n - 1]) == todo + ValuesOf(entries[..n])
    ensures entries[1..][n - 1..] == entries[n..]
  {
    assert ValuesOf(entries[..n]) == [entries[0].value] + ValuesOf(entries[1..][..n - 1]);
  }

  lemma {:induction false} Drains(s: Pool, th: Thread, before: seq<Action>, s1: Pool, th1: Thread)
    returns (actions: seq<Action>, s': Pool, th': Thread)
    requires Leads(s, 0, th, before, s1, th1) && th1.at.MDrain? && th1.grip.Nothing?
    ensures Leads(s, 0, th, actions, s', th')
    ensures var n := Ready(s1.queue.entries);
      && th' == th1.(at := MPing, conn := th'.conn, todo := th1.todo + ValuesOf(s1.queue.entries[..n]))
      && GistOf(s') == GistOf(s1).(entries := s1.queue.entries[n..], idle := s1.idle - n) && s'.threads == s1.threads
    decreases |s1.queue.entries|
  {
    var entries := s1.queue.entries;
    if Q.HeadPublished(s1.queue) {
      var s2, th2;
      actions, s2, th2 := DrainOnce(s, th, before, s1, th1);
      actions, s', th' := Drains(s, th, actions, s2, th2);
      ValuesFirst(th1.todo, entries, Ready(entries));
    } else {
      actions, s', th' := EndsDrain(s, th, before, s1, th1);
      assert th1.todo + ValuesOf(entries[..0]) == th1.todo && entries[0..] == entries;
    }
  }

  lemma EndsDrain(s: Pool, th: Thread, before: seq<Action>, s1: Pool, th1: Thread)
    returns (actions: seq<Action>, s': Pool, th': Thread)
    requires Leads(s, 0, th, before, s1, th1) && th1.at.MDrain? && !Q.HeadPublished(s1.queue)
    ensures Leads(s, 0, th, actions, s', th') && s' == s1 && th' == th1.(at := MPing)
  {
    th' := th1.(at := MPing);
    actions, s' := On(s, 0, th, before, s1, th1, GO, Nop, th');
  }

  // ----- The keepalive round -----

  /** Those of some connections that answer, and those that do not. */
  function Passed(conns: seq<Conn>, answers: seq<bool>): seq<Conn>
    requires |answers| == |conns|
  {
    if conns == [] then [] else (if answers[0] then [conns[0]] else []) + Passed(conns[1..], answers[1..])
  }

  function Failed(conns: seq<Conn>, answers: seq<bool>): seq<Conn>
    requires |answers| == |conns|
  {
    if conns == [] then [] else (if answers[0] then [] else [conns[0]]) + Failed(conns[1..], answers[1..])
  }

  /** Some connections discarded. */
  function Less(g: Gist, conns: seq<Conn>): Gist {
    g.(total := g.total - |conns|, registry := g.registry - (set c | c in conns))
  }

  lemma LessNone(g: Gist)
    ensures Less(g, []) == g
  {
    var none: seq<Conn> := [];
    assert (set c | c in none) == {};
  }

  lemma LessOne(g: Gist, c: Conn, rest: seq<Conn>)
    ensures Less(g.(total := g.total - 1, registry := g.registry - {c}), rest) == Less(g, [c] + rest)
  {
    assert (set x | x in [c] + rest) == {c} + (set x | x in rest);
  }

  lemma PingOnce(s: Pool, th: Thread, before: seq<Action>, s1: Pool, th1: Thread, answers: bool)
    returns (actions: seq<Action>, s': Pool, th': Thread)
    requires Leads(s, 0, th, before, s1, th1) && th1.at.MPing? && th1.grip.Nothing? && th1.todo != []
    ensures Leads(s, 0, th, actions, s', th') && s'.threads == s1.threads
    ensures th' == th1.(conn := th'.conn, role := th'.role, todo := th1.todo[1..],
      healthy := th1.healthy + if answers then [th1.todo[0]] else [])
    ensures GistOf(s')
      == if answers then GistOf(s1) else GistOf(s1).(total := s1.total - 1, registry := s1.registry - {th1.todo[0]})
  {
    var c := th1.todo[0];
    if answers {
      th' := th1.(todo := th1.todo[1..], healthy := th1.healthy + [c]);
      actions, s' := On(s, 0, th, before, s1, th1, GO, Nop, th');
    } else {
      var th2 := th1.(todo := th1.todo[1..], conn := c, grip := Mine, role := FirstRound, at := CountOff);
      var s2;
      actions, s2 := On(s, 0, th, before, s1, th1, Go(Bad), Nop, th2);
      actions, s', th' := FromCountOff(s, 0, th, actions, s2, th2);
      assert th1.healthy + [] == th1.healthy;
    }
  }

  lemma PingedOn(g: Gist, healthy: seq<Conn>, conns: seq<Conn>, answers: seq<bool>)
    requires |answers| == |conns| && conns != []
    ensures healthy + (if answers[0] then [conns[0]] else []) + Passed(conns[1..], answers[1..])
      == healthy + Passed(conns, answers)
    ensures Less(if answers[0] then g else g.(total := g.total - 1, registry := g.registry - {conns[0]}),
        Failed(conns[1..], answers[1..]))
      == Less(g, Failed(conns, answers))
  {
    var passed, failed := Passed(conns[1..], answers[1..]), Failed(conns[1..], answers[1..]);
    if answers[0] {
      assert [] + failed == failed;
    } else {
      assert [] + passed == passed && healthy + [] == healthy;
      LessOne(g, conns[0], failed);
    }
  }

  lemma {:induction false} Pings(s: Pool, th: Thread, before: seq<Action>, s1: Pool, th1: Thread, answers: seq<bool>)
    returns (actions: seq<Action>, s': Pool, th': Thread)
    requires Leads(s, 0, th, before, s1, th1) && th1.at.MPing? && th1.grip.Nothing? && |answers| == |th1.todo|
    ensures Leads(s, 0, th, actions, s', th') && s'.threads == s1.threads
    ensures th' == th1.(conn := th'.conn, role := th'.role, todo := [], healthy := th1.healthy + Passed(th1.todo, answers))
    ensures GistOf(s') == Less(GistOf(s1), Failed(th1.todo, answers))
    decreases |th1.todo|
  {
    if th1.todo == [] {
      actions, s', th' := before, s1, th1;
      assert th1.healthy + [] == th1.healthy;
      LessNone(GistOf(s1));
    } else {
      var s2, th2;
      actions, s2, th2 := PingOnce(s, th, before, s1, th1, answers[0]);
      actions, s', th' := Pings(s, th, actions, s2, th2, answers[1..]);
      PingedOn(GistOf(s1), th1.healthy, th1.todo, answers);
    }
  }

  // ----- The second round -----

  /** A connection past its lifetime goes, one idle for too long while there are some to spare; the rest stay. */
  predicate Stays(verdict: Verdict, surplus: nat) {
    verdict.Good? || (verdict.Stale? && surplus == 0)
  }

  function Spared(verdict: Verdict, surplus: nat): nat {
    if verdict.Stale? && surplus > 0 then surplus - 1 else surplus
  }

  function Kept(conns: seq<Conn>, verdicts: seq<Verdict>, surplus: nat): seq<Conn>
    requires |verdicts| == |conns|
    decreases |conns|
  {
    if conns == [] then []
    else
      (if Stays(verdicts[0], surplus) then [conns[0]] else [])
      + Kept(conns[1..], verdicts[1..], Spared(verdicts[0], surplus))
  }

  function Dropped(conns: seq<Conn>, verdicts: seq<Verdict>, surplus: nat): seq<Conn>
    requires |verdicts| == |conns|
    decreases |conns|
  {
    if conns == [] then []
    else
      (if Stays(verdicts[0], surplus) then [] else [conns[0]])
      + Dropped(conns[1..], verdicts[1..], Spared(verdicts[0], surplus))
  }

  /** Connections put back, published. */
  function Entries(conns: seq<Conn>): seq<Q.Entry<Conn>> {
    seq(|conns|, i requires 0 <= i < |conns| => Q.Entry(conns[i], true))
  }

  function More(g: Gist, conns: seq<Conn>): Gist {
    g.(entries := g.entries + Entries(conns), idle := g.idle + |conns|)
  }

  lemma MoreNone(g: Gist)
    ensures More(g, []) == g
  {
    assert g.entries + Entries([]) == g.entries;
  }

  lemma MoreOne(g: Gist, c: Conn, rest: seq<Conn>)
    ensures More(g.(entries := g.entries + [Q.Entry(c, true)], idle := g.idle + 1), rest) == More(g, [c] + rest)
  {
    assert Entries([c] + rest) == [Q.Entry(c, true)] + Entries(rest);
    assert g.entries + [Q.Entry(c, true)] + Entries(rest) == g.entries + ([Q.Entry(c, true)] + Entries(rest));
  }

  lemma KeepOnce(s: Pool, th: Thread, before: seq<Action>, s1: Pool, th1: Thread, verdict: Verdict)
    returns (actions: seq<Action>, s': Pool, th': Thread)
    requires Leads(s, 0, th, before, s1, th1) && th1.at.MSecond? && th1.grip.Nothing? && th1.todo != []
    requires Stays(verdict, th1.surplus) && |s1.queue.entries| < s1.queue.cap
    ensures Leads(s, 0, th, actions, s', th') && s'.threads == s1.threads
    ensures th' == th1.(conn := th'.conn, role := SecondRound, ticket := th'.ticket, todo := th1.todo[1..], requeued := true)
    ensures GistOf(s')
      == GistOf(s1).(entries := s1.queue.entries + [Q.Entry(th1.todo[0], true)], idle := s1.idle + 1)
  {
    var th2 := th1.(todo := th1.todo[1..], conn := th1.todo[0], grip := Mine, role := SecondRound, at := Spin);
    var s2;
    actions, s2 := On(s, 0, th, before, s1, th1, Go(verdict), Nop, th2);
    actions, s', th' := FromSpin(s, 0, th, actions, s2, th2);
  }

  lemma DropOnce(s: Pool, th: Thread, before: seq<Action>, s1: Pool, th1: Thread, verdict: Verdict)
    returns (actions: seq<Action>, s': Pool, th': Thread)
    requires Leads(s, 0, th, before, s1, th1) && th1.at.MSecond? && th1.grip.Nothing? && th1.todo != []
    requires !Stays(verdict, th1.surplus)
    ensures Leads(s, 0, th, actions, s', th') && s'.threads == s1.threads
    ensures th' == th1.(conn := th'.conn, role := SecondRound, todo := th1.todo[1..], surplus := Spared(verdict, th1.surplus))
    ensures GistOf(s') == GistOf(s1).(total := s1.total - 1, registry := s1.registry - {th1.todo[0]})
  {
    var s2, th2;
    actions, s2, th2 := BeginDrop(s, th, before, s1, th1, verdict);
    actions, s', th' := FromCountOff(s, 0, th, actions, s2, th2);
  }

  lemma BeginDrop(s: Pool, th: Thread, before: seq<Action>, s1: Pool, th1: Thread, verdict: Verdict)
    returns (actions: seq<Action>, s': Pool, th': Thread)
    requires Leads(s, 0, th, before, s1, th1) && th1.at.MSecond? && th1.todo != [] && !Stays(verdict, th1.surplus)
    ensures Leads(s, 0, th, actions, s', th') && s' == s1
    ensures th' == th1.(todo := th1.todo[1..], conn := th1.todo[0], grip := Mine, role := SecondRound, at := CountOff,
      surplus := Spared(verdict, th1.surplus))
  {
    th' := th1.(todo := th1.todo[1..], conn := th1.todo[0], grip := Mine, role := SecondRound, at := CountOff,
      surplus := Spared(verdict, th1.surplus));
    actions, s' := On(s, 0, th, before, s1, th1, Go(verdict), Nop, th');
  }

  /** What the second round makes of the pool. */
  function Sifted(g: Gist, conns: seq<Conn>, verdicts: seq<Verdict>, surplus: nat): Gist
    requires |verdicts| == |conns|
  {
    Less(More(g, Kept(conns, verdicts, surplus)), Dropped(conns, verdicts, surplus))
  }

  function SiftedOne(g: Gist, c: Conn, stays: bool): Gist {
    if stays then g.(entries := g.entries + [Q.Entry(c, true)], idle := g.idle + 1)
    else g.(total := g.total - 1, registry := g.registry - {c})
  }

  lemma SiftedOn(g: Gist, conns: seq<Conn>, verdicts: seq<Verdict>, surplus: nat)
    requires |verdicts| == |conns| && conns != []
    ensures var g1 := SiftedOne(g, conns[0], Stays(verdicts[0], surplus));
      Sifted(g1, conns[1..], verdicts[1..], Spared(verdicts[0], surplus)) == Sifted(g, conns, verdicts, surplus)
  {
    var c, surplus' := conns[0], Spared(verdicts[0], surplus);
    var back, out := Kept(conns[1..], verdicts[1..], surplus'), Dropped(conns[1..], verdicts[1..], surplus');
    if Stays(verdicts[0], surplus) {
      MoreOne(g, c, back);
      assert [] + out == out;
    } else {
      assert [] + back == back;
      LessOne(More(g, back), c, out);
    }
  }

  lemma SiftOnce(s: Pool, th: Thread, before: seq<Action>, s1: Pool, th1: Thread, verdict: Verdict)
    returns (actions: seq<Action>, s': Pool, th': Thread)
    requires Leads(s, 0, th, before, s1, th1) && th1.at.MSecond? && th1.grip.Nothing? && th1.todo != []
    requires Stays(verdict, th1.surplus) ==> |s1.queue.entries| < s1.queue.cap
    ensures Leads(s, 0, th, actions, s', th') && s'.threads == s1.threads
    ensures th'.at.MSecond? && th'.grip.Nothing? && th'.todo == th1.todo[1..] && th'.healthy == th1.healthy
    ensures th'.surplus == Spared(verdict, th1.surplus)
    ensures th'.requeued <==> th1.requeued || Stays(verdict, th1.surplus)
    ensures GistOf(s') == SiftedOne(GistOf(s1), th1.todo[0], Stays(verdict, th1.surplus))
  {
    if Stays(verdict, th1.surplus) {
      actions, s', th' := KeepOnce(s, th, before, s1, th1, verdict);
    } else {
      actions, s', th' := DropOnce(s, th, before, s1, th1, verdict);
    }
  }

  lemma {:induction false} Sifts(s: Pool, th: Thread, before: seq<Action>, s1: Pool, th1: Thread, verdicts: seq<Verdict>)
    returns (actions: seq<Action>, s': Pool, th': Thread)
    requires Leads(s, 0, th, before, s1, th1) && th1.at.MSecond? && th1.grip.Nothing? && |verdicts| == |th1.todo|
    requires var kept := Kept(th1.todo, verdicts, th1.surplus); kept == [] || |s1.queue.entries| + |kept| <= s1.queue.cap
    ensures Leads(s, 0, th, actions, s', th') && s'.threads == s1.threads
    ensures th'.at.MSecond? && th'.grip.Nothing? && th'.todo == [] && th'.healthy == th1.healthy
    ensures th'.requeued <==> th1.requeued || Kept(th1.todo, verdicts, th1.surplus) != []
    ensures GistOf(s') == Sifted(GistOf(s1), th1.todo, verdicts, th1.surplus)
    decreases |th1.todo|
  {
    if th1.todo == [] {
      actions, s', th' := before, s1, th1;
      MoreNone(GistOf(s1));
      LessNone(GistOf(s1));
    } else {
      var s2, th2;
      actions, s2, th2 := SiftOnce(s, th, before, s1, th1, verdicts[0]);
      SiftedOn(GistOf(s1), th1.todo, verdicts, th1.surplus);
      actions, s', th' := Sifts(s, th, actions, s2, th2, verdicts[1..]);
    }
  }

  // ----- The end of a round -----

  /** How many connections are asked for: what is missing, as far as the limit allows. */
  function Wanted(g: Gist): nat {
    Max(0, Min(g.minIdle - g.idle, g.maxSize - g.total))
  }

  lemma SubmitOnce(s: Pool, th: Thread, before: seq<Action>, s1: Pool, th1: Thread)
    returns (actions: seq<Action>, s': Pool, th': Thread)
    requires Leads(s, 0, th, before, s1, th1) && th1.at.MSubmit?
    ensures Leads(s, 0, th, actions, s', th')
    ensures if th1.need == 0 then s' == s1 && th' == th1.(at := MSleep)
      else s' == s1.(createQueue := s1.createQueue + 1) && th' == th1.(need := th1.need - 1)
  {
    th' := if th1.need == 0 then th1.(at := MSleep) else th1.(need := th1.need - 1);
    actions, s' := On(s, 0, th, before, s1, th1, GO, if th1.need == 0 then Nop else Submit, th');
  }

  lemma {:induction false} Submits(s: Pool, th: Thread, before: seq<Action>, s1: Pool, th1: Thread)
    returns (actions: seq<Action>, s': Pool, th': Thread)
    requires Leads(s, 0, th, before, s1, th1) && th1.at.MSubmit?
    ensures Leads(s, 0, th, actions, s', th') && th' == th1.(at := MSleep, need := 0)
    ensures s' == s1.(createQueue := s1.createQueue + th1.need)
    decreases th1.need
  {
    actions, s', th' := SubmitOnce(s, th, before, s1, th1);
    if th1.need > 0 {
      var s2, th2 := s', th';
      actions, s', th' := Submits(s, th, actions, s2, th2);
    }
  }

  /** Where a round ends: asleep, with so many connections more promised and asked for. */
  predicate Asked(s: Pool, th: Thread, s': Pool, th': Thread, n: nat) {
    && s' == s.(total := s.total + n, createQueue := s.createQueue + n)
    && th' == th.(at := MSleep, need := th'.need)
  }

  lemma FromReserve(s: Pool, th: Thread, before: seq<Action>, s1: Pool, th1: Thread)
    returns (actions: seq<Action>, s': Pool, th': Thread)
    requires Leads(s, 0, th, before, s1, th1) && th1.at.MReserve?
    ensures Leads(s, 0, th, actions, s', th') && Asked(s1, th1, s', th', th1.need)
  {
    var s2;
    actions, s2 := Reserves(s, th, before, s1, th1);
    actions, s', th' := Submits(s, th, actions, s2, th1.(at := MSubmit));
  }

  lemma Reserves(s: Pool, th: Thread, before: seq<Action>, s1: Pool, th1: Thread) returns (actions: seq<Action>, s': Pool)
    requires Leads(s, 0, th, before, s1, th1) && th1.at.MReserve?
    ensures Leads(s, 0, th, actions, s', th1.(at := MSubmit)) && s' == s1.(total := s1.total + th1.need)
  {
    actions, s' := On(s, 0, th, before, s1, th1, GO, Reserve(th1.need), th1.(at := MSubmit));
  }

  lemma FromReadTotal(s: Pool, th: Thread, before: seq<Action>, s1: Pool, th1: Thread)
    returns (actions: seq<Action>, s': Pool, th': Thread)
    requires Leads(s, 0, th, before, s1, th1) && th1.at.MReadTotal? && th1.need == s1.minIdle - s1.idle
    ensures Leads(s, 0, th, actions, s', th') && Asked(s1, th1, s', th', Wanted(GistOf(s1)))
  {
    actions, s', th' := Grants(s, th, before, s1, th1);
    if th'.at.MReserve? {
      var s2, th2 := s', th';
      actions, s', th' := FromReserve(s, th, actions, s2, th2);
    }
  }

  lemma Grants(s: Pool, th: Thread, before: seq<Action>, s1: Pool, th1: Thread)
    returns (actions: seq<Action>, s': Pool, th': Thread)
    requires Leads(s, 0, th, before, s1, th1) && th1.at.MReadTotal?
    ensures Leads(s, 0, th, actions, s', th') && s' == s1
    ensures var granted := Min(th1.need, s1.maxSize - s1.total);
      th' == if granted <= 0 then th1.(at := MSleep) else th1.(at := MReserve, need := granted)
  {
    var granted := Min(th1.need, s1.maxSize - s1.total);
    th' := if granted <= 0 then th1.(at := MSleep) else th1.(at := MReserve, need := granted);
    actions, s' := On(s, 0, th, before, s1, th1, GO, Nop, th');
  }

  lemma FromReadIdle(s: Pool, th: Thread, before: seq<Action>, s1: Pool, th1: Thread)
    returns (actions: seq<Action>, s': Pool, th': Thread)
    requires Leads(s, 0, th, before, s1, th1) && th1.at.MReadIdle?
    ensures Leads(s, 0, th, actions, s', th') && Asked(s1, th1, s', th', Wanted(GistOf(s1)))
  {
    actions, s', th' := ReadsIdle(s, th, before, s1, th1);
    if th'.at.MReadTotal? {
      var s2, th2 := s', th';
      actions, s', th' := FromReadTotal(s, th, actions, s2, th2);
    }
  }

  lemma ReadsIdle(s: Pool, th: Thread, before: seq<Action>, s1: Pool, th1: Thread)
    returns (actions: seq<Action>, s': Pool, th': Thread)
    requires Leads(s, 0, th, before, s1, th1) && th1.at.MReadIdle?
    ensures Leads(s, 0, th, actions, s', th') && s' == s1
    ensures th'
      == if s1.idle >= s1.minIdle then th1.(at := MSleep) else th1.(at := MReadTotal, need := s1.minIdle - s1.idle)
  {
    th' := if s1.idle >= s1.minIdle then th1.(at := MSleep) else th1.(at := MReadTotal, need := s1.minIdle - s1.idle);
    actions, s' := On(s, 0, th, before, s1, th1, GO, Nop, th');
  }

  lemma FromNeed(s: Pool, th: Thread, before: seq<Action>, s1: Pool, th1: Thread)
    returns (actions: seq<Action>, s': Pool, th': Thread)
    requires Leads(s, 0, th, before, s1, th1) && th1.at.MNeed?
    ensures Leads(s, 0, th, actions, s', th') && Asked(s1, th1, s', th', Wanted(GistOf(s1)))
  {
    var s2;
    if s1.needReplenish {
      actions, s2 := On(s, 0, th, before, s1, th1, GO, Nop, th1.(at := MReadIdle));
      actions, s', th' := FromReadIdle(s, th, actions, s2, th1.(at := MReadIdle));
    } else {
      actions, s2 := On(s, 0, th, before, s1, th1, GO, Nop, th1.(at := MNeedIdle));
      actions, s', th' := FromNeedIdle(s, th, actions, s2, th1.(at := MNeedIdle));
    }
  }

  lemma FromNeedIdle(s: Pool, th: Thread, before: seq<Action>, s1: Pool, th1: Thread)
    returns (actions: seq<Action>, s': Pool, th': Thread)
    requires Leads(s, 0, th, before, s1, th1) && th1.at.MNeedIdle?
    ensures Leads(s, 0, th, actions, s', th') && Asked(s1, th1, s', th', Wanted(GistOf(s1)))
  {
    if s1.idle < s1.minIdle {
      var s2;
      actions, s2 := On(s, 0, th, before, s1, th1, GO, Nop, th1.(at := MReadIdle));
      actions, s', th' := FromReadIdle(s, th, actions, s2, th1.(at := MReadIdle));
    } else {
      th' := th1.(at := MSleep);
      actions, s' := On(s, 0, th, before, s1, th1, GO, Nop, th');
    }
  }

  lemma FromLow(s: Pool, th: Thread, before: seq<Action>, s1: Pool, th1: Thread)
    returns (actions: seq<Action>, s': Pool, th': Thread)
    requires Leads(s, 0, th, before, s1, th1) && th1.at.MLow?
    ensures Leads(s, 0, th, actions, s', th') && Asked(Flagged(s1), th1, s', th', Wanted(GistOf(s1)))
  {
    var s2;
    if s1.idle < s1.minIdle {
      actions, s2 := On(s, 0, th, before, s1, th1, GO, Nop, th1.(at := MLowFlag));
      actions, s2 := FromLowFlag(s, th, actions, s2, th1.(at := MLowFlag));
    } else {
      actions, s2 := On(s, 0, th, before, s1, th1, GO, Nop, th1.(at := MNeed));
    }
    actions, s', th' := FromNeed(s, th, actions, s2, th1.(at := MNeed));
  }

  lemma FromLowFlag(s: Pool, th: Thread, before: seq<Action>, s1: Pool, th1: Thread)
    returns (actions: seq<Action>, s': Pool)
    requires Leads(s, 0, th, before, s1, th1) && th1.at.MLowFlag?
    ensures Leads(s, 0, th, actions, s', th1.(at := MNeed)) && s' == s1.(needReplenish := true)
  {
    actions, s' := On(s, 0, th, before, s1, th1, GO, SetNeed(true), th1.(at := MNeed));
  }

  /** A round: too few connections being idle is flagged, and as many asked for as are missing and allowed. */
  function Replenished(g: Gist): Gist {
    g.(needReplenish := g.needReplenish || g.idle < g.minIdle, total := g.total + Wanted(g),
       createQueue := g.createQueue + Wanted(g))
  }

  lemma EndsSecond(s: Pool, th: Thread, before: seq<Action>, s1: Pool, th1: Thread)
    returns (actions: seq<Action>, s': Pool, th': Thread)
    requires Leads(s, 0, th, before, s1, th1) && th1.at.MSecond? && th1.todo == []
    ensures Leads(s, 0, th, actions, s', th') && s' == s1
    ensures th' == th1.(role := SecondRound, at := if th1.requeued then SeeWaiters else MLow)
  {
    th' := th1.(role := SecondRound, at := if th1.requeued then SeeWaiters else MLow);
    actions, s' := On(s, 0, th, before, s1, th1, GO, Nop, th');
  }

  /** The scan is over: whoever waits is woken if anything was put back. */
  lemma FromSifted(s: Pool, th: Thread, before: seq<Action>, s1: Pool, th1: Thread)
    returns (actions: seq<Action>, s': Pool, th': Thread)
    requires Leads(s, 0, th, before, s1, th1) && th1.at.MSecond? && th1.todo == [] && s1.lock.None?
    ensures Leads(s, 0, th, actions, s', th') && th'.at.MSleep? && th'.todo == [] && th'.healthy == th1.healthy
    ensures th'.grip == th1.grip && !th'.requeued
    ensures s'.threads == if th1.requeued && s1.waiters > 0 then WakeAll(s1.threads) else s1.threads
    ensures GistOf(s') == Replenished(GistOf(s1))
  {
    var s2, th2;
    actions, s2, th2 := EndsSecond(s, th, before, s1, th1);
    if th1.requeued {
      actions, s2, th2 := FromSeeWaiters(s, 0, th, actions, s2, th2);
    }
    actions, s', th' := FromLow(s, th, actions, s2, th2);
  }

  // ----- A whole round -----

  /** The pool after a scan, before anything is asked for. */
  function Scanned(g: Gist, answers: seq<bool>, verdicts: seq<Verdict>): Gist
    requires |answers| == Ready(g.entries) && |verdicts| == |Healthy(g.entries, answers)|
  {
    var healthy := Healthy(g.entries, answers);
    Sifted(Checked(g, answers), healthy, verdicts, Max(|healthy| - g.minIdle, 0))
  }

  lemma {:induction false} KeptSize(conns: seq<Conn>, verdicts: seq<Verdict>, surplus: nat)
    requires |verdicts| == |conns|
    ensures |Kept(conns, verdicts, surplus)| <= |conns|
    decreases |conns|
  {
    if conns != [] {
      KeptSize(conns[1..], verdicts[1..], Spared(verdicts[0], surplus));
    }
  }

  lemma {:induction false} PassedSize(conns: seq<Conn>, answers: seq<bool>)
    requires |answers| == |conns|
    ensures |Passed(conns, answers)| <= |conns|
    decreases |conns|
  {
    if conns != [] {
      PassedSize(conns[1..], answers[1..]);
    }
  }

  lemma FromReset(s: Pool, th: Thread, before: seq<Action>, s1: Pool, th1: Thread)
    returns (actions: seq<Action>, s': Pool)
    requires Leads(s, 0, th, before, s1, th1) && th1.at.MReset?
    ensures Leads(s, 0, th, actions, s', th1.(at := MDrain)) && s' == s1.(needReplenish := false)
  {
    actions, s' := On(s, 0, th, before, s1, th1, GO, SetNeed(false), th1.(at := MDrain));
  }

  lemma FromPinged(s: Pool, th: Thread, before: seq<Action>, s1: Pool, th1: Thread)
    returns (actions: seq<Action>, s': Pool, th': Thread)
    requires Leads(s, 0, th, before, s1, th1) && th1.at.MPing? && th1.todo == []
    ensures Leads(s, 0, th, actions, s', th') && s' == s1
    ensures th' == th1.(at := MSecond, todo := th1.healthy, healthy := [], surplus := Max(|th1.healthy| - s1.minIdle, 0))
  {
    th' := th1.(at := MSecond, todo := th1.healthy, healthy := [], surplus := Max(|th1.healthy| - s1.minIdle, 0));
    actions, s' := On(s, 0, th, before, s1, th1, GO, Nop, th');
  }

  /** The keepalive round, to the beginning of the second. */
  lemma PingsAll(s: Pool, th: Thread, before: seq<Action>, s1: Pool, th1: Thread, answers: seq<bool>)
    returns (actions: seq<Action>, s': Pool, th': Thread)
    requires Leads(s, 0, th, before, s1, th1) && th1.at.MPing? && th1.grip.Nothing? && th1.healthy == []
    requires |answers| == |th1.todo|
    ensures Leads(s, 0, th, actions, s', th') && s'.threads == s1.threads
    ensures var healthy := Passed(th1.todo, answers);
      th' == th1.(at := MSecond, conn := th'.conn, role := th'.role, todo := healthy, healthy := [],
        surplus := Max(|healthy| - s1.minIdle, 0))
    ensures GistOf(s') == Less(GistOf(s1), Failed(th1.todo, answers))
  {
    var s2, th2;
    actions, s2, th2 := Pings(s, th, before, s1, th1, answers);
    assert [] + Passed(th1.todo, answers) == Passed(th1.todo, answers);
    actions, s', th' := FromPinged(s, th, actions, s2, th2);
  }

  lemma DrainsAll(s: Pool, th: Thread, before: seq<Action>, s1: Pool, th1: Thread)
    returns (actions: seq<Action>, s': Pool, th': Thread)
    requires Leads(s, 0, th, before, s1, th1) && th1.at.MDrain? && th1.grip.Nothing? && th1.todo == []
    ensures Leads(s, 0, th, actions, s', th')
    ensures var n := Ready(s1.queue.entries);
      && th' == th1.(at := MPing, conn := th'.conn, todo := ValuesOf(s1.queue.entries[..n]))
      && GistOf(s') == GistOf(s1).(entries := s1.queue.entries[n..], idle := s1.idle - n) && s'.threads == s1.threads
  {
    actions, s', th' := Drains(s, th, before, s1, th1);
    var values := ValuesOf(s1.queue.entries[..Ready(s1.queue.entries)]);
    assert [] + values == values;
  }

  /** The connections a scan may put back, the idle ones that answer, and how many of them are to spare. */
  function Healthy(entries: seq<Q.Entry<Conn>>, answers: seq<bool>): seq<Conn>
    requires |answers| == Ready(entries)
  {
    Passed(ValuesOf(entries[..Ready(entries)]), answers)
  }

  /** From the drained connections to the end of the second round. */
  lemma Scans(s: Pool, th: Thread, before: seq<Action>, s1: Pool, th1: Thread, answers: seq<bool>, verdicts: seq<Verdict>)
    returns (actions: seq<Action>, s': Pool, th': Thread)
    requires Leads(s, 0, th, before, s1, th1) && th1.at.MDrain? && th1.grip.Nothing?
    requires th1.todo == [] && th1.healthy == [] && !th1.requeued && !s1.needReplenish
    requires |answers| == Ready(s1.queue.entries) && |verdicts| == |Healthy(s1.queue.entries, answers)|
    requires |s1.queue.entries| <= s1.queue.cap
    ensures Leads(s, 0, th, actions, s', th') && s'.threads == s1.threads
    ensures th'.at.MSecond? && th'.grip.Nothing? && th'.todo == [] && th'.healthy == []
    ensures var healthy := Healthy(s1.queue.entries, answers);
      th'.requeued <==> Kept(healthy, verdicts, Max(|healthy| - s1.minIdle, 0)) != []
    ensures GistOf(s') == Scanned(GistOf(s1), answers, verdicts)
  {
    var s2, th2;
    actions, s2, th2 := Checks(s, th, before, s1, th1, answers);
    KeptSize(th2.todo, verdicts, th2.surplus);
    actions, s', th' := Sifts(s, th, actions, s2, th2, verdicts);
  }

  /** The idle queue drained and the connections that do not answer gone. */
  function Checked(g: Gist, answers: seq<bool>): Gist
    requires |answers| == Ready(g.entries)
  {
    var n := Ready(g.entries);
    Less(g.(needReplenish := false, entries := g.entries[n..], idle := g.idle - n), Failed(ValuesOf(g.entries[..n]), answers))
  }

  lemma Checks(s: Pool, th: Thread, before: seq<Action>, s1: Pool, th1: Thread, answers: seq<bool>)
    returns (actions: seq<Action>, s': Pool, th': Thread)
    requires Leads(s, 0, th, before, s1, th1) && th1.at.MDrain? && th1.grip.Nothing?
    requires th1.todo == [] && th1.healthy == [] && !th1.requeued && !s1.needReplenish
    requires |answers| == Ready(s1.queue.entries)
    ensures Leads(s, 0, th, actions, s', th') && s'.threads == s1.threads && GistOf(s') == Checked(GistOf(s1), answers)
    ensures th'.at.MSecond? && th'.grip.Nothing? && th'.healthy == [] && !th'.requeued
    ensures var healthy := Healthy(s1.queue.entries, answers);
      && th'.todo == healthy && th'.surplus == Max(|healthy| - s1.minIdle, 0)
      && |s'.queue.entries| + |healthy| <= |s1.queue.entries|
  {
    var s2, th2;
    actions, s2, th2 := DrainsAll(s, th, before, s1, th1);
    PassedSize(th2.todo, answers);
    actions, s', th' := PingsAll(s, th, actions, s2, th2, answers);
  }

  /** The maintenance thread between two rounds, with nobody in the mutex. */
  predicate Between(s: Pool) {
    && 0 < |s.threads| && s.threads[0].at.MSleep? && s.threads[0].grip.Nothing? && !s.stopped && s.lock.None?
    && s.threads[0].todo == [] && s.threads[0].healthy == [] && !s.threads[0].requeued
  }

  lemma RoundBegins(s: Pool) returns (actions: seq<Action>, s': Pool, th': Thread)
    requires Between(s)
    ensures Leads(s, 0, s.threads[0], actions, s', th') && MoveTo(s, 0, s.threads[0]) == s
    ensures th' == s.threads[0].(at := MDrain) && s' == s.(needReplenish := false)
  {
    var th := s.threads[0];
    var s1 := FromStart(s, 0, GO, Nop, th.(at := MReset));
    actions, s' := FromReset(s, th, [GO], s1, th.(at := MReset));
    th' := th.(at := MDrain);
  }

  /** From the first drained connection to the end of the round. */
  lemma FromDrain(s: Pool, th: Thread, before: seq<Action>, s1: Pool, th1: Thread, answers: seq<bool>, verdicts: seq<Verdict>)
    returns (actions: seq<Action>, s': Pool, th': Thread)
    requires Leads(s, 0, th, before, s1, th1) && th1.at.MDrain? && th1.grip.Nothing? && s1.lock.None?
    requires th1.todo == [] && th1.healthy == [] && !th1.requeued && !s1.needReplenish
    requires |answers| == Ready(s1.queue.entries) && |verdicts| == |Healthy(s1.queue.entries, answers)|
    requires |s1.queue.entries| <= s1.queue.cap
    ensures Leads(s, 0, th, actions, s', th')
    ensures th'.at.MSleep? && th'.grip.Nothing? && th'.todo == [] && th'.healthy == [] && !th'.requeued
    ensures GistOf(s') == Replenished(Scanned(GistOf(s1), answers, verdicts))
    ensures var healthy := Healthy(s1.queue.entries, answers);
      s'.threads == if Kept(healthy, verdicts, Max(|healthy| - s1.minIdle, 0)) != [] && s1.waiters > 0
        then WakeAll(s1.threads) else s1.threads
  {
    var s2, th2;
    actions, s2, th2 := Scans(s, th, before, s1, th1, answers, verdicts);
    assert GistOf(s2).waiters == s1.waiters && GistOf(s2).lock == s1.lock;
    actions, s', th' := FromSifted(s, th, actions, s2, th2);
  }

  /**
   A round, undisturbed, whatever the checks on the connections say: of the idle connections those that do
   not answer go, then those past their lifetime and, while there are some to spare, those idle for too
   long; the others are put back in order, and if there are any whoever waits is woken. Then, if too few
   are idle, as many as are missing are asked for, up to the limit.
   */
  lemma AloneRound(s: Pool, answers: seq<bool>, verdicts: seq<Verdict>)
    returns (actions: seq<Action>, s': Pool, th': Thread)
    requires Between(s) && |s.queue.entries| <= s.queue.cap && |answers| == Ready(s.queue.entries)
    requires |verdicts| == |Healthy(s.queue.entries, answers)|
    ensures 0 < |s'.threads| && Run(s, Does(0, actions)) == MoveTo(s', 0, th')
    ensures th'.at.MSleep? && th'.grip.Nothing? && th'.todo == [] && th'.healthy == [] && !th'.requeued
    ensures GistOf(s') == Replenished(Scanned(GistOf(s), answers, verdicts))
    ensures var healthy := Healthy(s.queue.entries, answers);
      s'.threads == if Kept(healthy, verdicts, Max(|healthy| - s.minIdle, 0)) != [] && s.waiters > 0 then WakeAll(s.threads)
        else s.threads
  {
    var s1, th1;
    actions, s1, th1 := RoundBegins(s);
    ScannedResets(GistOf(s), answers, verdicts);
    actions, s', th' := FromDrain(s, s.threads[0], actions, s1, th1, answers, verdicts);
  }

  lemma ScannedResets(g: Gist, answers: seq<bool>, verdicts: seq<Verdict>)
    requires |answers| == Ready(g.entries) && |verdicts| == |Healthy(g.entries, answers)|
    ensures Scanned(g.(needReplenish := false), answers, verdicts) == Scanned(g, answers, verdicts)
  {
  }
}
