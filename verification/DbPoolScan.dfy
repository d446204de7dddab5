/**
 What one scan of the maintenance thread does to the connections found healthy: how many it puts
 back, and how many it discards as idle for too long or as past their lifetime.
 */
module DbPoolScan {
  import opened DbPool
  import opened DbPoolInvariant
  import opened DbPoolLocal
  import opened DbPoolOwnership
  import opened DbPoolLaws
  import opened DbPoolSafety
  import Q = QueueSpec

  /** The count of the second round: those it started with, and what became of those done with. */
  datatype Tally = Tally(healthy: nat, kept: nat, stale: nat, expired: nat)

  /** Keeping count, by watching the maintenance thread at `th` take its step. */
  function Judge(y: Tally, th: Thread, verdict: Verdict): Tally {
    match th.at
    case MPing => if th.todo == [] then Tally(|th.healthy|, 0, 0, 0) else y
    case MSecond =>
      if th.todo == [] then y
      else if verdict.Bad? then y.(expired := y.expired + 1)
      else if verdict.Stale? && th.surplus > 0 then y.(stale := y.stale + 1)
      else y
    case Pub => if th.role.SecondRound? then y.(kept := y.kept + 1) else y
    case _ => y
  }

  function Observe(y: Tally, s: Pool, m: Move): Tally {
    match m
    case ThreadStep(t, a) =>
      if t == 0 && |s.threads| > 0 then Judge(y, s.threads[0], if a.Go? then a.verdict else Good) else y
    case SlotReturn(_) => y
  }

  function Watch(y: Tally, s: Pool, moves: seq<Move>): Tally
    decreases |moves|
  {
    if moves == [] then y else Watch(Observe(y, s, moves[0]), Next(s, moves[0]), moves[1..])
  }

  /** Whether the maintenance thread is in the second round of a scan, notification aside. */
  predicate SecondRoundAt(th: Thread) {
    || th.at.MSecond?
    || (th.role.SecondRound? && (Discards(th.at) || th.at.Spin? || th.at.Pub? || th.at.Count?))
  }

  /** How many of `healthy` connections are to spare. */
  function Spare(healthy: nat, minIdle: nat): nat { Max(healthy - minIdle, 0) }

  predicate TallyOk(minIdle: nat, th: Thread, y: Tally) {
    && y.kept + y.stale + y.expired
         + (if SecondRoundAt(th) then |th.todo| + One(th.at.Spin? || th.at.Pub?) else 0) == y.healthy
    && y.stale + (if SecondRoundAt(th) then th.surplus else 0) <= Spare(y.healthy, minIdle)
    && (SecondRoundAt(th) ==> y.stale + th.surplus == Spare(y.healthy, minIdle))
  }

  lemma PingTally(s: Pool, th: Thread, verdict: Verdict, e: Effect, th': Thread, y: Tally)
    requires LocalOk(0, th) && th.at.MPing? && (e, th') == ScanStep(s, th, verdict)
    requires TallyOk(s.minIdle, th, y)
    ensures TallyOk(s.minIdle, th', Judge(y, th, verdict))
  {
  }

  lemma SecondTally(s: Pool, th: Thread, verdict: Verdict, e: Effect, th': Thread, y: Tally)
    requires th.at.MSecond? && (e, th') == ScanStep(s, th, verdict)
    requires TallyOk(s.minIdle, th, y)
    ensures TallyOk(s.minIdle, th', Judge(y, th, verdict))
  {
  }

  lemma PutTally(s: Pool, th: Thread, ok: bool, e: Effect, th': Thread, y: Tally, verdict: Verdict)
    requires LocalOk(0, th) && PartOf(th.at).Putting? && (e, th') == PutStep(s, th, ok)
    requires TallyOk(s.minIdle, th, y)
    ensures TallyOk(s.minIdle, th', Judge(y, th, verdict))
  {
  }

  lemma DiscardTally(s: Pool, th: Thread, e: Effect, th': Thread, y: Tally, verdict: Verdict)
    requires LocalOk(0, th) && PartOf(th.at).Discarding? && (e, th') == DiscardStep(s, th)
    requires TallyOk(s.minIdle, th, y)
    ensures TallyOk(s.minIdle, th', Judge(y, th, verdict))
  {
  }

  lemma NoticeTally(s: Pool, th: Thread, e: Effect, th': Thread, y: Tally, verdict: Verdict)
    requires LocalOk(0, th) && PartOf(th.at).Noticing? && (e, th') == NoticeStep(s, th)
    requires TallyOk(s.minIdle, th, y)
    ensures TallyOk(s.minIdle, th', Judge(y, th, verdict))
  {
  }

  lemma DrainTally(s: Pool, th: Thread, e: Effect, th': Thread, y: Tally, verdict: Verdict)
    requires LocalOk(0, th) && PartOf(th.at).Draining? && (e, th') == DrainStep(s, th)
    requires TallyOk(s.minIdle, th, y)
    ensures TallyOk(s.minIdle, th', Judge(y, th, verdict))
  {
  }

  lemma RoundTally(s: Pool, th: Thread, e: Effect, th': Thread, y: Tally, verdict: Verdict)
    requires LocalOk(0, th) && PartOf(th.at).Rounding? && (e, th') == RoundStep(s, th)
    requires TallyOk(s.minIdle, th, y)
    ensures TallyOk(s.minIdle, th', Judge(y, th, verdict))
  {
  }

  lemma ReplenishTally(s: Pool, th: Thread, e: Effect, th': Thread, y: Tally, verdict: Verdict)
    requires LocalOk(0, th) && PartOf(th.at).Replenishing? && (e, th') == ReplenishStep(s, th)
    requires TallyOk(s.minIdle, th, y)
    ensures TallyOk(s.minIdle, th', Judge(y, th, verdict))
  {
  }

  /** The maintenance thread neither borrows nor waits nor creates. */
  lemma MaintenanceOnly(th: Thread)
    requires LocalOk(0, th)
    ensures var part := PartOf(th.at);
      || part.Putting? || part.Noticing? || part.Discarding? || part.Draining? || part.Scanning?
      || part.Rounding? || part.Replenishing?
  {
  }

  lemma ProgramTally(s: Pool, th: Thread, a: Action, e: Effect, th': Thread, y: Tally)
    requires LocalOk(0, th) && (e, th') == Program(s, 0, th, a) && TallyOk(s.minIdle, th, y)
    ensures TallyOk(s.minIdle, th', Judge(y, th, if a.Go? then a.verdict else Good))
  {
    var verdict := if a.Go? then a.verdict else Good;
    MaintenanceOnly(th);
    match PartOf(th.at)
    case Putting => PutTally(s, th, a.Go? && a.verdict.Good?, e, th', y, verdict);
    case Noticing => NoticeTally(s, th, e, th', y, verdict);
    case Discarding => DiscardTally(s, th, e, th', y, verdict);
    case Draining => DrainTally(s, th, e, th', y, verdict);
    case Scanning =>
      if th.at.MPing? {
        PingTally(s, th, verdict, e, th', y);
      } else {
        SecondTally(s, th, verdict, e, th', y);
      }
    case Rounding => RoundTally(s, th, e, th', y, verdict);
    case Replenishing => ReplenishTally(s, th, e, th', y, verdict);
    case _ => assert false;
  }

  lemma StepTally(s: Pool, t: nat, a: Action, y: Tally)
    requires Inv(s) && TallyOk(s.minIdle, s.threads[0], y)
    ensures var s' := Step(s, t, a);
      0 < |s'.threads| && s'.minIdle == s.minIdle
      && TallyOk(s.minIdle, s'.threads[0], Observe(y, s, ThreadStep(t, a)))
  {
    if t < |s.threads| {
      var (e, th') := Program(s, t, s.threads[t], a);
      var s' := Step(s, t, a);
      assert LocalOk(0, s.threads[0]);
      StepTaken(s, t, a, e, th', s');
      PerformKeepsSizes(s, t, e, th');
      if t == 0 {
        ProgramTally(s, s.threads[0], a, e, th', y);
      }
    }
  }

  /** The count comes out right over any run. */
  lemma {:induction false} RunTally(s: Pool, moves: seq<Move>, y: Tally)
    requires Inv(s) && TallyOk(s.minIdle, s.threads[0], y)
    ensures var s' := Run(s, moves);
      0 < |s'.threads| && s'.minIdle == s.minIdle && TallyOk(s.minIdle, s'.threads[0], Watch(y, s, moves))
    decreases |moves|
  {
    if moves != [] {
      var next, y1 := Next(s, moves[0]), Observe(y, s, moves[0]);
      RunInv(s, [moves[0]]);
      assert Run(s, [moves[0]]) == Run(next, []) == next;
      match moves[0]
      case ThreadStep(t, a) =>
        StepTally(s, t, a, y);
        RunTally(next, moves[1..], y1);
      case SlotReturn(_) =>
        RunTally(next, moves[1..], y1);
    }
  }

  /**
   What a finished scan has done to the connections it found healthy. It discards no more as idle for
   too long than there were to spare, and puts back as many as have to be idle except for those past
   their lifetime. It puts back fewer than have to be idle exactly when more are past their lifetime
   than were to spare after those discarded as idle: what is to spare is not looked at again.
   */
  lemma ScanAccount(config: Config, cap: nat, threads: nat, moves: seq<Move>)
    requires 0 < threads && Max(1, config.maxPoolSize) <= cap
    requires var s := Run(Start(config, cap, threads), moves); 0 < |s.threads| && !SecondRoundAt(s.threads[0])
    ensures var s := Run(Start(config, cap, threads), moves);
      var y := Watch(Tally(0, 0, 0, 0), Start(config, cap, threads), moves);
      && y.kept + y.stale + y.expired == y.healthy
      && y.stale <= Spare(y.healthy, s.minIdle)
      && y.kept >= Min(y.healthy, s.minIdle) - y.expired
      && (y.kept < Min(y.healthy, s.minIdle) <==> y.expired > Spare(y.healthy, s.minIdle) - y.stale)
  {
    var s0 := Start(config, cap, threads);
    StartInv(config, cap, threads);
    RunTally(s0, moves, Tally(0, 0, 0, 0));
  }
}
