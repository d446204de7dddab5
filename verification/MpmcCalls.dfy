/**
 Whole calls of the lock-free queue: how a call that has begun may end, whatever other threads do in
 between, and that it does end where nobody disturbs it.
 */
module MpmcCalls {
  import opened MpmcBoundedQueue
  import opened MpmcRefinement

  /** In `enqueue(item)`, with no ticket yet. */
  predicate Tries<T(==)>(pc: Pc<T>, item: T) {
    (pc.EnqLoad? || pc.EnqSeq? || pc.EnqCas?) && pc.item == item
  }

  /** In `enqueue(item)`, with a ticket. */
  predicate Stores<T(==)>(pc: Pc<T>, item: T) {
    (pc.EnqWrite? || pc.EnqPublish?) && pc.item == item
  }

  predicate Seeks<T>(pc: Pc<T>) { pc.DeqLoad? || pc.DeqSeq? || pc.DeqCas? }

  predicate Fetches<T>(pc: Pc<T>) { pc.DeqRead? || pc.DeqRelease? }

  /** A call ends with an access exactly if it has an answer then; otherwise it goes on as the same call. */
  lemma EndsExactlyWithAnswer<T>(s: State<T>, t: nat, spurious: bool)
    requires Inv(s) && t < |s.threads| && !s.threads[t].Idle?
    ensures var pc, pc' := s.threads[t], Access(s, t, spurious).threads[t];
      && (pc'.Idle? <==> Returns(s, t) != Running)
      && (!pc'.Idle? ==> forall item :: Tries(pc, item) ==> Tries(pc', item) || Stores(pc', item))
      && (!pc'.Idle? ==> forall item :: Stores(pc, item) ==> Stores(pc', item))
      && (!pc'.Idle? && Seeks(pc) ==> Seeks(pc') || Fetches(pc'))
      && (!pc'.Idle? && Fetches(pc) ==> Fetches(pc'))
  {
  }

  // ----- A call among others -----

  /** Of the tickets from `from` on a producer has claimed none, or exactly one, under which its item stands. */
  ghost predicate NoTicket<T>(s: State<T>, t: nat, from: nat) {
    forall p: nat :: from <= p < |s.producers| ==> s.producers[p] != t
  }

  ghost predicate OneTicket<T>(s: State<T>, t: nat, from: nat, p: nat, item: T) {
    && from <= p < |s.producers| == |s.values| && s.producers[p] == t && s.values[p] == item
    && forall q: nat :: from <= q < |s.producers| && s.producers[q] == t ==> q == p
  }

  /** Since ticket `from`, thread `t` has been in `enqueue(item)`: with no ticket, or with the one it is storing. */
  ghost predicate Enqueueing<T>(s: State<T>, t: nat, from: nat, item: T)
    requires t < |s.threads|
  {
    var pc := s.threads[t];
    || (Tries(pc, item) && NoTicket(s, t, from))
    || (Stores(pc, item) && OneTicket(s, t, from, pc.pos, item))
  }

  /** How an `enqueue(item)` begun when `from` was the next ticket has ended, with its last access at `s`. */
  ghost predicate EnqueueEnded<T>(s: State<T>, s': State<T>, t: nat, from: nat, item: T)
    requires s.Cap() > 0 && t < |s.threads|
  {
    || (Returns(s, t) == Full && NoTicket(s', t, from))
    || (Returns(s, t) == Enqueued && exists p: nat :: OneTicket(s', t, from, p, item))
  }

  lemma TicketsStay<T>(s: State<T>, t: nat, from: nat, item: T, u: nat, a: Action<T>)
    requires Inv(s) && t < |s.threads| && u < |s.threads| && from <= s.enq && u != t
    ensures var s' := Step(s, u, a);
      && (NoTicket(s, t, from) ==> NoTicket(s', t, from))
      && forall p: nat :: OneTicket(s, t, from, p, item) ==> OneTicket(s', t, from, p, item)
  {
    var s' := Step(s, u, a);
    assert s'.producers == s.producers || s'.producers == s.producers + [u];
    assert s.values <= s'.values && |s'.values| == |s'.producers|;
  }

  lemma OwnEnqueueStep<T>(s: State<T>, t: nat, from: nat, item: T, a: Action<T>)
    requires Inv(s) && t < |s.threads| && from <= s.enq && Enqueueing(s, t, from, item)
    ensures var s' := Step(s, t, a);
      if s'.threads[t].Idle? then EnqueueEnded(s, s', t, from, item) else Enqueueing(s', t, from, item)
  {
    var s' := Step(s, t, a);
    assert ThreadOk(s, t);
    if s.threads[t].EnqPublish? && s'.threads[t].Idle? {
      assert OneTicket(s', t, from, s.threads[t].pos, item);
    }
  }

  lemma EnqueueStep<T>(s: State<T>, t: nat, from: nat, item: T, u: nat, a: Action<T>)
    requires Inv(s) && t < |s.threads| && u < |s.threads| && from <= s.enq && Enqueueing(s, t, from, item)
    ensures var s' := Step(s, u, a);
      if s'.threads[t].Idle? then u == t && EnqueueEnded(s, s', t, from, item) else Enqueueing(s', t, from, item)
    ensures from <= Step(s, u, a).enq
  {
    if u == t {
      OwnEnqueueStep(s, t, from, item, a);
    } else {
      assert Step(s, u, a).threads[t] == s.threads[t];
      TicketsStay(s, t, from, item, u, a);
    }
  }

  /** The same of a consumer and the tickets it takes. */
  ghost predicate NothingTaken<T>(s: State<T>, t: nat, from: nat) {
    forall p: nat :: from <= p < |s.consumers| ==> s.consumers[p] != t
  }

  ghost predicate OneTaken<T>(s: State<T>, t: nat, from: nat, p: nat) {
    && from <= p < |s.consumers| && s.consumers[p] == t
    && forall q: nat :: from <= q < |s.consumers| && s.consumers[q] == t ==> q == p
  }

  ghost predicate Dequeueing<T>(s: State<T>, t: nat, from: nat)
    requires t < |s.threads|
  {
    var pc := s.threads[t];
    || (Seeks(pc) && NothingTaken(s, t, from))
    || (Fetches(pc) && OneTaken(s, t, from, pc.pos))
  }

  /** How a `dequeue` begun when `from` was the next ticket to take has ended. */
  ghost predicate DequeueEnded<T>(s: State<T>, s': State<T>, t: nat, from: nat)
    requires s.Cap() > 0 && t < |s.threads|
  {
    || (Returns(s, t) == Empty && NothingTaken(s', t, from))
    || exists p: nat ::
        && OneTaken(s', t, from, p) && p < |s'.values| && Returns(s, t) == Dequeued(s'.values[p])
        && p in s'.delivered && s'.delivered[p] == s'.values[p]
  }

  lemma OwnDequeueStep<T>(s: State<T>, t: nat, from: nat, a: Action<T>)
    requires Inv(s) && t < |s.threads| && from <= s.deq && Dequeueing(s, t, from)
    ensures var s' := Step(s, t, a);
      if s'.threads[t].Idle? then DequeueEnded(s, s', t, from) else Dequeueing(s', t, from)
  {
    var s' := Step(s, t, a);
    assert ThreadOk(s, t);
    if s.threads[t].DeqRelease? && s'.threads[t].Idle? {
      var p := s.threads[t].pos;
      assert OneTaken(s', t, from, p) && p in s'.delivered;
    }
  }

  lemma TakenStay<T>(s: State<T>, t: nat, from: nat, u: nat, a: Action<T>)
    requires Inv(s) && t < |s.threads| && u < |s.threads| && u != t
    ensures var s' := Step(s, u, a);
      && (NothingTaken(s, t, from) ==> NothingTaken(s', t, from))
      && forall p: nat :: OneTaken(s, t, from, p) ==> OneTaken(s', t, from, p)
  {
    var s' := Step(s, u, a);
    assert s'.consumers == s.consumers || s'.consumers == s.consumers + [u];
  }

  lemma DequeueStep<T>(s: State<T>, t: nat, from: nat, u: nat, a: Action<T>)
    requires Inv(s) && t < |s.threads| && u < |s.threads| && from <= s.deq && Dequeueing(s, t, from)
    ensures var s' := Step(s, u, a);
      if s'.threads[t].Idle? then u == t && DequeueEnded(s, s', t, from) else Dequeueing(s', t, from)
    ensures from <= Step(s, u, a).deq
  {
    if u == t {
      OwnDequeueStep(s, t, from, a);
    } else {
      assert Step(s, u, a).threads[t] == s.threads[t];
      TakenStay(s, t, from, u, a);
    }
  }

  /** Thread `t` is in a call before every step of the schedule. */
  predicate Through<T>(s: State<T>, t: nat, schedule: Schedule<T>)
    requires s.Cap() > 0 && t < |s.threads| && Admissible(schedule, |s.threads|)
    decreases |schedule|
  {
    schedule == [] || (!s.threads[t].Idle? && Through(Step(s, schedule[0].0, schedule[0].1), t, schedule[1..]))
  }

  /** The state before the last step. */
  function Before<T>(s: State<T>, schedule: Schedule<T>): (s': State<T>)
    requires s.Cap() > 0 && Admissible(schedule, |s.threads|)
    ensures s'.Cap() == s.Cap() && |s'.threads| == |s.threads|
    decreases |schedule|
  {
    if |schedule| <= 1 then s else Before(Step(s, schedule[0].0, schedule[0].1), schedule[1..])
  }

  /** What every step of a call keeps until one ends it, a run of the call keeps until its last step. */
  lemma {:induction false} CallRuns<T>(s: State<T>, t: nat, schedule: Schedule<T>, keeps: State<T> -> bool,
      ends: (State<T>, State<T>) -> bool)
    requires Inv(s) && t < |s.threads| && keeps(s) && Admissible(schedule, |s.threads|) && Through(s, t, schedule)
    requires forall x: State<T>, u: nat, a: Action<T> {:trigger Step(x, u, a)} ::
      Inv(x) && t < |x.threads| && u < |x.threads| && keeps(x) ==>
        if Step(x, u, a).threads[t].Idle? then ends(x, Step(x, u, a)) else keeps(Step(x, u, a))
    ensures var s' := Run(s, schedule);
      if schedule != [] && s'.threads[t].Idle? then ends(Before(s, schedule), s') else keeps(s')
    decreases |schedule|
  {
    if schedule != [] {
      var s1, rest := Step(s, schedule[0].0, schedule[0].1), schedule[1..];
      StepInv(s, schedule[0].0, schedule[0].1);
      if s1.threads[t].Idle? {
        assert rest == [];
      } else {
        CallRuns(s1, t, rest, keeps, ends);
      }
    }
  }

  ghost predicate EnqueueGoing<T>(s: State<T>, t: nat, from: nat, item: T) {
    t < |s.threads| && from <= s.enq && Enqueueing(s, t, from, item)
  }

  ghost predicate EnqueueOver<T>(s: State<T>, s': State<T>, t: nat, from: nat, item: T) {
    s.Cap() > 0 && t < |s.threads| && EnqueueEnded(s, s', t, from, item)
  }

  lemma EnqueueGoes<T>(s: State<T>, t: nat, from: nat, item: T, u: nat, a: Action<T>)
    requires Inv(s) && t < |s.threads| && u < |s.threads| && EnqueueGoing(s, t, from, item)
    ensures var s' := Step(s, u, a);
      if s'.threads[t].Idle? then EnqueueOver(s, s', t, from, item) else EnqueueGoing(s', t, from, item)
  {
    EnqueueStep(s, t, from, item, u, a);
  }

  lemma EnqueueRuns<T>(s: State<T>, t: nat, from: nat, item: T, schedule: Schedule<T>)
    requires Inv(s) && t < |s.threads| && EnqueueGoing(s, t, from, item)
    requires Admissible(schedule, |s.threads|) && Through(s, t, schedule)
    ensures var s' := Run(s, schedule);
      s'.threads[t].Idle? ==> EnqueueOver(Before(s, schedule), s', t, from, item)
  {
    var keeps := (x: State<T>) => EnqueueGoing(x, t, from, item);
    var ends := (x: State<T>, y: State<T>) => EnqueueOver(x, y, t, from, item);
    forall x: State<T>, u: nat, a: Action<T> | Inv(x) && t < |x.threads| && u < |x.threads| && keeps(x)
      ensures if Step(x, u, a).threads[t].Idle? then ends(x, Step(x, u, a)) else keeps(Step(x, u, a))
    {
      EnqueueGoes(x, t, from, item, u, a);
    }
    assert !s.threads[t].Idle?;
    CallRuns(s, t, schedule, keeps, ends);
  }

  ghost predicate DequeueGoing<T>(s: State<T>, t: nat, from: nat) {
    t < |s.threads| && from <= s.deq && Dequeueing(s, t, from)
  }

  ghost predicate DequeueOver<T>(s: State<T>, s': State<T>, t: nat, from: nat) {
    s.Cap() > 0 && t < |s.threads| && DequeueEnded(s, s', t, from)
  }

  lemma DequeueGoes<T>(s: State<T>, t: nat, from: nat, u: nat, a: Action<T>)
    requires Inv(s) && t < |s.threads| && u < |s.threads| && DequeueGoing(s, t, from)
    ensures var s' := Step(s, u, a);
      if s'.threads[t].Idle? then DequeueOver(s, s', t, from) else DequeueGoing(s', t, from)
  {
    DequeueStep(s, t, from, u, a);
  }

  lemma DequeueRuns<T>(s: State<T>, t: nat, from: nat, schedule: Schedule<T>)
    requires Inv(s) && t < |s.threads| && DequeueGoing(s, t, from)
    requires Admissible(schedule, |s.threads|) && Through(s, t, schedule)
    ensures var s' := Run(s, schedule);
      s'.threads[t].Idle? ==> DequeueOver(Before(s, schedule), s', t, from)
  {
    var keeps := (x: State<T>) => DequeueGoing(x, t, from);
    var ends := (x: State<T>, y: State<T>) => DequeueOver(x, y, t, from);
    forall x: State<T>, u: nat, a: Action<T> | Inv(x) && t < |x.threads| && u < |x.threads| && keeps(x)
      ensures if Step(x, u, a).threads[t].Idle? then ends(x, Step(x, u, a)) else keeps(Step(x, u, a))
    {
      DequeueGoes(x, t, from, u, a);
    }
    assert !s.threads[t].Idle?;
    CallRuns(s, t, schedule, keeps, ends);
  }

  /**
   Every `enqueue` of every run: when it is over it has either reported full, and claimed no ticket
   since its start, or reported success, and claimed exactly one, under which its item stands.
   */
  lemma EveryEnqueue<T>(cap: nat, threads: nat, blank: T, before: Schedule<T>, t: nat, item: T, during: Schedule<T>)
    requires 2 <= cap && t < threads && Admissible(before, threads) && Admissible(during, threads)
    requires var s := Run(Init(cap, threads, blank), before);
      s.threads[t].Idle? && Through(Step(s, t, StartEnqueue(item)), t, during)
    ensures var s := Run(Init(cap, threads, blank), before);
      var s1 := Step(s, t, StartEnqueue(item));
      var s' := Run(s1, during);
      s'.threads[t].Idle? ==> EnqueueEnded(Before(s1, during), s', t, s.enq, item)
  {
    EveryInterleaving(cap, threads, blank, before);
    var s := Run(Init(cap, threads, blank), before);
    StepInv(s, t, StartEnqueue(item));
    EnqueueRuns(Step(s, t, StartEnqueue(item)), t, s.enq, item, during);
  }

  /**
   Every `dequeue` of every run: when it is over it has either reported empty, and taken no ticket since
   its start, or taken exactly one and returned the value stored under it, which is now delivered.
   */
  lemma EveryDequeue<T>(cap: nat, threads: nat, blank: T, before: Schedule<T>, t: nat, during: Schedule<T>)
    requires 2 <= cap && t < threads && Admissible(before, threads) && Admissible(during, threads)
    requires var s := Run(Init(cap, threads, blank), before);
      s.threads[t].Idle? && Through(Step(s, t, StartDequeue), t, during)
    ensures var s := Run(Init(cap, threads, blank), before);
      var s1 := Step(s, t, StartDequeue);
      var s' := Run(s1, during);
      s'.threads[t].Idle? ==> DequeueEnded(Before(s1, during), s', t, s.deq)
  {
    EveryInterleaving(cap, threads, blank, before);
    var s := Run(Init(cap, threads, blank), before);
    StepInv(s, t, StartDequeue);
    DequeueRuns(Step(s, t, StartDequeue), t, s.deq, during);
  }

  // ----- A call undisturbed, whatever the others have left -----

  lemma NotAhead<T>(s: State<T>)
    requires Inv(s)
    ensures SeqAt(s, s.enq) <= s.enq && SeqAt(s, s.deq) <= s.deq + 1
  {
    assert WindowSlot(s, s.deq);
    NextLap(s.deq, s.Cap());
    if s.enq < s.deq + s.Cap() {
      assert WindowSlot(s, s.enq);
    }
  }

  lemma AloneMore<T>(s: State<T>, t: nat, m: nat, n: nat)
    requires s.Cap() > 0 && t < |s.threads|
    ensures Alone(Alone(s, t, m), t, n) == Alone(s, t, m + n)
  {
    if n > 0 {
      AloneMore(s, t, m, n - 1);
    }
  }

  lemma AloneFirst<T>(s: State<T>, t: nat)
    requires s.Cap() > 0 && t < |s.threads|
    ensures Alone(s, t, 1) == Access(s, t, false)
  {
    assert Alone(s, t, 0) == s;
  }

  lemma AloneLoadOrTicket<T>(s: State<T>, t: nat) returns (n: nat)
    requires Inv(s) && t < |s.threads|
    requires HoldsTicket(s.threads[t]) || s.threads[t].EnqLoad? || s.threads[t].DeqLoad?
    ensures n <= 4 && Returns(Alone(s, t, n), t) != Running
  {
    AloneFirst(s, t);
    NotAhead(s);
    match s.threads[t] {
      case EnqLoad(item) =>
        if SeqAt(s, s.enq) == s.enq {
          EnqueueRoom(s, t, item);
          n := 4;
        } else {
          EnqueueNoRoom(s, t, item);
          n := 1;
        }
      case DeqLoad =>
        if Published(s, s.deq) {
          DequeueSome(s, t);
          n := 4;
        } else {
          DequeueNone(s, t);
          n := 1;
        }
      case EnqWrite(_, _) => n := 1;
      case DeqRead(_) => n := 1;
      case EnqPublish(_, _) => n := 0;
      case DeqRelease(_, _) => n := 0;
    }
  }

  predicate Loads<T>(pc: Pc<T>) { pc.EnqLoad? || pc.DeqLoad? }

  predicate Swaps<T>(pc: Pc<T>) { pc.EnqCas? || pc.DeqCas? }

  predicate Looks<T>(pc: Pc<T>) { pc.EnqSeq? || pc.DeqSeq? }

  /** One access of an undisturbed call that does not answer yet. */
  lemma AloneNext<T>(s: State<T>, t: nat) returns (s1: State<T>)
    requires Inv(s) && t < |s.threads| && (Looks(s.threads[t]) || Swaps(s.threads[t])) && Returns(s, t) == Running
    ensures Inv(s1) && t < |s1.threads|
    ensures var pc := s1.threads[t];
      Loads(pc) || if Looks(s.threads[t]) then Swaps(pc) else HoldsTicket(pc)
    ensures forall k: nat {:trigger Alone(s1, t, k)} :: Alone(s1, t, k) == Alone(s, t, k + 1)
  {
    s1 := Access(s, t, false);
    StepInv(s, t, Go(false));
    AloneFirst(s, t);
    forall k: nat ensures Alone(s1, t, k) == Alone(s, t, k + 1) {
      AloneMore(s, t, 1, k);
    }
  }

  lemma AloneFromCas<T>(s: State<T>, t: nat) returns (n: nat)
    requires Inv(s) && t < |s.threads| && Swaps(s.threads[t])
    ensures n <= 5 && Returns(Alone(s, t, n), t) != Running
  {
    var s1 := AloneNext(s, t);
    n := AloneLoadOrTicket(s1, t);
    n := n + 1;
  }

  lemma AloneFromSeq<T>(s: State<T>, t: nat) returns (n: nat)
    requires Inv(s) && t < |s.threads| && Looks(s.threads[t]) && Returns(s, t) == Running
    ensures n <= 6 && Returns(Alone(s, t, n), t) != Running
  {
    var s1 := AloneNext(s, t);
    if Swaps(s1.threads[t]) {
      n := AloneFromCas(s1, t);
    } else {
      n := AloneLoadOrTicket(s1, t);
    }
    n := n + 1;
  }

  /** Whatever others have left undone, a call that nobody disturbs any more answers within seven accesses. */
  lemma AloneAnswers<T>(s: State<T>, t: nat) returns (n: nat)
    requires Inv(s) && t < |s.threads| && !s.threads[t].Idle?
    ensures n <= 6 && Returns(Alone(s, t, n), t) != Running && Alone(s, t, n + 1).threads[t].Idle?
  {
    if Returns(s, t) != Running {
      n := 0;
    } else if Looks(s.threads[t]) {
      n := AloneFromSeq(s, t);
    } else if Swaps(s.threads[t]) {
      n := AloneFromCas(s, t);
    } else {
      n := AloneLoadOrTicket(s, t);
    }
    AnswerEnds(s, t, n);
  }

  lemma AnswerEnds<T>(s: State<T>, t: nat, n: nat)
    requires Inv(s) && t < |s.threads| && Returns(Alone(s, t, n), t) != Running
    ensures Alone(s, t, n + 1).threads[t].Idle?
  {
    AloneInv(s, t, n);
    EndsExactlyWithAnswer(Alone(s, t, n), t, false);
  }
}
