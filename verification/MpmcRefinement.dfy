/**
 The lock-free queue refines its sequential meaning: every access of every thread either leaves
 the queue alone or is exactly one event of `QueueSpec`, and a call's answer is backed by one.
 */
module MpmcRefinement {
  import opened MpmcBoundedQueue
  import Q = QueueSpec

  ghost function EntryOf<T>(s: State<T>, p: nat): Q.Entry<T>
    requires Counters(s) && p < s.enq
  {
    Q.Entry(s.values[p], Published(s, p))
  }

  ghost function Abs<T>(s: State<T>): (q: Q.Queue<T>)
    requires Inv(s)
    ensures |q.entries| == s.enq - s.deq
    ensures forall i :: 0 <= i < |q.entries| ==> q.entries[i] == EntryOf(s, s.deq + i)
  {
    Q.Queue(
      s.Cap(),
      s.deq,
      seq(s.enq - s.deq, i requires 0 <= i < s.enq - s.deq => EntryOf(s, s.deq + i)),
      set p: nat | p < s.deq && ConsumerInFlight(s, p))
  }

  ghost function EventOf<T>(s: State<T>, t: nat, a: Action<T>): Q.Event<T>
    requires Inv(s) && t < |s.threads|
  {
    if !a.Go? then Q.Stutter
    else match s.threads[t]
      case EnqCas(item, pos) => if s.enq == pos && !a.spurious then Q.Claim(item) else Q.Stutter
      case EnqPublish(_, pos) => Q.Publish(pos)
      case DeqCas(pos) =>
        assert ThreadOk(s, t);
        ClaimableMeansRoom(s);
        if s.deq == pos && !a.spurious then Q.Take(s.values[pos]) else Q.Stutter
      case DeqRelease(pos, _) => Q.GiveBack(pos)
      case EnqSeq(_, _) => if Returns(s, t).Full? then Q.ReportFull else Q.Stutter
      case DeqSeq(_) => if Returns(s, t).Empty? then Q.ReportEmpty else Q.Stutter
      case _ => Q.Stutter
  }

  /** A step that changes no cell, cursor or ticket owner is invisible. */
  lemma LocalStepStutters<T>(s: State<T>, t: nat, a: Action<T>)
    requires Inv(s) && t < |s.threads| && Inv(Step(s, t, a))
    requires a.Go? ==> !HoldsTicket(s.threads[t]) && (a.spurious || !Claims(s, t))
    ensures Abs(Step(s, t, a)) == Abs(s)
  {
    var s' := Step(s, t, a);
    OtherStepIsLocal(s, t, a);
    assert forall p: nat :: ConsumerInFlight(s', p) == ConsumerInFlight(s, p);
    assert Abs(s').entries == Abs(s).entries;
    assert Abs(s').held == Abs(s).held;
  }

  lemma ClaimRefines<T>(s: State<T>, t: nat)
    requires Inv(s) && t < |s.threads| && Inv(Access(s, t, false))
    requires s.threads[t].EnqCas? && s.threads[t].pos == s.enq
    ensures Q.Happens(Abs(s), Q.Claim(s.threads[t].item), Abs(Access(s, t, false)))
  {
    var s' := Access(s, t, false);
    assert ThreadOk(s, t);
    ClaimableMeansRoom(s);
    assert forall p: nat :: ConsumerInFlight(s', p) == ConsumerInFlight(s, p);
    assert Abs(s').entries == Abs(s).entries + [Q.Entry(s.threads[t].item, false)];
    assert Abs(s').held == Abs(s).held;
  }

  lemma WriteStutters<T>(s: State<T>, t: nat)
    requires Inv(s) && t < |s.threads| && Inv(Access(s, t, false))
    requires s.threads[t].EnqWrite? || s.threads[t].DeqRead?
    ensures Abs(Access(s, t, false)) == Abs(s)
  {
    var s' := Access(s, t, false);
    assert ThreadOk(s, t);
    assert forall p: nat :: ConsumerInFlight(s', p) == ConsumerInFlight(s, p);
    assert Abs(s').entries == Abs(s).entries;
    assert Abs(s').held == Abs(s).held;
  }

  lemma PublishRefines<T>(s: State<T>, t: nat)
    requires Inv(s) && t < |s.threads| && Inv(Access(s, t, false)) && s.threads[t].EnqPublish?
    ensures Q.Happens(Abs(s), Q.Publish(s.threads[t].pos), Abs(Access(s, t, false)))
  {
    var s' := Access(s, t, false);
    var pos := s.threads[t].pos;
    assert ThreadOk(s, t);
    AllWindowSlotsDiffer(s, pos);
    assert forall p: nat :: ConsumerInFlight(s', p) == ConsumerInFlight(s, p);
    var e := Abs(s).entries;
    assert Abs(s').entries == e[pos - s.deq := e[pos - s.deq].(published := true)];
    assert Abs(s').held == Abs(s).held;
  }

  lemma TakeRefines<T>(s: State<T>, t: nat)
    requires Inv(s) && t < |s.threads| && Inv(Access(s, t, false))
    requires s.threads[t].DeqCas? && s.threads[t].pos == s.deq
    ensures s.deq < s.enq && Q.Happens(Abs(s), Q.Take(s.values[s.deq]), Abs(Access(s, t, false)))
  {
    var s' := Access(s, t, false);
    assert ThreadOk(s, t);
    ClaimableMeansRoom(s);
    assert forall p: nat :: p != s.deq ==> ConsumerInFlight(s', p) == ConsumerInFlight(s, p);
    assert Abs(s').entries == Abs(s).entries[1..];
    assert Abs(s').held == Abs(s).held + {s.deq};
  }

  lemma GiveBackRefines<T>(s: State<T>, t: nat)
    requires Inv(s) && t < |s.threads| && Inv(Access(s, t, false)) && s.threads[t].DeqRelease?
    ensures Q.Happens(Abs(s), Q.GiveBack(s.threads[t].pos), Abs(Access(s, t, false)))
  {
    var s' := Access(s, t, false);
    var pos := s.threads[t].pos;
    assert ThreadOk(s, t);
    NextLap(pos, s.Cap());
    AllWindowSlotsDiffer(s, pos + s.Cap());
    assert forall p: nat :: p != pos ==> ConsumerInFlight(s', p) == ConsumerInFlight(s, p);
    assert Abs(s').entries == Abs(s).entries;
    assert Abs(s').held == Abs(s).held - {pos};
  }

  lemma ReportRefines<T>(s: State<T>, t: nat)
    requires Inv(s) && t < |s.threads|
    ensures Returns(s, t).Full? ==> Q.Happens(Abs(s), Q.ReportFull, Abs(s))
    ensures Returns(s, t).Empty? ==> Q.Happens(Abs(s), Q.ReportEmpty, Abs(s))
  {
    if Returns(s, t).Full? {
      FullIsExplained(s, t);
      if s.enq < s.deq + s.Cap() {
        var p: nat :| SlotOf(p, s.Cap()) == SlotOf(s.threads[t].pos, s.Cap()) && ConsumerInFlight(s, p);
        assert p in Abs(s).held;
      }
    }
    if Returns(s, t).Empty? {
      EmptyIsExplained(s, t);
    }
  }

  /** Main result: each access of each thread is an event of the sequential queue, or invisible. */
  lemma StepRefines<T>(s: State<T>, t: nat, a: Action<T>)
    requires Inv(s) && t < |s.threads|
    ensures Inv(Step(s, t, a))
    ensures Q.Happens(Abs(s), EventOf(s, t, a), Abs(Step(s, t, a)))
  {
    StepInv(s, t, a);
    if a.Go? && (HoldsTicket(s.threads[t]) || (Claims(s, t) && !a.spurious)) {
      assert Step(s, t, a) == Access(s, t, false);
      match s.threads[t]
      case EnqCas(_, _) => ClaimRefines(s, t);
      case DeqCas(_) => TakeRefines(s, t);
      case EnqWrite(_, _) => WriteStutters(s, t);
      case DeqRead(_) => WriteStutters(s, t);
      case EnqPublish(_, _) => PublishRefines(s, t);
      case DeqRelease(_, _) => GiveBackRefines(s, t);
    } else {
      LocalStepStutters(s, t, a);
      ReportRefines(s, t);
    }
  }

  // ----- A thread on its own -----

  ghost predicate Quiet<T>(s: State<T>) {
    Inv(s) && forall t: nat :: t < |s.threads| ==> s.threads[t].Idle?
  }

  function Contents<T>(s: State<T>): seq<T>
    requires s.deq <= s.enq <= |s.values|
  {
    s.values[s.deq..s.enq]
  }

  function Alone<T>(s: State<T>, t: nat, steps: nat): (s': State<T>)
    requires s.Cap() > 0 && t < |s.threads|
    ensures s'.Cap() == s.Cap() && |s'.threads| == |s.threads|
  {
    if steps == 0 then s else Access(Alone(s, t, steps - 1), t, false)
  }

  lemma AloneInv<T>(s: State<T>, t: nat, steps: nat)
    requires Inv(s) && t < |s.threads|
    ensures Inv(Alone(s, t, steps))
  {
    if steps > 0 {
      AloneInv(s, t, steps - 1);
      StepInv(Alone(s, t, steps - 1), t, Go(false));
    }
  }

  /** With nobody else in a call, a slot is free exactly when the queue has room, published exactly when it has an item. */
  lemma QuietSlots<T>(s: State<T>)
    requires Quiet(s)
    ensures s.enq < s.deq + s.Cap() ==> SeqAt(s, s.enq) == s.enq
    ensures s.enq == s.deq + s.Cap() ==> SeqAt(s, s.enq) < s.enq
    ensures s.deq < s.enq ==> Published(s, s.deq)
    ensures s.deq == s.enq ==> SeqAt(s, s.deq) < s.deq + 1
  {
    assert WindowSlot(s, s.deq);
    NextLap(s.deq, s.Cap());
    if s.enq < s.deq + s.Cap() {
      assert WindowSlot(s, s.enq);
    }
  }

  lemma FirstFive<T>(s: State<T>, t: nat)
    requires s.Cap() > 0 && t < |s.threads|
    ensures Alone(s, t, 1) == Access(s, t, false)
    ensures Alone(s, t, 2) == Access(Alone(s, t, 1), t, false) && Alone(s, t, 3) == Access(Alone(s, t, 2), t, false)
    ensures Alone(s, t, 4) == Access(Alone(s, t, 3), t, false) && Alone(s, t, 5) == Access(Alone(s, t, 4), t, false)
  {
    assert Alone(s, t, 0) == s;
  }

  /** The call is over, and no other thread has moved. */
  ghost predicate Over<T>(s: State<T>, s': State<T>, t: nat)
    requires t < |s.threads| == |s'.threads|
  {
    s'.threads[t].Idle? && forall u: nat :: u < |s.threads| && u != t ==> s'.threads[u] == s.threads[u]
  }

  /** From the load of the cursor on, an undisturbed `enqueue` stores its item in a slot that is free. */
  lemma EnqueueRoom<T>(s: State<T>, t: nat, item: T)
    requires Inv(s) && t < |s.threads| && s.threads[t] == EnqLoad(item) && SeqAt(s, s.enq) == s.enq
    ensures Returns(Alone(s, t, 4), t) == Enqueued
    ensures var s' := Alone(s, t, 5);
      Over(s, s', t) && s'.enq == s.enq + 1 && s'.deq == s.deq && s'.values == s.values + [item]
      && s'.producers == s.producers + [t] && Published(s', s.enq)
  {
    FirstFive(s, t);
    assert Alone(s, t, 1) == Goto(s, t, EnqSeq(item, s.enq));
    assert Alone(s, t, 2) == Goto(s, t, EnqCas(item, s.enq));
    var s3 := Alone(s, t, 3);
    assert s3 == Goto(s, t, EnqWrite(item, s.enq)).(
      enq := s.enq + 1, values := s.values + [item], producers := s.producers + [t]);
    var s4 := Alone(s, t, 4);
    assert s4 == Goto(s3, t, EnqPublish(item, s.enq)).(cells := s4.cells);
  }

  /** It reports full at its second access where the slot is not. */
  lemma EnqueueNoRoom<T>(s: State<T>, t: nat, item: T)
    requires Inv(s) && t < |s.threads| && s.threads[t] == EnqLoad(item) && SeqAt(s, s.enq) < s.enq
    ensures Returns(Alone(s, t, 1), t) == Full && Alone(s, t, 5) == Goto(s, t, Idle)
  {
    FirstFive(s, t);
    assert Alone(s, t, 1) == Goto(s, t, EnqSeq(item, s.enq));
    assert Alone(s, t, 2) == Goto(s, t, Idle);
  }

  /** Likewise, `dequeue` returns what is published under the next ticket, or reports empty. */
  lemma DequeueSome<T>(s: State<T>, t: nat)
    requires Inv(s) && t < |s.threads| && s.threads[t] == DeqLoad && Published(s, s.deq)
    ensures s.deq < |s.values| && Returns(Alone(s, t, 4), t) == Dequeued(s.values[s.deq])
    ensures var s' := Alone(s, t, 5);
      Over(s, s', t) && s'.enq == s.enq && s'.deq == s.deq + 1 && s'.values == s.values
      && s'.consumers == s.consumers + [t]
  {
    ClaimableMeansRoom(s);
    FirstFive(s, t);
    assert WindowSlot(s, s.deq);
    assert Alone(s, t, 1) == Goto(s, t, DeqSeq(s.deq));
    assert Alone(s, t, 2) == Goto(s, t, DeqCas(s.deq));
    var s3 := Alone(s, t, 3);
    assert s3 == Goto(s, t, DeqRead(s.deq)).(deq := s.deq + 1, consumers := s.consumers + [t]);
    assert Alone(s, t, 4) == Goto(s3, t, DeqRelease(s.deq, s.values[s.deq]));
  }

  lemma DequeueNone<T>(s: State<T>, t: nat)
    requires Inv(s) && t < |s.threads| && s.threads[t] == DeqLoad && SeqAt(s, s.deq) < s.deq + 1
    ensures Returns(Alone(s, t, 1), t) == Empty && Alone(s, t, 5) == Goto(s, t, Idle)
  {
    FirstFive(s, t);
    assert Alone(s, t, 1) == Goto(s, t, DeqSeq(s.deq));
    assert Alone(s, t, 2) == Goto(s, t, Idle);
  }

  /** Undisturbed, `enqueue` takes five accesses and adds its item unless the queue is full. */
  lemma AloneEnqueue<T>(s: State<T>, t: nat, item: T)
    requires Quiet(s) && t < |s.threads|
    ensures var s1 := Step(s, t, StartEnqueue(item));
      var s' := Alone(s1, t, 5);
      && Quiet(s')
      && (|Contents(s)| < s.Cap() ==>
           Returns(Alone(s1, t, 4), t) == Enqueued && Contents(s') == Contents(s) + [item])
      && (|Contents(s)| == s.Cap() ==>
           Returns(Alone(s1, t, 1), t) == Full && Contents(s') == Contents(s))
  {
    var s1 := Step(s, t, StartEnqueue(item));
    StepInv(s, t, StartEnqueue(item));
    QuietSlots(s);
    AloneInv(s1, t, 5);
    if |Contents(s)| < s.Cap() {
      EnqueueRoom(s1, t, item);
    } else {
      EnqueueNoRoom(s1, t, item);
    }
  }

  /** Undisturbed, `dequeue` takes five accesses and returns the oldest item unless the queue is empty. */
  lemma AloneDequeue<T>(s: State<T>, t: nat)
    requires Quiet(s) && t < |s.threads|
    ensures var s1 := Step(s, t, StartDequeue);
      var s' := Alone(s1, t, 5);
      && Quiet(s')
      && (Contents(s) != [] ==>
           Returns(Alone(s1, t, 4), t) == Dequeued(Contents(s)[0]) && Contents(s') == Contents(s)[1..])
      && (Contents(s) == [] ==>
           Returns(Alone(s1, t, 1), t) == Empty && Contents(s') == [])
  {
    var s1 := Step(s, t, StartDequeue);
    StepInv(s, t, StartDequeue);
    QuietSlots(s);
    AloneInv(s1, t, 5);
    if Contents(s) != [] {
      DequeueSome(s1, t);
    } else {
      DequeueNone(s1, t);
    }
  }
}
