/**
 The bounded multi-producer multi-consumer queue, one atomic access per step.

 Every load, compare-and-swap and store of `enqueue` and `dequeue` is a separate step of one of
 any number of threads; each thread keeps its own program counter and its own, possibly stale,
 copy of the cursor. Steps are sequentially consistent and tickets are unbounded.
 */
module MpmcBoundedQueue {
  import QueueSpec

  datatype Cell<T> = Cell(sequence: nat, data: T)

  /** Where a thread stands; `pos` is its local copy of the cursor. */
  datatype Pc<T> =
    | Idle
    | EnqLoad(item: T)               // about to load the enqueue cursor
    | EnqSeq(item: T, pos: nat)      // about to load the slot's sequence
    | EnqCas(item: T, pos: nat)      // saw sequence == pos, about to compare-and-swap
    | EnqWrite(item: T, pos: nat)    // owns the ticket, about to write the data
    | EnqPublish(item: T, pos: nat)  // about to store sequence pos + 1
    | DeqLoad
    | DeqSeq(pos: nat)
    | DeqCas(pos: nat)
    | DeqRead(pos: nat)              // owns the ticket, about to read the data
    | DeqRelease(pos: nat, out: T)   // about to store sequence pos + capacity

  /**
   Shared memory, the threads, and four history sequences that no step reads: the value and the
   producer of every claimed ticket, the consumer of every taken ticket, and what each finished
   `dequeue` returned.
   */
  datatype State<T> = State(
    cells: seq<Cell<T>>,
    enq: nat,
    deq: nat,
    threads: seq<Pc<T>>,
    values: seq<T>,
    producers: seq<nat>,
    consumers: seq<nat>,
    delivered: map<nat, T>)
  {
    function Cap(): nat { |cells| }
  }

  /** `Go(spurious)` performs the thread's next access; a weak compare-and-swap may fail for no reason. */
  datatype Action<T> = StartEnqueue(item: T) | StartDequeue | Go(spurious: bool)

  datatype Outcome<T> = Running | Enqueued | Full | Dequeued(value: T) | Empty

  function SlotOf(pos: nat, cap: nat): (i: nat)
    requires cap > 0
    ensures i < cap
  {
    pos % cap
  }

  function SeqAt<T>(s: State<T>, pos: nat): nat
    requires s.Cap() > 0
  {
    s.cells[SlotOf(pos, s.Cap())].sequence
  }

  function Goto<T>(s: State<T>, t: nat, pc: Pc<T>): State<T>
    requires t < |s.threads|
  {
    s.(threads := s.threads[t := pc])
  }

  /** The next access of thread `t`. */
  function Access<T>(s: State<T>, t: nat, spurious: bool): State<T>
    requires s.Cap() > 0 && t < |s.threads|
  {
    match s.threads[t]
    case Idle => s
    case EnqLoad(item) => Goto(s, t, EnqSeq(item, s.enq))
    case EnqSeq(item, pos) =>
      var dif := SeqAt(s, pos) - pos;
      Goto(s, t, if dif == 0 then EnqCas(item, pos) else if dif < 0 then Idle else EnqLoad(item))
    case EnqCas(item, pos) =>
      if s.enq == pos && !spurious then
        Goto(s, t, EnqWrite(item, pos)).(
          enq := pos + 1, values := s.values + [item], producers := s.producers + [t])
      else Goto(s, t, EnqLoad(item))
    case EnqWrite(item, pos) =>
      var i := SlotOf(pos, s.Cap());
      Goto(s, t, EnqPublish(item, pos)).(cells := s.cells[i := s.cells[i].(data := item)])
    case EnqPublish(_, pos) =>
      var i := SlotOf(pos, s.Cap());
      Goto(s, t, Idle).(cells := s.cells[i := s.cells[i].(sequence := pos + 1)])
    case DeqLoad => Goto(s, t, DeqSeq(s.deq))
    case DeqSeq(pos) =>
      var dif := SeqAt(s, pos) - (pos + 1);
      Goto(s, t, if dif == 0 then DeqCas(pos) else if dif < 0 then Idle else DeqLoad)
    case DeqCas(pos) =>
      if s.deq == pos && !spurious then
        Goto(s, t, DeqRead(pos)).(deq := pos + 1, consumers := s.consumers + [t])
      else Goto(s, t, DeqLoad)
    case DeqRead(pos) => Goto(s, t, DeqRelease(pos, s.cells[SlotOf(pos, s.Cap())].data))
    case DeqRelease(pos, out) =>
      var i := SlotOf(pos, s.Cap());
      Goto(s, t, Idle).(
        cells := s.cells[i := s.cells[i].(sequence := pos + s.Cap())],
        delivered := s.delivered[pos := out])
  }

  function Step<T>(s: State<T>, t: nat, a: Action<T>): State<T>
    requires s.Cap() > 0 && t < |s.threads|
  {
    match a
    case Go(spurious) => Access(s, t, spurious)
    case StartEnqueue(item) => if s.threads[t].Idle? then Goto(s, t, EnqLoad(item)) else s
    case StartDequeue => if s.threads[t].Idle? then Goto(s, t, DeqLoad) else s
  }

  /** What the call a thread is in the middle of returns with its next access, if it returns. */
  function Returns<T>(s: State<T>, t: nat): Outcome<T>
    requires s.Cap() > 0 && t < |s.threads|
  {
    match s.threads[t]
    case EnqSeq(_, pos) => if SeqAt(s, pos) < pos then Full else Running
    case DeqSeq(pos) => if SeqAt(s, pos) < pos + 1 then Empty else Running
    case EnqPublish(_, _) => Enqueued
    case DeqRelease(_, out) => Dequeued(out)
    case _ => Running
  }

  function Init<T>(cap: nat, threads: nat, blank: T): State<T> {
    State(seq(cap, i requires 0 <= i => Cell(i, blank)), 0, 0, seq(threads, _ => Idle), [], [], [], map[])
  }

  /** A schedule picks the thread of every step; the runs of all schedules are all interleavings. */
  type Schedule<T> = seq<(nat, Action<T>)>

  predicate Admissible<T>(schedule: Schedule<T>, threads: nat) {
    forall k :: 0 <= k < |schedule| ==> schedule[k].0 < threads
  }

  function Run<T>(s: State<T>, schedule: Schedule<T>): (s': State<T>)
    requires s.Cap() > 0 && Admissible(schedule, |s.threads|)
    ensures s'.Cap() == s.Cap() && |s'.threads| == |s.threads|
    decreases |schedule|
  {
    if schedule == [] then s
    else
      var s1 := Step(s, schedule[0].0, schedule[0].1);
      Run(s1, schedule[1..])
  }

  // ----- Ticket ownership -----

  predicate Produces<T>(pc: Pc<T>, p: nat) {
    (pc.EnqWrite? || pc.EnqPublish?) && pc.pos == p
  }

  predicate Consumes<T>(pc: Pc<T>, p: nat) {
    (pc.DeqRead? || pc.DeqRelease?) && pc.pos == p
  }

  predicate HoldsTicket<T>(pc: Pc<T>) {
    pc.EnqWrite? || pc.EnqPublish? || pc.DeqRead? || pc.DeqRelease?
  }

  predicate ProducerInFlight<T>(s: State<T>, p: nat) {
    p < |s.producers| && s.producers[p] < |s.threads| && Produces(s.threads[s.producers[p]], p)
  }

  predicate ConsumerInFlight<T>(s: State<T>, p: nat) {
    p < |s.consumers| && s.consumers[p] < |s.threads| && Consumes(s.threads[s.consumers[p]], p)
  }

  predicate Published<T>(s: State<T>, p: nat)
    requires s.Cap() > 0
  {
    SeqAt(s, p) == p + 1
  }

  // ----- The invariant -----

  ghost predicate Counters<T>(s: State<T>) {
    && 2 <= s.Cap()
    && s.deq <= s.enq <= s.deq + s.Cap()
    && |s.values| == |s.producers| == s.enq
    && |s.consumers| == s.deq
  }

  /**
   The slot of ticket `p`, for the tickets of the window [deq, deq + capacity), which name every
   slot exactly once.
   */
  ghost predicate WindowSlot<T>(s: State<T>, p: nat)
    requires Counters(s)
  {
    var c := s.cells[SlotOf(p, s.Cap())];
    if p < s.enq then
      || (c.sequence == p && ProducerInFlight(s, p))
      || (c.sequence == p + 1 && c.data == s.values[p])
    else
      || c.sequence == p
      || (p >= s.Cap() && c.sequence == p - s.Cap() + 1 && ConsumerInFlight(s, p - s.Cap()))
  }

  ghost predicate Slots<T>(s: State<T>)
    requires Counters(s)
  {
    forall p: nat :: s.deq <= p < s.deq + s.Cap() ==> WindowSlot(s, p)
  }

  /** What a thread's program counter says about the shared state. */
  ghost predicate ThreadOk<T>(s: State<T>, t: nat)
    requires Counters(s) && t < |s.threads|
  {
    match s.threads[t]
    case EnqSeq(_, pos) => pos <= s.enq
    case EnqCas(_, pos) => pos <= s.enq && (pos == s.enq ==> SeqAt(s, pos) == pos)
    case EnqWrite(item, pos) =>
      s.deq <= pos < s.enq && s.producers[pos] == t && s.values[pos] == item && SeqAt(s, pos) == pos
    case EnqPublish(item, pos) =>
      && s.deq <= pos < s.enq && s.producers[pos] == t && s.values[pos] == item && SeqAt(s, pos) == pos
      && s.cells[SlotOf(pos, s.Cap())].data == item
    case DeqSeq(pos) => pos <= s.deq
    case DeqCas(pos) => pos <= s.deq && (pos == s.deq ==> Published(s, pos))
    case DeqRead(pos) =>
      && pos < s.deq && s.consumers[pos] == t && s.enq <= pos + s.Cap() && Published(s, pos)
      && s.cells[SlotOf(pos, s.Cap())].data == s.values[pos]
    case DeqRelease(pos, out) =>
      && pos < s.deq && s.consumers[pos] == t && s.enq <= pos + s.Cap() && Published(s, pos)
      && out == s.values[pos]
    case _ => true
  }

  ghost predicate Threads<T>(s: State<T>)
    requires Counters(s)
  {
    forall t: nat :: t < |s.threads| ==> ThreadOk(s, t)
  }

  /** Every taken ticket is either in the hands of its consumer or delivered with the right value. */
  ghost predicate Deliveries<T>(s: State<T>)
    requires Counters(s)
  {
    && (forall p: nat :: p in s.delivered ==> p < s.deq)
    && (forall p: nat :: p < s.deq ==> (p in s.delivered <==> !ConsumerInFlight(s, p)))
    && (forall p: nat :: p in s.delivered && p < s.deq ==> s.delivered[p] == s.values[p])
  }

  ghost predicate Inv<T>(s: State<T>) {
    Counters(s) && Slots(s) && Threads(s) && Deliveries(s)
  }

  // ----- Slots and tickets -----

  /** Two tickets of one slot are a whole lap apart. */
  lemma SameSlotApart(p: nat, q: nat, cap: nat)
    requires cap > 0 && p < q && SlotOf(p, cap) == SlotOf(q, cap)
    ensures p + cap <= q
  {
    var a, b := p / cap, q / cap;
    assert p == a * cap + p % cap && q == b * cap + q % cap;
    if a < b {
      assert (a + 1) * cap <= b * cap;
    }
  }

  lemma ModUnique(x: nat, lap: nat, r: nat, cap: nat)
    requires r < cap && x == lap * cap + r
    ensures x % cap == r
  {
    var d := x / cap;
    assert x == d * cap + x % cap;
    assert d < lap ==> (d + 1) * cap <= lap * cap;
    assert lap < d ==> (lap + 1) * cap <= d * cap;
  }

  lemma NextLap(p: nat, cap: nat)
    requires cap > 0
    ensures SlotOf(p + cap, cap) == SlotOf(p, cap)
  {
    ModUnique(p + cap, p / cap + 1, p % cap, cap);
  }

  /** Within one window the slot names the ticket. */
  lemma WindowSlotsDiffer(p: nat, q: nat, base: nat, cap: nat)
    requires cap > 0 && base <= p < base + cap && base <= q < base + cap && p != q
    ensures SlotOf(p, cap) != SlotOf(q, cap)
  {
    if SlotOf(p, cap) == SlotOf(q, cap) {
      if p < q { SameSlotApart(p, q, cap); } else { SameSlotApart(q, p, cap); }
    }
  }

  lemma {:induction false} AllWindowSlotsDiffer<T>(s: State<T>, q: nat)
    requires Counters(s) && s.deq <= q < s.deq + s.Cap()
    ensures forall p: nat :: s.deq <= p < s.deq + s.Cap() && p != q ==> SlotOf(p, s.Cap()) != SlotOf(q, s.Cap())
  {
    forall p: nat | s.deq <= p < s.deq + s.Cap() && p != q
      ensures SlotOf(p, s.Cap()) != SlotOf(q, s.Cap())
    {
      WindowSlotsDiffer(p, q, s.deq, s.Cap());
    }
  }

  /** A claimable slot means the window is not full, and a published head means it is not empty. */
  lemma ClaimableMeansRoom<T>(s: State<T>)
    requires Inv(s)
    ensures SeqAt(s, s.enq) == s.enq ==> s.enq < s.deq + s.Cap()
    ensures Published(s, s.deq) ==> s.deq < s.enq
  {
    assert WindowSlot(s, s.deq);
    NextLap(s.deq, s.Cap());
  }

  // ----- Every step keeps the invariant -----

  lemma InitInv<T>(cap: nat, threads: nat, blank: T)
    requires 2 <= cap
    ensures Inv(Init(cap, threads, blank))
  {
    var s := Init(cap, threads, blank);
    forall p: nat | s.deq <= p < s.deq + s.Cap()
      ensures WindowSlot(s, p)
    {
      assert p / cap == 0;
    }
  }

  /** Steps that only move a program counter, none of whose positions owns a ticket. */
  lemma LocalStepInv<T>(s: State<T>, t: nat, pc: Pc<T>)
    requires Inv(s) && t < |s.threads|
    requires forall p: nat :: !Produces(s.threads[t], p) && !Consumes(s.threads[t], p)
    requires forall p: nat :: !Produces(pc, p) && !Consumes(pc, p)
    requires ThreadOk(Goto(s, t, pc), t)
    ensures Inv(Goto(s, t, pc))
  {
    var s' := Goto(s, t, pc);
    assert forall p: nat :: ProducerInFlight(s', p) == ProducerInFlight(s, p);
    assert forall p: nat :: ConsumerInFlight(s', p) == ConsumerInFlight(s, p);
    forall p: nat | s'.deq <= p < s'.deq + s'.Cap()
      ensures WindowSlot(s', p)
    {
      assert WindowSlot(s, p);
    }
    forall u: nat | u < |s'.threads|
      ensures ThreadOk(s', u)
    {
      assert u != t ==> ThreadOk(s, u);
    }
  }

  lemma EnqCasSlots<T>(s: State<T>, t: nat)
    requires Inv(s) && t < |s.threads|
    requires s.threads[t].EnqCas? && s.threads[t].pos == s.enq
    ensures var s' := Access(s, t, false); Counters(s') && Slots(s') && Deliveries(s')
  {
    var s' := Access(s, t, false);
    assert ThreadOk(s, t);
    ClaimableMeansRoom(s);
    assert forall p: nat :: ConsumerInFlight(s', p) == ConsumerInFlight(s, p);
    forall p: nat | s'.deq <= p < s'.deq + s'.Cap()
      ensures WindowSlot(s', p)
    {
      assert WindowSlot(s, p);
      assert p < s.enq && ProducerInFlight(s, p) ==> ProducerInFlight(s', p);
    }
  }

  lemma EnqCasThreads<T>(s: State<T>, t: nat)
    requires Inv(s) && t < |s.threads|
    requires s.threads[t].EnqCas? && s.threads[t].pos == s.enq
    ensures var s' := Access(s, t, false); Counters(s') && Threads(s')
  {
    var s' := Access(s, t, false);
    assert ThreadOk(s, t);
    ClaimableMeansRoom(s);
    forall u: nat | u < |s'.threads|
      ensures ThreadOk(s', u)
    {
      assert ThreadOk(s, u);
      var pc := s.threads[u];
      if u != t && (pc.DeqRead? || pc.DeqRelease?) {
        NextLap(pc.pos, s.Cap());
      }
    }
  }

  /** The tickets threads own lie in one window each way, so the slots behind them are all different. */
  lemma OwnedSlotsDiffer<T>(s: State<T>, t: nat, u: nat, p: nat, q: nat)
    requires Inv(s) && t < |s.threads| && u < |s.threads| && t != u
    requires Produces(s.threads[t], p) || Consumes(s.threads[t], p)
    requires Produces(s.threads[u], q) || Consumes(s.threads[u], q)
    ensures p != q && SlotOf(p, s.Cap()) != SlotOf(q, s.Cap())
  {
    assert ThreadOk(s, t) && ThreadOk(s, u);
    NextLap(p, s.Cap());
    NextLap(q, s.Cap());
    var p' := if Produces(s.threads[t], p) then p else p + s.Cap();
    var q' := if Produces(s.threads[u], q) then q else q + s.Cap();
    WindowSlotsDiffer(p', q', s.deq, s.Cap());
  }

  lemma EnqWriteInv<T>(s: State<T>, t: nat)
    requires Inv(s) && t < |s.threads| && s.threads[t].EnqWrite?
    ensures Inv(Access(s, t, false))
  {
    var s' := Access(s, t, false);
    var pos := s.threads[t].pos;
    assert ThreadOk(s, t);
    assert forall p: nat :: ConsumerInFlight(s', p) == ConsumerInFlight(s, p);
    assert forall p: nat :: ProducerInFlight(s', p) == ProducerInFlight(s, p);
    AllWindowSlotsDiffer(s, pos);
    forall p: nat | s'.deq <= p < s'.deq + s'.Cap()
      ensures WindowSlot(s', p)
    {
      assert WindowSlot(s, p);
    }
    forall u: nat | u < |s'.threads|
      ensures ThreadOk(s', u)
    {
      assert ThreadOk(s, u);
      var pc := s.threads[u];
      if u != t && (pc.EnqPublish? || pc.DeqRead?) {
        OwnedSlotsDiffer(s, t, u, pos, pc.pos);
      }
    }
  }

  lemma EnqPublishSlots<T>(s: State<T>, t: nat)
    requires Inv(s) && t < |s.threads| && s.threads[t].EnqPublish?
    ensures var s' := Access(s, t, false); Counters(s') && Slots(s') && Deliveries(s')
  {
    var s' := Access(s, t, false);
    var pos := s.threads[t].pos;
    assert ThreadOk(s, t);
    assert forall p: nat :: ConsumerInFlight(s', p) == ConsumerInFlight(s, p);
    assert forall p: nat :: p != pos ==> ProducerInFlight(s', p) == ProducerInFlight(s, p);
    AllWindowSlotsDiffer(s, pos);
    forall p: nat | s'.deq <= p < s'.deq + s'.Cap()
      ensures WindowSlot(s', p)
    {
      assert WindowSlot(s, p);
    }
  }

  lemma EnqPublishThreads<T>(s: State<T>, t: nat)
    requires Inv(s) && t < |s.threads| && s.threads[t].EnqPublish?
    ensures Counters(s) && Threads(Access(s, t, false))
  {
    var s' := Access(s, t, false);
    var pos := s.threads[t].pos;
    assert ThreadOk(s, t);
    ClaimableMeansRoom(s);
    AllWindowSlotsDiffer(s, pos);
    forall u: nat | u < |s'.threads|
      ensures ThreadOk(s', u)
    {
      assert ThreadOk(s, u);
      var pc := s.threads[u];
      if u != t && HoldsTicket(pc) {
        OwnedSlotsDiffer(s, t, u, pos, pc.pos);
      }
    }
  }

  lemma DeqCasInv<T>(s: State<T>, t: nat)
    requires Inv(s) && t < |s.threads|
    requires s.threads[t].DeqCas? && s.threads[t].pos == s.deq
    ensures Inv(Access(s, t, false))
  {
    var s' := Access(s, t, false);
    assert ThreadOk(s, t);
    ClaimableMeansRoom(s);
    NextLap(s.deq, s.Cap());
    assert forall p: nat :: ProducerInFlight(s', p) == ProducerInFlight(s, p);
    assert forall p: nat :: p != s.deq ==> ConsumerInFlight(s', p) == ConsumerInFlight(s, p);
    assert ConsumerInFlight(s', s.deq);
    assert WindowSlot(s, s.deq);
    forall p: nat | s'.deq <= p < s'.deq + s'.Cap()
      ensures WindowSlot(s', p)
    {
      assert p < s.deq + s.Cap() ==> WindowSlot(s, p);
    }
    forall u: nat | u < |s'.threads|
      ensures ThreadOk(s', u)
    {
      assert ThreadOk(s, u);
    }
  }

  lemma DeqReadInv<T>(s: State<T>, t: nat)
    requires Inv(s) && t < |s.threads| && s.threads[t].DeqRead?
    ensures Inv(Access(s, t, false))
  {
    var s' := Access(s, t, false);
    assert ThreadOk(s, t);
    assert forall p: nat :: ProducerInFlight(s', p) == ProducerInFlight(s, p);
    assert forall p: nat :: ConsumerInFlight(s', p) == ConsumerInFlight(s, p);
    forall p: nat | s'.deq <= p < s'.deq + s'.Cap()
      ensures WindowSlot(s', p)
    {
      assert WindowSlot(s, p);
    }
    forall u: nat | u < |s'.threads|
      ensures ThreadOk(s', u)
    {
      assert ThreadOk(s, u);
    }
  }

  lemma DeqReleaseSlots<T>(s: State<T>, t: nat)
    requires Inv(s) && t < |s.threads| && s.threads[t].DeqRelease?
    ensures var s' := Access(s, t, false); Counters(s') && Slots(s') && Deliveries(s')
  {
    var s' := Access(s, t, false);
    var pos := s.threads[t].pos;
    assert ThreadOk(s, t);
    assert forall p: nat :: ProducerInFlight(s', p) == ProducerInFlight(s, p);
    assert forall p: nat :: p != pos ==> ConsumerInFlight(s', p) == ConsumerInFlight(s, p);
    NextLap(pos, s.Cap());
    AllWindowSlotsDiffer(s, pos + s.Cap());
    forall p: nat | s'.deq <= p < s'.deq + s'.Cap()
      ensures WindowSlot(s', p)
    {
      assert WindowSlot(s, p);
    }
  }

  lemma DeqReleaseThreads<T>(s: State<T>, t: nat)
    requires Inv(s) && t < |s.threads| && s.threads[t].DeqRelease?
    ensures Counters(s) && Threads(Access(s, t, false))
  {
    var s' := Access(s, t, false);
    var pos := s.threads[t].pos;
    assert ThreadOk(s, t);
    ClaimableMeansRoom(s);
    NextLap(pos, s.Cap());
    AllWindowSlotsDiffer(s, pos + s.Cap());
    forall u: nat | u < |s'.threads|
      ensures ThreadOk(s', u)
    {
      assert ThreadOk(s, u);
      var pc := s.threads[u];
      if u != t && HoldsTicket(pc) {
        OwnedSlotsDiffer(s, t, u, pos, pc.pos);
      }
    }
  }

  /** The next access of a thread that owns a ticket, or of one whose claim succeeds, keeps the invariant. */
  lemma SharedStepInv<T>(s: State<T>, t: nat)
    requires Inv(s) && t < |s.threads|
    requires HoldsTicket(s.threads[t]) || Claims(s, t)
    ensures Inv(Access(s, t, false))
  {
    match s.threads[t]
    case EnqCas(_, _) => EnqCasSlots(s, t); EnqCasThreads(s, t);
    case DeqCas(_) => DeqCasInv(s, t);
    case EnqWrite(_, _) => EnqWriteInv(s, t);
    case EnqPublish(_, _) => EnqPublishSlots(s, t); EnqPublishThreads(s, t);
    case DeqRead(_) => DeqReadInv(s, t);
    case DeqRelease(_, _) => DeqReleaseSlots(s, t); DeqReleaseThreads(s, t);
  }

  predicate Claims<T>(s: State<T>, t: nat)
    requires t < |s.threads|
  {
    || (s.threads[t].EnqCas? && s.threads[t].pos == s.enq)
    || (s.threads[t].DeqCas? && s.threads[t].pos == s.deq)
  }

  /** Every other step only moves the program counter of its own thread. */
  lemma OtherStepIsLocal<T>(s: State<T>, t: nat, a: Action<T>)
    requires Inv(s) && t < |s.threads|
    requires a.Go? ==> !HoldsTicket(s.threads[t]) && (a.spurious || !Claims(s, t))
    ensures var s' := Step(s, t, a);
      && s' == Goto(s, t, s'.threads[t])
      && ThreadOk(s', t)
      && (s' == s || (!HoldsTicket(s.threads[t]) && !HoldsTicket(s'.threads[t])))
  {
    assert ThreadOk(s, t);
    assert Goto(s, t, s.threads[t]).threads == s.threads;
  }

  /** Any access of any thread keeps the invariant. */
  lemma StepInv<T>(s: State<T>, t: nat, a: Action<T>)
    requires Inv(s) && t < |s.threads|
    ensures Inv(Step(s, t, a))
  {
    if a.Go? && (HoldsTicket(s.threads[t]) || (Claims(s, t) && !a.spurious)) {
      assert Step(s, t, a) == Access(s, t, false);
      SharedStepInv(s, t);
    } else {
      OtherStepIsLocal(s, t, a);
      if Step(s, t, a) != s {
        LocalStepInv(s, t, Step(s, t, a).threads[t]);
      }
    }
  }

  lemma {:induction false} RunInv<T>(s: State<T>, schedule: Schedule<T>)
    requires Inv(s) && Admissible(schedule, |s.threads|)
    ensures Inv(Run(s, schedule))
    decreases |schedule|
  {
    if schedule != [] {
      StepInv(s, schedule[0].0, schedule[0].1);
      RunInv(Step(s, schedule[0].0, schedule[0].1), schedule[1..]);
    }
  }

  // ----- What holds in every interleaving -----

  /** Main result: the invariant holds after any schedule of any number of threads. */
  lemma EveryInterleaving<T>(cap: nat, threads: nat, blank: T, schedule: Schedule<T>)
    requires 2 <= cap && Admissible(schedule, threads)
    ensures Inv(Run(Init(cap, threads, blank), schedule))
  {
    InitInv(cap, threads, blank);
    RunInv(Init(cap, threads, blank), schedule);
  }

  /**
   Tickets are given out once and never change hands: a run only extends the values and owners
   recorded for them, and a delivery, once made, stays what it was.
   */
  lemma {:induction false} HistoryOnlyGrows<T>(s: State<T>, schedule: Schedule<T>)
    requires Inv(s) && Admissible(schedule, |s.threads|)
    ensures var s' := Run(s, schedule);
      && s.values <= s'.values && s.producers <= s'.producers && s.consumers <= s'.consumers
      && (forall p: nat :: p in s.delivered ==> p in s'.delivered && s'.delivered[p] == s.delivered[p])
    decreases |schedule|
  {
    if schedule != [] {
      var (t, a) := schedule[0];
      var s1 := Step(s, t, a);
      assert ThreadOk(s, t);
      StepInv(s, t, a);
      HistoryOnlyGrows(s1, schedule[1..]);
    }
  }

  /**
   Exactly once, in ticket order: what has been delivered is exactly what was stored under the
   tickets below the dequeue cursor, less those whose consumer has yet to return; and a consumer
   that returns now returns the value stored under its own ticket.
   */
  lemma DeliveredInTicketOrder<T>(s: State<T>, t: nat)
    requires Inv(s) && t < |s.threads|
    ensures forall p: nat :: p < s.enq ==>
      (p in s.delivered <==> p < s.deq && !ConsumerInFlight(s, p))
    ensures forall p: nat :: p in s.delivered ==> p < s.enq && s.delivered[p] == s.values[p]
    ensures Returns(s, t).Dequeued? ==>
      var p := s.threads[t].pos;
      p < s.deq && s.consumers[p] == t && p !in s.delivered && Returns(s, t) == Dequeued(s.values[p])
  {
    assert ThreadOk(s, t);
  }

  /** `enqueue` reports full only when it is, or while a consumer still holds the very slot it looked at. */
  lemma FullIsExplained<T>(s: State<T>, t: nat)
    requires Inv(s) && t < |s.threads| && Returns(s, t) == Full
    ensures
      || s.enq == s.deq + s.Cap()
      || exists p: nat :: SlotOf(p, s.Cap()) == SlotOf(s.threads[t].pos, s.Cap()) && ConsumerInFlight(s, p)
  {
    var pos := s.threads[t].pos;
    assert ThreadOk(s, t);
    if s.enq < s.deq + s.Cap() {
      var w := TicketInWindow(s, pos);
      assert WindowSlot(s, w);
      if pos < w {
        SameSlotApart(pos, w, s.Cap());
      } else if w < pos {
        SameSlotApart(w, pos, s.Cap());
      }
      NextLap(w - s.Cap(), s.Cap());
    }
  }

  /** `dequeue` reports empty only if the ticket at the head, right then, was unclaimed or unpublished. */
  lemma EmptyIsExplained<T>(s: State<T>, t: nat)
    requires Inv(s) && t < |s.threads| && Returns(s, t) == Empty
    ensures s.threads[t].pos == s.deq
    ensures s.deq == s.enq || ProducerInFlight(s, s.deq)
    ensures !Published(s, s.deq)
  {
    var pos := s.threads[t].pos;
    assert ThreadOk(s, t);
    var w := TicketInWindow(s, pos);
    assert WindowSlot(s, w);
    assert WindowSlot(s, s.deq);
    if pos < w {
      SameSlotApart(pos, w, s.Cap());
    } else if w < pos {
      SameSlotApart(w, pos, s.Cap());
    }
  }

  /** The ticket of the current window that uses the same slot as `pos`. */
  ghost function TicketInWindow<T>(s: State<T>, pos: nat): (w: nat)
    requires Counters(s)
    ensures s.deq <= w < s.deq + s.Cap() && SlotOf(w, s.Cap()) == SlotOf(pos, s.Cap())
  {
    var cap := s.Cap();
    var d := s.deq / cap * cap + pos % cap;
    assert s.deq == s.deq / cap * cap + s.deq % cap;
    ModUnique(d, s.deq / cap, pos % cap, cap);
    if d < s.deq then (NextLap(d, cap); d + cap) else d
  }
}
