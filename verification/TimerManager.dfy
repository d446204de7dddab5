/**
 The timer manager of one event loop: two indexes over the same timers, the timerfd that is to fire
 for the earliest of them, and callbacks that add and cancel timers while a batch is being called.

 `Timer` objects live in `heap` under their addresses, so an address can be used again by a later
 timer; what tells the two apart is the sequence number. The manager and the timerfd are read off
 one clock in microseconds, whose readings are parameters.
 */
module TimerManager {
  import opened TimerQueue

  datatype Fd = Disarmed | Armed(deadline: int, armedAt: int)

  const SHORTEST_WAIT := 100

  /** `howMuchTimeFromNow` added to the time it is computed at: when the timerfd will fire. */
  function FireTime(expiration: int, now: int): int {
    if expiration - now < SHORTEST_WAIT then now + SHORTEST_WAIT else expiration
  }

  function Max(a: int, b: int): int { if a < b then b else a }

  /** The timerfd never fires before the timer is due, and after it is due only as far as the shortest wait makes it. */
  lemma FiresWhenDue(expiration: int, now: int)
    ensures FireTime(expiration, now) == Max(expiration, now + SHORTEST_WAIT)
  {
  }

  /** The timerfd fires, or has fired unread, no later than the earliest timer allows. */
  predicate FiresInTime(timers: seq<Entry>, fd: Fd) {
    timers != [] ==> fd.Armed? && fd.deadline <= Max(timers[0].time, fd.armedAt + SHORTEST_WAIT)
  }

  /** While a batch is called the timerfd is sure to be in time only for a timer due at zero or before. */
  predicate InTime(timers: seq<Entry>, fd: Fd, calling: bool) {
    timers != [] && (calling ==> timers[0].time <= 0) ==> FiresInTime(timers, fd)
  }

  lemma RemovedInTime(timers: seq<Entry>, k: nat, fd: Fd, calling: bool)
    requires Sorted(timers) && k < |timers| && InTime(timers, fd, calling)
    ensures InTime(Removed(timers, k), fd, calling)
  {
    var rest := Removed(timers, k);
    if rest != [] && k == 0 {
      assert Before(timers[0], timers[1]);
    }
  }

  /** What a callback may do, with the clock at that moment. */
  datatype Op =
    | Create(ptr: nat, when: int, delta: nat, repeat: bool)
    | AddInLoop(ptr: nat, clock: int)
    | Cancel(ptr: nat, sequence: nat)

  /** A live timer is in flight to the loop thread, out in the batch being called, or active. */
  predicate OnePlace(heap: Heap, inFlight: set<nat>, out: set<nat>, active: Actives, p: nat)
    requires p in heap
  {
    && (p in inFlight ==> p !in out && (p, heap[p].sequence) !in active)
    && (p in out ==> (p, heap[p].sequence) !in active)
    && (p in inFlight || p in out || (p, heap[p].sequence) in active)
  }

  predicate Placed(heap: Heap, inFlight: set<nat>, out: set<nat>, active: Actives) {
    && inFlight <= heap.Keys && out <= heap.Keys && 0 !in heap
    && (forall p :: p in heap ==> OnePlace(heap, inFlight, out, active, p))
  }

  predicate Numbered(heap: Heap, created: nat) {
    && (forall p :: p in heap ==> heap[p].sequence <= created)
    && (forall p, q :: p in heap && q in heap && p != q ==> heap[p].sequence != heap[q].sequence)
  }

  /** The only cancelled timers still alive are out in the batch, and the manager knows of those. */
  predicate DeadOk(heap: Heap, out: set<nat>, canceling: Actives, dead: set<nat>, created: nat) {
    && (forall n :: n in dead ==> n <= created)
    && (forall p :: p in heap && heap[p].sequence in dead ==> p in out)
    && (forall p :: p in heap && p in out ==> (heap[p].sequence in dead <==> (p, heap[p].sequence) in canceling))
  }

  /** The manager's bookkeeping as one value. */
  datatype Ledger = Ledger(heap: Heap, timers: seq<Entry>, active: Actives,
    inFlight: set<nat>, out: set<nat>, canceling: Actives, dead: set<nat>, created: nat)

  predicate Good(m: Ledger) {
    && Agree(m.heap, m.timers, m.active)
    && Placed(m.heap, m.inFlight, m.out, m.active)
    && Numbered(m.heap, m.created)
    && DeadOk(m.heap, m.out, m.canceling, m.dead, m.created)
  }

  lemma GoodNew(m: Ledger, p: nat, timer: Timer)
    requires Good(m) && p !in m.heap && p != 0 && timer.sequence == m.created + 1
    ensures Good(m.(heap := m.heap[p := timer], created := m.created + 1, inFlight := m.inFlight + {p}))
    ensures timer.sequence !in m.dead
  {
    OtherObjects(m.heap, m.heap[p := timer], m.timers, m.active);
    forall a | a in m.active ensures a.0 != p {
      assert Indexed(m.heap, m.timers, a);
    }
  }

  lemma GoodInsert(m: Ledger, p: nat)
    requires Good(m) && p in m.inFlight + m.out && m.heap[p].sequence !in m.dead
    ensures Entry(m.heap[p].expiration, p) !in m.timers && (p, m.heap[p].sequence) !in m.active
    ensures Good(m.(timers := Inserted(m.timers, Entry(m.heap[p].expiration, p)),
      active := m.active + {(p, m.heap[p].sequence)}, inFlight := m.inFlight - {p}, out := m.out - {p}))
  {
    assert OnePlace(m.heap, m.inFlight, m.out, m.active, p);
    InsertAgrees(m.heap, m.timers, m.active, p);
    var active', inFlight', out' := m.active + {(p, m.heap[p].sequence)}, m.inFlight - {p}, m.out - {p};
    forall q | q in m.heap ensures OnePlace(m.heap, inFlight', out', active', q) {
      assert OnePlace(m.heap, m.inFlight, m.out, m.active, q);
    }
  }

  /** An object that no index refers to goes away. */
  lemma GoodFree(m: Ledger, p: nat, dead: set<nat>)
    requires Good(m) && p in m.heap && (p, m.heap[p].sequence) !in m.active
    requires dead == m.dead || dead == m.dead + {m.heap[p].sequence}
    ensures Good(m.(heap := m.heap - {p}, inFlight := m.inFlight - {p}, out := m.out - {p}, dead := dead))
  {
    var heap' := m.heap - {p};
    forall a | a in m.active ensures a.0 != p {
      assert Indexed(m.heap, m.timers, a);
    }
    OtherObjects(m.heap, heap', m.timers, m.active);
    forall q | q in heap' ensures OnePlace(heap', m.inFlight - {p}, m.out - {p}, m.active, q) {
      assert OnePlace(m.heap, m.inFlight, m.out, m.active, q);
    }
  }

  /** Taking a timer off both indexes and freeing it. */
  lemma GoodErase(m: Ledger, k: nat)
    requires Good(m) && k < |m.timers|
    ensures m.timers[k].ptr in m.heap
    ensures Good(var p := m.timers[k].ptr;
      m.(heap := m.heap - {p}, timers := Removed(m.timers, k),
        active := m.active - {(p, m.heap[p].sequence)}, dead := m.dead + {m.heap[p].sequence}))
  {
    var p := m.timers[k].ptr;
    RemoveAgrees(m.heap, m.timers, m.active, k);
    var active' := m.active - {(p, m.heap[p].sequence)};
    var heap' := m.heap - {p};
    forall a | a in active' ensures a.0 != p {
      assert Indexed(m.heap, m.timers, a);
    }
    OtherObjects(m.heap, heap', Removed(m.timers, k), active');
    assert OnePlace(m.heap, m.inFlight, m.out, m.active, p);
    forall q | q in heap' ensures OnePlace(heap', m.inFlight, m.out, active', q) {
      assert OnePlace(m.heap, m.inFlight, m.out, m.active, q);
    }
  }

  /** While a batch is being called, cancelling what is not active is remembered. */
  lemma GoodRemember(m: Ledger, p: nat, n: nat)
    requires Good(m) && (p, n) !in m.active
    ensures Good(m.(canceling := m.canceling + {(p, n)},
      dead := m.dead + if p in m.out && p in m.heap && m.heap[p].sequence == n then {n} else {}))
  {
  }

  /** The due timers leave both indexes and are out; what was remembered of an earlier batch is dropped. */
  lemma GoodExpire(m: Ledger, k: nat)
    requires Good(m) && k <= |m.timers| && m.out == {}
    ensures Good(m.(timers := m.timers[k..], active := Erased(m.active, m.timers[..k]),
      out := PtrsOf(m.timers[..k]), canceling := {}))
    ensures DistinctPtrs(m.timers[..k])
    ensures forall i :: 0 <= i < k ==> m.timers[i].ptr in m.heap && m.heap[m.timers[i].ptr].sequence !in m.dead
  {
    DropAgrees(m.heap, m.timers, m.active, k);
    AgreeDistinct(m.heap, m.timers, m.active);
    var due, active', out' := m.timers[..k], Erased(m.active, m.timers[..k]), PtrsOf(m.timers[..k]);
    forall i | 0 <= i < |m.timers| ensures Listed(m.heap, m.active, m.timers[i]) {
    }
    forall p | p in out' ensures p in m.heap && (p, m.heap[p].sequence) in m.active {
      var i :| 0 <= i < |due| && due[i].ptr == p;
      assert Listed(m.heap, m.active, m.timers[i]);
    }
    forall p | p in m.heap ensures OnePlace(m.heap, m.inFlight, out', active', p) {
      assert OnePlace(m.heap, m.inFlight, m.out, m.active, p);
    }
  }

  lemma GoodRestart(m: Ledger, p: nat, expiration: int)
    requires Good(m) && p in m.out
    ensures Good(m.(heap := m.heap[p := m.heap[p].(expiration := expiration)]))
  {
    var heap' := m.heap[p := m.heap[p].(expiration := expiration)];
    forall a | a in m.active ensures a.0 != p && a.0 in m.heap {
      assert Indexed(m.heap, m.timers, a);
      assert OnePlace(m.heap, m.inFlight, m.out, m.active, p);
    }
    OtherObjects(m.heap, heap', m.timers, m.active);
    forall q | q in heap' ensures OnePlace(heap', m.inFlight, m.out, m.active, q) {
      assert OnePlace(m.heap, m.inFlight, m.out, m.active, q);
    }
  }

  lemma InsertedInTime(timers: seq<Entry>, e: Entry, fd: Fd)
    requires Sorted(timers) && InTime(timers, fd, true) && e.time > 0
    ensures InTime(Inserted(timers, e), fd, true)
  {
  }

  /** The sequence numbers of the timers in some entries. */
  function Numbers(heap: Heap, entries: seq<Entry>): seq<nat>
    requires forall i :: 0 <= i < |entries| ==> entries[i].ptr in heap
  {
    seq(|entries|, i requires 0 <= i < |entries| => heap[entries[i].ptr].sequence)
  }

  const INVALID := 0

  function Restarted(timer: Timer, now: int): Timer {
    timer.(expiration := if timer.repeat then now + timer.delta else INVALID)
  }

  lemma NumbersStep(heap: Heap, entries: seq<Entry>, i: nat)
    requires i < |entries| && forall i :: 0 <= i < |entries| ==> entries[i].ptr in heap
    ensures Numbers(heap, entries)[..i + 1] == Numbers(heap, entries)[..i] + [heap[entries[i].ptr].sequence]
  {
  }

  /** A timer that has been called comes back if it repeats and nobody has cancelled it. */
  predicate Rescheduled(timer: Timer, dead: set<nat>) {
    timer.repeat && timer.sequence !in dead
  }

  function Settled(heap: Heap, p: nat, now: int, dead: set<nat>): Heap
    requires p in heap
  {
    if Rescheduled(heap[p], dead) then heap[p := Restarted(heap[p], now)] else heap - {p}
  }

  /** Every timer of the batch has come back or is gone. */
  predicate BatchSettled(before: Heap, heap: Heap, active: Actives, batch: seq<Entry>, now: int, dead: set<nat>) {
    forall i :: 0 <= i < |batch| ==> batch[i].ptr in before && OneSettled(before, heap, active, batch[i].ptr, now, dead)
  }

  predicate OneSettled(before: Heap, heap: Heap, active: Actives, p: nat, now: int, dead: set<nat>)
    requires p in before
  {
    if Rescheduled(before[p], dead) then
      p in heap && heap[p] == before[p].(expiration := now + before[p].delta) && (p, before[p].sequence) in active
    else p !in heap
  }

  predicate StillOut(before: Heap, heap: Heap, batch: seq<Entry>, i: nat) {
    forall j :: i <= j < |batch| ==>
      batch[j].ptr in heap && batch[j].ptr in before && heap[batch[j].ptr] == before[batch[j].ptr]
  }

  lemma BatchStep(before: Heap, heap: Heap, active: Actives, heap': Heap, active': Actives,
      batch: seq<Entry>, i: nat, now: int, dead: set<nat>)
    requires i < |batch| && DistinctPtrs(batch)
    requires StillOut(before, heap, batch, i) && BatchSettled(before, heap, active, batch[..i], now, dead)
    requires heap' == Settled(heap, batch[i].ptr, now, dead) && active <= active'
    requires Rescheduled(heap[batch[i].ptr], dead) ==> (batch[i].ptr, heap[batch[i].ptr].sequence) in active'
    ensures StillOut(before, heap', batch, i + 1) && BatchSettled(before, heap', active', batch[..i + 1], now, dead)
  {
    forall j | 0 <= j < i ensures OneSettled(before, heap', active', batch[j].ptr, now, dead) {
      assert batch[..i][j] == batch[j] && OneSettled(before, heap, active, batch[..i][j].ptr, now, dead);
    }
  }

  lemma SettledFrom(before: Heap, between: Heap, heap: Heap, active: Actives, batch: seq<Entry>, now: int, dead: set<nat>)
    requires StillOut(before, between, batch, 0) && BatchSettled(between, heap, active, batch, now, dead)
    ensures BatchSettled(before, heap, active, batch, now, dead)
  {
    forall i | 0 <= i < |batch| ensures batch[i].ptr in before && OneSettled(before, heap, active, batch[i].ptr, now, dead) {
      assert OneSettled(between, heap, active, batch[i].ptr, now, dead);
    }
  }

  predicate Kept(before: Heap, heap: Heap, ptrs: set<nat>) {
    forall p :: p in ptrs && p in before ==> p in heap && heap[p] == before[p]
  }

  lemma KeptStill(before: Heap, between: Heap, heap: Heap, ptrs: set<nat>)
    requires Kept(before, between, ptrs) && Kept(between, heap, ptrs)
    ensures Kept(before, heap, ptrs)
  {
  }

  lemma ActiveIsNotOut(m: Ledger, p: nat, n: nat)
    requires Good(m)
    ensures (p, n) in m.active ==> p !in m.out
  {
    if (p, n) in m.active {
      assert Indexed(m.heap, m.timers, (p, n)) && OnePlace(m.heap, m.inFlight, m.out, m.active, p);
    }
  }

  lemma Forget(active: Actives, timer: (nat, nat))
    requires timer !in active
    ensures active - {timer} == active
  {
  }

  /** The next timer of a batch is still out, as it was when the batch began. */
  lemma NextIsOut(before: Heap, heap: Heap, out: set<nat>, batch: seq<Entry>, i: nat)
    requires i < |batch| && out == PtrsOf(batch) && Kept(before, heap, out) && StillOut(before, before, batch, 0)
    ensures batch[i].ptr in out && batch[i].ptr in heap && batch[i].ptr in before
    ensures heap[batch[i].ptr] == before[batch[i].ptr]
  {
    assert batch[i].ptr in PtrsOf(batch);
  }

  lemma BatchOut(before: Heap, heap: Heap, out: set<nat>, batch: seq<Entry>)
    requires out == PtrsOf(batch) && Kept(before, heap, out) && StillOut(before, before, batch, 0)
    ensures StillOut(before, heap, batch, 0)
  {
    forall i | 0 <= i < |batch|
      ensures batch[i].ptr in heap && batch[i].ptr in before && heap[batch[i].ptr] == before[batch[i].ptr]
    {
      NextIsOut(before, heap, out, batch, i);
    }
  }

  lemma PtrsOfFrom(entries: seq<Entry>, i: nat)
    requires i < |entries| && DistinctPtrs(entries)
    ensures entries[i].ptr in PtrsOf(entries[i..])
    ensures PtrsOf(entries[i + 1..]) == PtrsOf(entries[i..]) - {entries[i].ptr}
    ensures forall j :: 0 <= j < |entries| && j != i ==> entries[j].ptr != entries[i].ptr
  {
    var from, rest := entries[i..], entries[i + 1..];
    assert from[0] == entries[i];
    forall k | 0 <= k < |rest| ensures rest[k].ptr in PtrsOf(from) && rest[k].ptr != entries[i].ptr {
      assert rest[k] == from[k + 1] == entries[i + 1 + k];
    }
    forall p | p in PtrsOf(from) && p != entries[i].ptr ensures p in PtrsOf(rest) {
      var k :| 0 <= k < |from| && from[k].ptr == p;
      assert rest[k - 1] == from[k];
    }
  }

  /** Outside the batch nothing changes: the same timers, and the same of them active. */
  ghost predicate OthersStay(before: Heap, heap: Heap, were: Actives, active: Actives, batch: set<nat>) {
    && (forall p :: p !in batch ==> (p in heap <==> p in before) && (p in heap && p in before ==> heap[p] == before[p]))
    && (forall a :: a in were ==> a in active) && (forall a :: a in active ==> a in were || a.0 in batch)
  }

  /** The first `i` of the batch are settled, the others still out, and everything else is as it was. */
  ghost predicate PartSettled(before: Heap, heap: Heap, were: Actives, active: Actives, batch: seq<Entry>, i: nat, now: int,
      dead: set<nat>)
    requires i <= |batch|
  {
    && StillOut(before, heap, batch, i) && BatchSettled(before, heap, active, batch[..i], now, dead)
    && OthersStay(before, heap, were, active, PtrsOf(batch))
  }

  class TimerManager {
    var heap: Heap
    var created: nat
    var timers: seq<Entry>
    var active: Actives
    var canceling: Actives
    var calling: bool
    var fd: Fd
    /** The timers held by functors that have yet to reach the loop thread. */
    var inFlight: set<nat>
    ghost var out: set<nat>
    /** The sequence numbers of the timers cancelled while active or in the batch being called. */
    ghost var dead: set<nat>
    /** The sequence numbers of the timers run, in the order they were run. */
    ghost var fired: seq<nat>

    ghost predicate Consistent()
      reads this
    {
      Good(Ledger(heap, timers, active, inFlight, out, canceling, dead, created))
    }

    ghost predicate FdOk()
      reads this
    {
      InTime(timers, fd, calling)
    }

    ghost predicate Valid()
      reads this
    {
      Consistent() && FdOk() && (!calling ==> out == {})
    }

    constructor ()
      ensures Valid() && !calling && heap == map[] && timers == [] && fired == [] && dead == {}
    {
      heap, created, timers, active, canceling, calling, fd := map[], 0, [], {}, {}, false, Disarmed;
      inFlight, out, dead, fired := {}, {}, {}, [];
    }

    /** The first half of `addTimer`: the object is made where it is called, at some free address. */
    method New(ptr: nat, when: int, delta: nat, repeat: bool) returns (sequence: nat)
      requires Valid() && ptr !in heap && ptr != 0
      modifies this`heap, this`created, this`inFlight
      ensures Valid()
      ensures sequence == created == old(created) + 1
      ensures heap == old(heap)[ptr := Timer(when, delta, repeat, sequence)] && inFlight == old(inFlight) + {ptr}
      ensures sequence !in dead
    {
      sequence := created + 1;
      GoodNew(Ledger(heap, timers, active, inFlight, out, canceling, dead, created), ptr,
        Timer(when, delta, repeat, sequence));
      heap := heap[ptr := Timer(when, delta, repeat, sequence)];
      created := sequence;
      inFlight := inFlight + {ptr};
    }

    method ResetTimerfd(expiration: int, clock: int)
      modifies this`fd
      ensures fd == Armed(FireTime(expiration, clock), clock)
    {
      var microseconds := expiration - clock;
      if microseconds < SHORTEST_WAIT {
        microseconds := SHORTEST_WAIT;
      }
      fd := Armed(clock + microseconds, clock);
    }

    ghost function Books(): Ledger
      reads this
    {
      Ledger(heap, timers, active, inFlight, out, canceling, dead, created)
    }

    lemma Matching()
      requires Consistent()
      ensures |timers| == |active|
    {
      BooksMatch(Books());
    }

    lemma BooksMatch(m: Ledger)
      requires Good(m)
      ensures |m.timers| == |m.active|
    {
      SameSize(m.heap, m.timers, m.active);
    }

    /** A timer in flight or out goes into both indexes, in which it is not yet. */
    method PutIn(ptr: nat)
      requires Consistent() && ptr in inFlight + out && heap[ptr].sequence !in dead
      modifies this`timers, this`active, this`inFlight, this`out
      ensures Consistent()
      ensures timers == Inserted(old(timers), Entry(heap[ptr].expiration, ptr))
      ensures active == old(active) + {(ptr, heap[ptr].sequence)}
      ensures inFlight == old(inFlight) - {ptr} && out == old(out) - {ptr}
    {
      ghost var m := Books();
      GoodInsert(m, ptr);
      ghost var m' := m.(timers := Inserted(m.timers, Entry(m.heap[ptr].expiration, ptr)),
        active := m.active + {(ptr, m.heap[ptr].sequence)}, inFlight := m.inFlight - {ptr}, out := m.out - {ptr});
      assert (ptr, heap[ptr].sequence) !in active && Entry(heap[ptr].expiration, ptr) !in timers;
      active, timers := active + {(ptr, heap[ptr].sequence)}, Inserted(timers, Entry(heap[ptr].expiration, ptr));
      inFlight, out := inFlight - {ptr}, out - {ptr};
      assert Books() == m';
    }

    method Insert(ptr: nat) returns (earliestChanged: bool)
      requires Consistent() && ptr in inFlight + out && heap[ptr].sequence !in dead
      modifies this`timers, this`active, this`inFlight, this`out
      ensures Consistent()
      ensures timers == Inserted(old(timers), Entry(heap[ptr].expiration, ptr))
      ensures active == old(active) + {(ptr, heap[ptr].sequence)}
      ensures inFlight == old(inFlight) - {ptr} && out == old(out) - {ptr}
      ensures earliestChanged <==> old(timers) == [] || heap[ptr].expiration < old(timers)[0].time
    {
      BooksMatch(Books());
      assert |timers| == |active|;
      earliestChanged := false;
      if timers == [] || heap[ptr].expiration < timers[0].time {
        earliestChanged := true;
      }
      PutIn(ptr);
      BooksMatch(Books());
      assert |timers| == |active|;
    }

    method AddTimerInLoop(ptr: nat, clock: int)
      requires Valid() && ptr in inFlight
      modifies this`timers, this`active, this`inFlight, this`out, this`fd
      ensures Valid()
      ensures timers == Inserted(old(timers), Entry(heap[ptr].expiration, ptr))
      ensures active == old(active) + {(ptr, heap[ptr].sequence)}
      ensures inFlight == old(inFlight) - {ptr} && out == old(out)
    {
      var expiration := heap[ptr].expiration;
      var earliestChanged := Insert(ptr);
      if earliestChanged {
        ResetTimerfd(expiration, clock);
      }
    }

    /** Whether cancelling has any effect: the timer is active, or out in the batch being called. */
    ghost predicate Cancellable(ptr: nat, sequence: nat)
      reads this
    {
      (ptr, sequence) in active || (calling && ptr in out && ptr in heap && heap[ptr].sequence == sequence)
    }

    method Remember(ptr: nat, sequence: nat)
      requires Valid() && calling && (ptr, sequence) !in active
      modifies this`canceling, this`dead
      ensures Valid()
      ensures canceling == old(canceling) + {(ptr, sequence)}
      ensures dead == old(dead) + (if Cancellable(ptr, sequence) then {sequence} else {})
    {
      GoodRemember(Books(), ptr, sequence);
      dead := dead + if ptr in out && heap[ptr].sequence == sequence then {sequence} else {};
      canceling := canceling + {(ptr, sequence)};
    }

    /** Erases an active timer from both indexes; with its entry goes the object. */
    method Erase(ptr: nat, sequence: nat)
      requires Valid() && (ptr, sequence) in active
      modifies this`heap, this`timers, this`active, this`dead
      ensures Valid()
      ensures dead == old(dead) + {sequence} && active == old(active) - {(ptr, sequence)} && heap == old(heap) - {ptr}
    {
      ghost var m := Books();
      assert Indexed(heap, timers, (ptr, sequence));
      var entry := Entry(heap[ptr].expiration, ptr);
      FindEntry(timers, entry);
      var eraseIt := LowerBound(timers, entry);
      assert eraseIt < |timers| && timers[eraseIt] == entry;
      GoodErase(m, eraseIt);
      RemovedInTime(timers, eraseIt, fd, calling);
      ghost var m' := m.(heap := m.heap - {ptr}, timers := Removed(m.timers, eraseIt),
        active := m.active - {(ptr, sequence)}, dead := m.dead + {sequence});
      active, timers, heap := active - {(ptr, sequence)}, Removed(timers, eraseIt), heap - {ptr};
      dead := dead + {sequence};
      assert Books() == m';
    }

    method CancelInLoop(ptr: nat, sequence: nat)
      requires Valid()
      modifies this`heap, this`timers, this`active, this`canceling, this`dead
      ensures Valid()
      ensures dead == old(dead) + (if old(Cancellable(ptr, sequence)) then {sequence} else {})
      ensures active == old(active) - {(ptr, sequence)}
      ensures heap == if (ptr, sequence) in old(active) then old(heap) - {ptr} else old(heap)
      ensures canceling == if (ptr, sequence) !in old(active) && calling then old(canceling) + {(ptr, sequence)}
        else old(canceling)
    {
      Matching();
      assert |timers| == |active|;
      if (ptr, sequence) in active {
        Erase(ptr, sequence);
      } else {
        Forget(active, (ptr, sequence));
        if calling {
          Remember(ptr, sequence);
        }
      }
      Matching();
      assert |timers| == |active|;
    }

    method ExtractDue(end: nat) returns (expired: seq<Entry>)
      requires end <= |timers|
      modifies this`timers
      ensures expired == old(timers)[..end] && timers == old(timers)[end..]
    {
      expired := [];
      while |expired| < end
        invariant |expired| <= end && expired == old(timers)[..|expired|] && timers == old(timers)[|expired|..]
      {
        expired, timers := expired + [timers[0]], timers[1..];
      }
    }

    method EraseActive(expired: seq<Entry>, ghost all: seq<Entry>)
      requires Agree(heap, all, active) && expired <= all
      modifies this`active
      ensures active == Erased(old(active), expired)
    {
      var i := 0;
      assert PtrsOf(all[..0]) == {};
      while i < |expired|
        invariant i <= |expired| && active == Erased(old(active), all[..i])
      {
        EraseOne(heap, all, old(active), i);
        var timer := (expired[i].ptr, heap[expired[i].ptr].sequence);
        assert timer in active;
        active := active - {timer};
        i := i + 1;
      }
      assert all[..i] == expired;
    }

    /** The first `end` timers leave both indexes. */
    method TakeOut(end: nat) returns (expired: seq<Entry>)
      requires Consistent() && out == {} && end <= |timers|
      modifies this`timers, this`active, this`out
      ensures Good(Books().(canceling := {}))
      ensures expired == old(timers)[..end] && timers == old(timers)[end..]
      ensures out == PtrsOf(expired) && DistinctPtrs(expired)
      ensures forall i :: 0 <= i < |expired| ==> expired[i].ptr in heap && heap[expired[i].ptr].sequence !in dead
    {
      ghost var m := Books();
      GoodExpire(m, end);
      expired := ExtractDue(end);
      EraseActive(expired, m.timers);
      out := PtrsOf(expired);
      assert Books().(canceling := {}) == m.(timers := m.timers[end..], active := Erased(m.active, expired),
        out := PtrsOf(expired), canceling := {});
    }

    method GetExpired(now: int) returns (expired: seq<Entry>)
      requires Consistent() && out == {}
      modifies this`timers, this`active, this`out
      ensures Good(Books().(canceling := {}))
      ensures expired == old(timers)[..Due(old(timers), now)] && timers == old(timers)[Due(old(timers), now)..]
      ensures out == PtrsOf(expired) && DistinctPtrs(expired)
      ensures forall i :: 0 <= i < |expired| ==> expired[i].ptr in heap && heap[expired[i].ptr].sequence !in dead
    {
      BooksMatch(Books());
      assert |timers| == |active|;
      var end := Due(timers, now);
      assert end == |timers| || now < timers[end].time;
      expired := TakeOut(end);
      BooksMatch(Books().(canceling := {}));
      assert |timers| == |active|;
    }

    /** The timers of the batch, which no callback can change, stay out of the indexes until it is over. */
    twostate predicate BatchUntouched()
      reads this
    {
      && calling == old(calling) && out == old(out) && old(dead) <= dead
      && Kept(old(heap), heap, out)
    }

    /** What an operation does to the timers: a new one is in flight, one in flight becomes active, one is cancelled. */
    twostate predicate Performed(op: Op)
      reads this
    {
      match op
      case Create(ptr, when, delta, repeat) =>
        && timers == old(timers) && active == old(active) && dead == old(dead)
        && if ptr !in old(heap) && ptr != 0 then
             && created == old(created) + 1 && inFlight == old(inFlight) + {ptr}
             && heap == old(heap)[ptr := Timer(when, delta, repeat, created)]
           else heap == old(heap) && inFlight == old(inFlight)
      case AddInLoop(ptr, _) =>
        && heap == old(heap) && dead == old(dead) && inFlight == old(inFlight) - {ptr}
        && if ptr in old(inFlight) then ptr in heap && active == old(active) + {(ptr, heap[ptr].sequence)}
           else active == old(active) && timers == old(timers)
      case Cancel(ptr, sequence) =>
        && dead == old(dead) + (if old(Cancellable(ptr, sequence)) then {sequence} else {})
        && active == old(active) - {(ptr, sequence)} && inFlight == old(inFlight)
        && heap == if (ptr, sequence) in old(active) then old(heap) - {ptr} else old(heap)
    }

    method Perform(op: Op)
      requires Valid()
      modifies this`heap, this`created, this`timers, this`active, this`canceling, this`fd
      modifies this`inFlight, this`out, this`dead
      ensures Valid() && BatchUntouched() && Performed(op)
    {
      match op
      case Create(ptr, when, delta, repeat) =>
        if ptr !in heap && ptr != 0 {
          var _ := New(ptr, when, delta, repeat);
        }
      case AddInLoop(ptr, clock) =>
        if ptr in inFlight {
          AddTimerInLoop(ptr, clock);
        }
      case Cancel(ptr, sequence) =>
        ActiveIsNotOut(Books(), ptr, sequence);
        CancelInLoop(ptr, sequence);
    }

    /** One callback: any operations on the manager, in any order. */
    method Callback(ops: seq<Op>)
      requires Valid()
      modifies this`heap, this`created, this`timers, this`active, this`canceling, this`fd
      modifies this`inFlight, this`out, this`dead
      ensures Valid() && BatchUntouched()
    {
      var j := 0;
      while j < |ops|
        invariant j <= |ops| && Valid() && BatchUntouched()
      {
        Perform(ops[j]);
        j := j + 1;
      }
    }

    /** `Timer::restart` for a timer of the batch. */
    method Restart(ptr: nat, now: int)
      requires Consistent() && ptr in out
      modifies this`heap
      ensures Consistent()
      ensures heap == old(heap)[ptr := Restarted(old(heap)[ptr], now)]
    {
      GoodRestart(Books(), ptr, Restarted(heap[ptr], now).expiration);
      if heap[ptr].repeat {
        heap := heap[ptr := heap[ptr].(expiration := now + heap[ptr].delta)];
      } else {
        heap := heap[ptr := heap[ptr].(expiration := INVALID)];
      }
    }

    /** A timer of the batch is destroyed. */
    method Release(ptr: nat)
      requires Consistent() && ptr in out
      modifies this`heap, this`inFlight, this`out
      ensures Consistent() && heap == old(heap) - {ptr} && out == old(out) - {ptr}
    {
      assert OnePlace(heap, inFlight, out, active, ptr);
      GoodFree(Books(), ptr, dead);
      heap, inFlight, out := heap - {ptr}, inFlight - {ptr}, out - {ptr};
    }

    /** What `reset` does for one timer of the batch; one that is not put back is destroyed. */
    method Settle(ptr: nat, now: int)
      requires Consistent() && ptr in out && now > 0 && InTime(timers, fd, true)
      modifies this`heap, this`timers, this`active, this`inFlight, this`out
      ensures Consistent() && out == old(out) - {ptr} && InTime(timers, fd, true) && old(active) <= active
      ensures forall a :: a in active ==> a in old(active) || a.0 == ptr
      ensures heap == Settled(old(heap), ptr, now, dead)
      ensures Rescheduled(old(heap)[ptr], dead) ==> (ptr, old(heap)[ptr].sequence) in active
    {
      var timer := (ptr, heap[ptr].sequence);
      assert timer in canceling <==> heap[ptr].sequence in dead;
      if heap[ptr].repeat && timer !in canceling {
        InsertedInTime(timers, Entry(now + heap[ptr].delta, ptr), fd);
        Restart(ptr, now);
        var _ := Insert(ptr);
      } else {
        Release(ptr);
      }
    }

    method SettleNext(expired: seq<Entry>, i: nat, now: int, ghost before: Heap, ghost were: Actives)
      requires Consistent() && now > 0 && InTime(timers, fd, true) && DistinctPtrs(expired)
      requires i < |expired| && out == PtrsOf(expired[i..]) && PartSettled(before, heap, were, active, expired, i, now, dead)
      modifies this`heap, this`timers, this`active, this`inFlight, this`out
      ensures Consistent() && out == PtrsOf(expired[i + 1..]) && InTime(timers, fd, true)
      ensures PartSettled(before, heap, were, active, expired, i + 1, now, dead)
    {
      PtrsOfFrom(expired, i);
      ghost var heap0, active0 := heap, active;
      Settle(expired[i].ptr, now);
      BatchStep(before, heap0, active0, heap, active, expired, i, now, dead);
    }

    method SettleBatch(expired: seq<Entry>, now: int)
      requires Consistent() && now > 0 && InTime(timers, fd, true)
      requires out == PtrsOf(expired) && DistinctPtrs(expired)
      modifies this`heap, this`timers, this`active, this`inFlight, this`out
      ensures Consistent() && out == {} && InTime(timers, fd, true)
      ensures BatchSettled(old(heap), heap, active, expired, now, dead)
      ensures OthersStay(old(heap), heap, old(active), active, PtrsOf(expired))
    {
      var i := 0;
      assert expired[0..] == expired;
      while i < |expired|
        invariant i <= |expired| && Consistent() && out == PtrsOf(expired[i..]) && InTime(timers, fd, true)
        invariant PartSettled(old(heap), heap, old(active), active, expired, i, now, dead)
      {
        SettleNext(expired, i, now, old(heap), old(active));
        i := i + 1;
      }
      assert expired[..i] == expired;
    }

    method Reset(expired: seq<Entry>, now: int, clock: int)
      requires Consistent() && !calling && now > 0 && InTime(timers, fd, true)
      requires out == PtrsOf(expired) && DistinctPtrs(expired)
      modifies this`heap, this`timers, this`active, this`inFlight, this`out, this`fd
      ensures Valid()
      ensures BatchSettled(old(heap), heap, active, expired, now, dead)
      ensures OthersStay(old(heap), heap, old(active), active, PtrsOf(expired))
    {
      SettleBatch(expired, now);
      var nextExpire := INVALID;
      if timers != [] {
        assert Listed(heap, active, timers[0]);
        nextExpire := heap[timers[0].ptr].expiration;
      }
      if nextExpire > 0 {
        ResetTimerfd(nextExpire, clock);
      }
    }

    method CallOne(ptr: nat, ops: seq<Op>)
      requires Valid() && ptr in out
      modifies this`heap, this`created, this`timers, this`active, this`canceling, this`fd
      modifies this`inFlight, this`out, this`dead, this`fired
      ensures Valid() && BatchUntouched() && fired == old(fired) + [old(heap)[ptr].sequence]
    {
      fired := fired + [heap[ptr].sequence];
      Callback(ops);
    }

    /** The callbacks of the batch, each run once in the order of expiration, whatever they do. */
    method CallBatch(expired: seq<Entry>, script: seq<seq<Op>>)
      requires Valid() && calling && out == PtrsOf(expired) && StillOut(heap, heap, expired, 0)
      modifies this`heap, this`created, this`timers, this`active, this`canceling, this`fd
      modifies this`inFlight, this`out, this`dead, this`fired
      ensures Valid() && BatchUntouched() && StillOut(old(heap), heap, expired, 0)
      ensures fired == old(fired) + Numbers(old(heap), expired)
    {
      var i := 0;
      while i < |expired|
        invariant i <= |expired| && Valid() && BatchUntouched()
        invariant fired == old(fired) + Numbers(old(heap), expired)[..i]
      {
        NextIsOut(old(heap), heap, out, expired, i);
        NumbersStep(old(heap), expired, i);
        ghost var heap0 := heap;
        CallOne(expired[i].ptr, if i < |script| then script[i] else []);
        KeptStill(old(heap), heap0, heap, out);
        i := i + 1;
      }
      BatchOut(old(heap), heap, out, expired);
    }

    /** `handleRead` up to the first callback: the timerfd read, the due timers taken out. */
    method BeginBatch(now: int, readAt: int) returns (expired: seq<Entry>)
      requires Valid() && !calling && 0 < now <= readAt
      modifies this`timers, this`active, this`out, this`fd, this`calling, this`canceling
      ensures Valid() && calling && out == PtrsOf(expired) && DistinctPtrs(expired)
      ensures expired == old(timers)[..Due(old(timers), now)]
      ensures StillOut(heap, heap, expired, 0)
      ensures forall i :: 0 <= i < |expired| ==> heap[expired[i].ptr].sequence !in dead
    {
      if fd.Armed? && fd.deadline <= readAt {
        fd := Disarmed;
      }
      expired := GetExpired(now);
      calling, canceling := true, {};
    }

    /** `handleRead` behind the last callback. */
    method EndBatch(expired: seq<Entry>, now: int, clock: int, ghost before: Heap)
      requires Valid() && calling && now > 0 && out == PtrsOf(expired) && DistinctPtrs(expired)
      requires StillOut(before, heap, expired, 0)
      modifies this`heap, this`timers, this`active, this`inFlight, this`out, this`fd, this`calling
      ensures Valid() && !calling && BatchSettled(before, heap, active, expired, now, dead)
    {
      ghost var between := heap;
      calling := false;
      Reset(expired, now, clock);
      SettledFrom(before, between, heap, active, expired, now, dead);
    }

    /**
     `handleRead` with `now` read before the timerfd (read at `readAt`), the callbacks doing what the
     script says, and the timerfd set again at `resetAt`. Exactly the timers due at `now` are run, each
     once and in order of expiration, also one that an earlier callback of the batch cancels; but a
     timer cancelled before is not among them, and one cancelled meanwhile does not come back.
     */
    method HandleRead(now: int, readAt: int, resetAt: int, script: seq<seq<Op>>)
      requires Valid() && !calling && 0 < now <= readAt
      modifies this
      ensures Valid() && !calling && old(dead) <= dead
      ensures var due := old(timers)[..Due(old(timers), now)];
        && (forall i :: 0 <= i < |due| ==> due[i].ptr in old(heap))
        && fired == old(fired) + Numbers(old(heap), due)
        && (forall i :: 0 <= i < |due| ==> old(heap)[due[i].ptr].sequence !in old(dead))
        && BatchSettled(old(heap), heap, active, due, now, dead)
    {
      var expired := BeginBatch(now, readAt);
      ghost var heap0 := heap;
      CallBatch(expired, script);
      EndBatch(expired, now, resetAt, heap0);
    }
  }
}
