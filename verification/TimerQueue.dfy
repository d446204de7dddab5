/**
 The two ordered indexes of the timer manager, as values: the timers by expiration and address, and
 the active timers by address and sequence number, both over the live `Timer` objects.
 */
module TimerQueue {

  datatype Timer = Timer(expiration: int, delta: nat, repeat: bool, sequence: nat)

  /** An element of `timers_`: an expiration and the address of the timer it owns. */
  datatype Entry = Entry(time: int, ptr: nat)

  type Heap = map<nat, Timer>
  type Actives = set<(nat, nat)>

  /** `EntryCompare`. */
  predicate Before(a: Entry, b: Entry) {
    a.time < b.time || (a.time == b.time && a.ptr < b.ptr)
  }

  predicate Sorted(timers: seq<Entry>) {
    forall i, j :: 0 <= i < j < |timers| ==> Before(timers[i], timers[j])
  }

  /** `std::set::lower_bound`. */
  function LowerBound(timers: seq<Entry>, e: Entry): (k: nat)
    requires Sorted(timers)
    ensures k <= |timers|
    ensures forall i :: 0 <= i < k ==> Before(timers[i], e)
    ensures forall i :: k <= i < |timers| ==> !Before(timers[i], e)
  {
    if timers == [] || !Before(timers[0], e) then 0 else
      assert timers == [timers[0]] + timers[1..];
      1 + LowerBound(timers[1..], e)
  }

  function Inserted(timers: seq<Entry>, e: Entry): (r: seq<Entry>)
    requires Sorted(timers)
  {
    var k := LowerBound(timers, e);
    timers[..k] + [e] + timers[k..]
  }

  function Removed(timers: seq<Entry>, k: nat): seq<Entry>
    requires k < |timers|
  {
    timers[..k] + timers[k + 1..]
  }

  predicate Listed(heap: Heap, active: Actives, e: Entry) {
    e.ptr in heap && heap[e.ptr].expiration == e.time && (e.ptr, heap[e.ptr].sequence) in active
  }

  predicate Indexed(heap: Heap, timers: seq<Entry>, a: (nat, nat)) {
    a.0 in heap && heap[a.0].sequence == a.1 && Entry(heap[a.0].expiration, a.0) in timers
  }

  /** The two indexes describe the same timers, each under its current expiration. */
  predicate Agree(heap: Heap, timers: seq<Entry>, active: Actives) {
    && Sorted(timers)
    && (forall i :: 0 <= i < |timers| ==> Listed(heap, active, timers[i]))
    && (forall a :: a in active ==> Indexed(heap, timers, a))
  }

  lemma {:induction false} SameSize(heap: Heap, timers: seq<Entry>, active: Actives)
    requires Agree(heap, timers, active)
    ensures |timers| == |active|
    decreases |timers|
  {
    if timers == [] {
      assert forall a :: a in active ==> Indexed(heap, timers, a);
      assert active == {};
    } else {
      var n := |timers| - 1;
      var last := timers[n];
      RemoveAgrees(heap, timers, active, n);
      assert Removed(timers, n) == timers[..n];
      SameSize(heap, timers[..n], active - {(last.ptr, heap[last.ptr].sequence)});
    }
  }

  lemma RemoveAgrees(heap: Heap, timers: seq<Entry>, active: Actives, k: nat)
    requires Agree(heap, timers, active) && k < |timers|
    ensures Listed(heap, active, timers[k])
    ensures Agree(heap, Removed(timers, k), active - {(timers[k].ptr, heap[timers[k].ptr].sequence)})
  {
    var e := timers[k];
    var rest, active' := Removed(timers, k), active - {(e.ptr, heap[e.ptr].sequence)};
    forall i | 0 <= i < |rest| ensures Listed(heap, active', rest[i]) {
      var j := if i < k then i else i + 1;
      assert rest[i] == timers[j] && Listed(heap, active, timers[j]);
      assert if i < k then Before(timers[j], e) else Before(e, timers[j]);
    }
    forall a | a in active' ensures Indexed(heap, rest, a) {
      assert Indexed(heap, timers, a);
      var j :| 0 <= j < |timers| && timers[j] == Entry(heap[a.0].expiration, a.0);
      assert rest[if j < k then j else j - 1] == timers[j];
    }
  }

  lemma FindEntry(timers: seq<Entry>, e: Entry)
    requires Sorted(timers)
    ensures var k := LowerBound(timers, e); e in timers <==> k < |timers| && timers[k] == e
  {
    var k := LowerBound(timers, e);
    if k < |timers| {
      forall i | k < i < |timers| ensures timers[i] != e {
        assert Before(timers[k], timers[i]);
      }
    }
  }

  lemma InsertedMembers(timers: seq<Entry>, e: Entry, x: Entry)
    requires Sorted(timers)
    ensures x in Inserted(timers, e) <==> x == e || x in timers
  {
    var k := LowerBound(timers, e);
    assert timers == timers[..k] + timers[k..];
  }

  lemma InsertSorted(timers: seq<Entry>, e: Entry)
    requires Sorted(timers) && e !in timers
    ensures Sorted(Inserted(timers, e))
  {
    var k, r := LowerBound(timers, e), Inserted(timers, e);
    forall i, j | 0 <= i < j < |r| ensures Before(r[i], r[j]) {
      if i == k {
        assert r[j] == timers[j - 1] && timers[j - 1] != e;
      } else if j == k {
        assert r[i] == timers[i];
      } else {
        assert Before(timers[if i < k then i else i - 1], timers[if j < k then j else j - 1]);
      }
    }
  }

  lemma InsertAgrees(heap: Heap, timers: seq<Entry>, active: Actives, p: nat)
    requires Agree(heap, timers, active) && p in heap && (p, heap[p].sequence) !in active
    ensures Entry(heap[p].expiration, p) !in timers
    ensures Agree(heap, Inserted(timers, Entry(heap[p].expiration, p)), active + {(p, heap[p].sequence)})
  {
    var e := Entry(heap[p].expiration, p);
    assert e in timers ==> Listed(heap, active, e);
    InsertSorted(timers, e);
    var timers', active' := Inserted(timers, e), active + {(p, heap[p].sequence)};
    forall i | 0 <= i < |timers'| ensures Listed(heap, active', timers'[i]) {
      InsertedMembers(timers, e, timers'[i]);
    }
    forall a | a in active' ensures Indexed(heap, timers', a) {
      assert a in active ==> Indexed(heap, timers, a);
      InsertedMembers(timers, e, Entry(heap[a.0].expiration, a.0));
    }
  }

  /** Changing the objects neither index refers to changes nothing. */
  lemma OtherObjects(heap: Heap, heap': Heap, timers: seq<Entry>, active: Actives)
    requires Agree(heap, timers, active)
    requires forall a :: a in active ==> a.0 in heap' && heap'[a.0] == heap[a.0]
    ensures Agree(heap', timers, active)
  {
    forall i | 0 <= i < |timers| ensures Listed(heap', active, timers[i]) {
      assert Listed(heap, active, timers[i]);
    }
    forall a | a in active ensures Indexed(heap', timers, a) {
      assert Indexed(heap, timers, a);
    }
  }

  /** How many timers are due at `now`: `lower_bound` of the sentry, one past `now` with a null address. */
  function Due(timers: seq<Entry>, now: int): (n: nat)
    requires Sorted(timers)
    ensures n <= |timers|
    ensures forall i :: 0 <= i < n ==> timers[i].time <= now
    ensures forall i :: n <= i < |timers| ==> timers[i].time > now
  {
    LowerBound(timers, Entry(now + 1, 0))
  }

  function PtrsOf(entries: seq<Entry>): set<nat> {
    set i | 0 <= i < |entries| :: entries[i].ptr
  }

  predicate DistinctPtrs(entries: seq<Entry>) {
    forall i, j :: 0 <= i < j < |entries| ==> entries[i].ptr != entries[j].ptr
  }

  lemma AgreeDistinct(heap: Heap, timers: seq<Entry>, active: Actives)
    requires Agree(heap, timers, active)
    ensures DistinctPtrs(timers)
  {
    forall i, j | 0 <= i < j < |timers| ensures timers[i].ptr != timers[j].ptr {
      assert Before(timers[i], timers[j]) && Listed(heap, active, timers[i]) && Listed(heap, active, timers[j]);
    }
  }

  /** What stays active once the timers in `entries` are erased. */
  function Erased(active: Actives, entries: seq<Entry>): Actives {
    set a | a in active && a.0 !in PtrsOf(entries)
  }

  /** The timers from `k` on and what the others leave active agree. */
  lemma {:induction false} DropAgrees(heap: Heap, timers: seq<Entry>, active: Actives, k: nat)
    requires Agree(heap, timers, active) && k <= |timers|
    ensures Agree(heap, timers[k..], Erased(active, timers[..k]))
  {
    AgreeDistinct(heap, timers, active);
    var rest, active' := timers[k..], Erased(active, timers[..k]);
    forall i | 0 <= i < k ensures timers[i].ptr in PtrsOf(timers[..k]) {
      assert timers[..k][i] == timers[i];
    }
    forall i | 0 <= i < |rest| ensures Listed(heap, active', rest[i]) {
      assert rest[i] == timers[k + i] && Listed(heap, active, timers[k + i]);
    }
    forall a | a in active' ensures Indexed(heap, rest, a) {
      assert Indexed(heap, timers, a);
      var j :| 0 <= j < |timers| && timers[j] == Entry(heap[a.0].expiration, a.0);
      assert j >= k && rest[j - k] == timers[j];
    }
  }

  /** Erasing the timers of some entries one after another. */
  lemma EraseOne(heap: Heap, timers: seq<Entry>, active: Actives, i: nat)
    requires Agree(heap, timers, active) && i < |timers|
    ensures Listed(heap, active, timers[i])
    ensures var a := (timers[i].ptr, heap[timers[i].ptr].sequence);
      a in Erased(active, timers[..i]) && Erased(active, timers[..i + 1]) == Erased(active, timers[..i]) - {a}
  {
    var e := timers[i];
    AgreeDistinct(heap, timers, active);
    assert timers[..i + 1] == timers[..i] + [e];
    assert PtrsOf(timers[..i + 1]) == PtrsOf(timers[..i]) + {e.ptr} by {
      assert timers[..i + 1][i] == e;
      forall k | 0 <= k < i ensures timers[k].ptr in PtrsOf(timers[..i + 1]) {
        assert timers[..i + 1][k] == timers[k];
      }
      forall k | 0 <= k < i ensures timers[k].ptr in PtrsOf(timers[..i]) {
        assert timers[..i][k] == timers[k];
      }
    }
    forall a | a in active && a.0 == e.ptr ensures a.1 == heap[e.ptr].sequence {
      assert Indexed(heap, timers, a);
    }
  }
}
