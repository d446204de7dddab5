/**
 The ring under the blocking queue: one slot more than its capacity tells full from empty, and a
 push into a full ring overwrites the oldest item.
 */
module CircularQueue {

  /** Pushing onto a bounded sequence that drops its oldest item when there is no room. */
  function PushBounded<T>(q: seq<T>, x: T, cap: nat): (r: seq<T>)
    requires |q| <= cap
    ensures |r| <= cap
  {
    if |q| < cap then q + [x] else (q + [x])[1..]
  }

  /** The slots from `head` up to `tail`, around the end. */
  function Between<T>(slots: seq<T>, head: nat, tail: nat): seq<T>
    requires head <= |slots| && tail <= |slots|
  {
    if head <= tail then slots[head..tail] else slots[head..] + slots[..tail]
  }

  function Successor(i: nat, n: nat): (r: nat)
    requires i < n
    ensures r == if i + 1 < n then i + 1 else 0
  {
    (i + 1) % n
  }

  /** Writing at the tail and advancing it appends, as long as the tail does not meet the head. */
  lemma AdvanceAppends<T>(slots: seq<T>, head: nat, tail: nat, x: T)
    requires head < |slots| && tail < |slots| && Successor(tail, |slots|) != head
    ensures Between(slots[tail := x], head, Successor(tail, |slots|)) == Between(slots, head, tail) + [x]
  {
    var slots' := slots[tail := x];
    var next := Successor(tail, |slots|);
    if next == 0 {
      assert slots'[head..] + slots'[..0] == slots'[head..];
      assert slots'[head..] == slots[head..tail] + [x];
    } else {
      assert slots'[..next] == slots[..tail] + [x];
    }
  }

  /** When it does, the head moves on and the oldest item is gone. */
  lemma AdvanceOverwrites<T>(slots: seq<T>, head: nat, tail: nat, x: T)
    requires head < |slots| && tail < |slots| && Successor(tail, |slots|) == head
    ensures Between(slots[tail := x], Successor(head, |slots|), head) == (Between(slots, head, tail) + [x])[1..]
    ensures |Between(slots, head, tail)| == |slots| - 1
  {
    var slots' := slots[tail := x];
    var q := Between(slots, head, tail) + [x];
    var q' := Between(slots', Successor(head, |slots|), head);
    assert |q'| == |slots| - 1;
    forall k | 0 <= k < |q'| ensures q'[k] == q[k + 1] {
    }
  }

  class Ring<T(0)> {
    var maxItems: nat
    var head: nat
    var tail: nat
    var overrun: nat
    var items: array<T>

    ghost predicate Valid()
      reads this
    {
      && items.Length == maxItems
      && (if maxItems == 0 then head == tail == 0 else head < maxItems && tail < maxItems)
    }

    ghost function Contents(): seq<T>
      requires Valid()
      reads this, items
    {
      Between(items[..], head, tail)
    }

    ghost function Room(): nat
      requires Valid()
      reads this
    {
      if maxItems == 0 then 0 else maxItems - 1
    }

    /** `circular_q(max_items)` */
    constructor WithCapacity(capacity: nat)
      ensures Valid() && fresh(items) && Room() == capacity && maxItems > 0
      ensures Contents() == [] && overrun == 0
    {
      maxItems := capacity + 1;
      items := new T[capacity + 1];
      head, tail, overrun := 0, 0, 0;
    }

    /** The default-constructed ring has no slots at all and swallows what is pushed. */
    constructor Empty()
      ensures Valid() && maxItems == 0 && Contents() == [] && overrun == 0
    {
      maxItems := 0;
      items := new T[0];
      head, tail, overrun := 0, 0, 0;
    }

    method PushBack(item: T)
      requires Valid()
      modifies this`head, this`tail, this`overrun, items
      ensures Valid()
      ensures maxItems > 0 ==> Contents() == PushBounded(old(Contents()), item, Room())
      ensures maxItems > 0 ==> overrun == old(overrun) + (if |old(Contents())| == Room() then 1 else 0)
      ensures maxItems == 0 ==> Contents() == [] && overrun == old(overrun)
    {
      if maxItems > 0 {
        ghost var slots := items[..];
        if Successor(tail, maxItems) == head {
          AdvanceOverwrites(slots, head, tail, item);
        } else {
          AdvanceAppends(slots, head, tail, item);
        }
        items[tail] := item;
        assert items[..] == slots[tail := item];
        tail := Successor(tail, maxItems);
        if tail == head {
          head := Successor(head, maxItems);
          overrun := overrun + 1;
        }
      }
    }

    method Front() returns (item: T)
      requires Valid() && Contents() != []
      ensures item == Contents()[0]
    {
      item := items[head];
    }

    method PopFront()
      requires Valid() && Contents() != []
      modifies this`head
      ensures Valid() && Contents() == old(Contents())[1..]
    {
      head := Successor(head, maxItems);
    }

    method IsEmpty() returns (b: bool)
      requires Valid()
      ensures b <==> Contents() == []
    {
      b := head == tail;
    }

    method IsFull() returns (b: bool)
      requires Valid()
      ensures b <==> maxItems > 0 && |Contents()| == Room()
    {
      if maxItems > 0 {
        b := Successor(tail, maxItems) == head;
      } else {
        b := false;
      }
    }

    method Size() returns (n: nat)
      requires Valid()
      ensures n == |Contents()|
    {
      if tail >= head {
        n := tail - head;
      } else {
        n := maxItems - head + tail;
      }
    }
  }

  /**
   A bounded drop-oldest sequence keeps exactly the newest items: whatever has been pushed and
   however often, what is left is a suffix, and each push lost at most the one oldest item.
   */
  lemma PushKeepsSuffix<T>(all: seq<T>, gone: nat, x: T, cap: nat)
    requires gone <= |all| && |all| - gone <= cap
    ensures var gone' := if |all| - gone < cap then gone else gone + 1;
      PushBounded(all[gone..], x, cap) == (all + [x])[gone'..]
  {
    assert all[gone..] + [x] == (all + [x])[gone..];
  }
}
