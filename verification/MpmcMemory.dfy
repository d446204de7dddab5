/**
 The queue's memory as the code lays it out: a power-of-two array of cells addressed through a bit
 mask, two cursors, and the accesses as assignments to them.
 */
module MpmcMemory {
  import opened MpmcBoundedQueue

  function Pow2(k: nat): (n: nat)
    ensures n >= 1
  {
    if k == 0 then 1 else 2 * Pow2(k - 1)
  }

  /** The bitwise conjunction of two naturals. */
  function BitAnd(x: nat, y: nat): (r: nat)
    ensures r <= y
  {
    if x == 0 || y == 0 then 0
    else (if x % 2 == 1 && y % 2 == 1 then 1 else 0) + 2 * BitAnd(x / 2, y / 2)
  }

  /** Masking with a power of two less one is the remainder, which is why the capacity is rounded up. */
  lemma {:induction false} MaskIsRemainder(x: nat, k: nat)
    ensures BitAnd(x, Pow2(k) - 1) == x % Pow2(k)
    decreases k
  {
    if k > 0 {
      var y: nat := Pow2(k - 1) - 1;
      MaskIsRemainder(x / 2, k - 1);
      HalveRemainder(x, y + 1);
      MaskStep(x, y, x / 2 % (y + 1));
      assert Pow2(k) == 2 * (y + 1) && Pow2(k) - 1 == 2 * y + 1;
    }
  }

  /** One bit more of the mask. */
  lemma MaskStep(x: nat, y: nat, rest: nat)
    requires BitAnd(x / 2, y) == rest
    ensures BitAnd(x, 2 * y + 1) == 2 * rest + x % 2
  {
    var z := 2 * y + 1;
    assert z % 2 == 1 && z / 2 == y;
    if x > 0 {
      assert BitAnd(x, z) == (if x % 2 == 1 && z % 2 == 1 then 1 else 0) + 2 * BitAnd(x / 2, z / 2);
    } else {
      assert x / 2 == 0;
    }
  }

  lemma HalveRemainder(x: nat, half: nat)
    requires half > 0
    ensures x % (2 * half) == 2 * (x / 2 % half) + x % 2
  {
    var q, r := x / 2 / half, x / 2 % half;
    assert x / 2 == q * half + r;
    assert 2 * (q * half) == q * (2 * half);
    ModUnique(x, q, 2 * r + x % 2, 2 * half);
  }

  class BoundedQueue<T(0)> {
    var cells: array<Cell<T>>
    var mask: nat
    var enqueuePos: nat
    var dequeuePos: nat
    var threads: array<Pc<T>>
    ghost var rounds: nat
    ghost var values: seq<T>
    ghost var producers: seq<nat>
    ghost var consumers: seq<nat>
    ghost var delivered: map<nat, T>

    ghost predicate Valid()
      reads this
    {
      rounds >= 1 && cells.Length == Pow2(rounds) && mask == cells.Length - 1 && 2 <= cells.Length
    }

    ghost function View(): State<T>
      reads this, cells, threads
    {
      State(cells[..], enqueuePos, dequeuePos, threads[..], values, producers, consumers, delivered)
    }

    /** Rounds the wanted capacity up to a power of two, at least 2, and numbers the cells. */
    constructor (capacity: nat, threadCount: nat, blank: T)
      ensures Valid() && fresh(cells) && fresh(threads)
      ensures View() == Init(cells.Length, threadCount, blank)
      ensures capacity <= cells.Length
      ensures cells.Length == 2 || cells.Length < 2 * capacity
    {
      var pow2 := 2;
      ghost var k := 1;
      while pow2 < capacity
        invariant k >= 1 && pow2 == Pow2(k) && (pow2 == 2 || pow2 < 2 * capacity)
        decreases capacity - pow2
      {
        pow2 := pow2 * 2;
        k := k + 1;
      }
      mask := pow2 - 1;
      rounds := k;
      var slots := new Cell<T>[pow2](_ => Cell(0, blank));
      for i := 0 to pow2
        invariant forall j :: 0 <= j < i ==> slots[j] == Cell(j, blank)
        invariant forall j :: i <= j < pow2 ==> slots[j] == Cell(0, blank)
      {
        slots[i] := slots[i].(sequence := i);
      }
      cells := slots;
      threads := new Pc<T>[threadCount](_ => Idle);
      enqueuePos, dequeuePos := 0, 0;
      values, producers, consumers, delivered := [], [], [], map[];
    }

    method Slot(pos: nat) returns (i: nat)
      requires Valid()
      ensures i < cells.Length && i == SlotOf(pos, cells.Length)
    {
      MaskIsRemainder(pos, rounds);
      i := BitAnd(pos, mask);
    }

    /** The next access of a thread inside `enqueue`. */
    method EnqueueAccess(t: nat, spurious: bool)
      requires Valid() && t < threads.Length && Enqueues(threads[t])
      modifies this`enqueuePos, this`values, this`producers, cells, threads
      ensures Valid() && View() == Access(old(View()), t, spurious)
    {
      match threads[t]
      case EnqLoad(item) =>
        threads[t] := EnqSeq(item, enqueuePos);
      case EnqSeq(item, pos) =>
        var i := Slot(pos);
        var dif := cells[i].sequence - pos;
        threads[t] := if dif == 0 then EnqCas(item, pos) else if dif < 0 then Idle else EnqLoad(item);
      case EnqCas(item, pos) =>
        if enqueuePos == pos && !spurious {
          enqueuePos := pos + 1;
          values, producers := values + [item], producers + [t];
          threads[t] := EnqWrite(item, pos);
        } else {
          threads[t] := EnqLoad(item);
        }
      case EnqWrite(item, pos) =>
        var i := Slot(pos);
        cells[i] := cells[i].(data := item);
        threads[t] := EnqPublish(item, pos);
      case EnqPublish(_, pos) =>
        var i := Slot(pos);
        cells[i] := cells[i].(sequence := pos + 1);
        threads[t] := Idle;
    }

    /** The next access of a thread inside `dequeue`. */
    method DequeueAccess(t: nat, spurious: bool)
      requires Valid() && t < threads.Length && !threads[t].Idle? && !Enqueues(threads[t])
      modifies this`dequeuePos, this`consumers, this`delivered, cells, threads
      ensures Valid() && View() == Access(old(View()), t, spurious)
    {
      match threads[t]
      case DeqLoad =>
        threads[t] := DeqSeq(dequeuePos);
      case DeqSeq(pos) =>
        var i := Slot(pos);
        var dif := cells[i].sequence - (pos + 1);
        threads[t] := if dif == 0 then DeqCas(pos) else if dif < 0 then Idle else DeqLoad;
      case DeqCas(pos) =>
        if dequeuePos == pos && !spurious {
          dequeuePos := pos + 1;
          consumers := consumers + [t];
          threads[t] := DeqRead(pos);
        } else {
          threads[t] := DeqLoad;
        }
      case DeqRead(pos) =>
        var i := Slot(pos);
        threads[t] := DeqRelease(pos, cells[i].data);
      case DeqRelease(pos, out) =>
        var i := Slot(pos);
        cells[i] := cells[i].(sequence := pos + mask + 1);
        delivered := delivered[pos := out];
        threads[t] := Idle;
    }
  }

  predicate Enqueues<T>(pc: Pc<T>) {
    pc.EnqLoad? || pc.EnqSeq? || pc.EnqCas? || pc.EnqWrite? || pc.EnqPublish?
  }
}
