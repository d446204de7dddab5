/**
 The size-rotated log file: records are appended to the active file, and when it would reach its
 limit the chain of files is renamed one index up and a new active file begun.

 There is no handler. Which renames of a rotation fail is a parameter; other file operations succeed,
 and the size the file system reports is that of everything written.
 */
module RotatingFileSink {
  import opened LogRotation

  /** The chain when the renames to the indexes `p` and above have been made, of `n = |slots| - 1`. */
  function PartlyAt(slots: seq<Option<Bytes>>, p: nat, j: nat): Option<Bytes>
    requires |slots| >= 2 && j < |slots|
  {
    var n := |slots| - 1;
    if p > n || j + 1 < p then slots[j]
    else if j + 1 == p then None
    else if j == n && slots[n - 1].None? then slots[n]
    else if j == 0 then None else slots[j - 1]
  }

  predicate Partly(slots: seq<Option<Bytes>>, p: nat, files: Files, base: string)
    requires |slots| >= 2
  {
    forall j: nat :: j < |slots| ==> At(files, base, j) == PartlyAt(slots, p, j)
  }

  function Renamed(files: Files, src: string, dst: string): Files
    requires src in files
  {
    files[dst := files[src]] - {src}
  }

  lemma HeldRenamed(files: Files, src: string, dst: string, name: string)
    requires src in files && src != dst
    ensures Held(Renamed(files, src, dst), name)
      == if name == dst then Held(files, src) else if name == src then None else Held(files, name)
  {
  }

  lemma AtRenamed(files: Files, base: string, p: nat, j: nat)
    requires 1 <= p && FileName(base, p - 1) in files
    ensures At(Renamed(files, FileName(base, p - 1), FileName(base, p)), base, j)
      == if j == p then At(files, base, p - 1) else if j + 1 == p then None else At(files, base, j)
  {
    NamesDiffer(base, p - 1, p);
    HeldRenamed(files, FileName(base, p - 1), FileName(base, p), FileName(base, j));
    if j != p {
      NamesDiffer(base, j, p);
    }
    if j + 1 != p {
      NamesDiffer(base, j, p - 1);
    }
  }

  /** Another rename moves the chain one step on; a file that is not there need not be moved. */
  lemma PartlyOn(slots: seq<Option<Bytes>>, p: nat, j: nat)
    requires |slots| >= 2 && 1 <= p < |slots| && j < |slots|
    ensures PartlyAt(slots, p + 1, p - 1) == slots[p - 1]
    ensures slots[p - 1].Some? ==>
      PartlyAt(slots, p, j) == if j == p then slots[p - 1] else if j + 1 == p then None else PartlyAt(slots, p + 1, j)
    ensures slots[p - 1].None? ==> PartlyAt(slots, p, j) == PartlyAt(slots, p + 1, j)
  {
  }

  lemma RenameStep(slots: seq<Option<Bytes>>, p: nat, files: Files, base: string)
    requires |slots| >= 2 && 1 <= p < |slots| && Partly(slots, p + 1, files, base)
    ensures At(files, base, p - 1) == slots[p - 1]
    ensures FileName(base, p - 1) in files ==>
      Partly(slots, p, Renamed(files, FileName(base, p - 1), FileName(base, p)), base)
    ensures FileName(base, p - 1) !in files ==> Partly(slots, p, files, base)
  {
    PartlyOn(slots, p, p - 1);
    assert At(files, base, p - 1) == slots[p - 1];
    if FileName(base, p - 1) in files {
      forall j: nat | j < |slots|
        ensures At(Renamed(files, FileName(base, p - 1), FileName(base, p)), base, j) == PartlyAt(slots, p, j)
      {
        AtRenamed(files, base, p, j);
        PartlyOn(slots, p, j);
      }
    } else {
      forall j: nat | j < |slots| ensures At(files, base, j) == PartlyAt(slots, p, j) {
        PartlyOn(slots, p, j);
      }
    }
  }

  lemma {:induction false} StreamConcat(a: seq<Option<Bytes>>, b: seq<Option<Bytes>>)
    ensures Stream(a + b) == Stream(b) + Stream(a)
    decreases |a|
  {
    if a == [] {
      assert a + b == b && Stream(b) + [] == Stream(b);
    } else {
      StreamConcat(a[1..], b);
      assert (a + b)[0] == a[0] && (a + b)[1..] == a[1..] + b;
      assert Stream(b) + (Stream(a[1..]) + Content(a[0])) == Stream(b) + Stream(a[1..]) + Content(a[0]);
    }
  }

  lemma PartlySlot(slots: seq<Option<Bytes>>, p: nat, j: nat)
    requires |slots| >= 2 && 1 <= p < |slots| && j < |slots|
    ensures PartlyAt(slots, p, j) == if j < p - 1 then slots[j] else Shifted(slots[p - 1..])[j - (p - 1)]
  {
    var high := slots[p - 1..];
    var n := |high| - 1;
    assert high[n] == slots[|slots| - 1] && high[n - 1] == slots[|slots| - 2];
    assert j >= p ==> high[j - p] == slots[j - 1];
  }

  lemma PartlyIs(slots: seq<Option<Bytes>>, p: nat, files: Files, base: string)
    requires |slots| >= 2 && 1 <= p < |slots| && Partly(slots, p, files, base)
    ensures Slots(files, base, |slots| - 1) == slots[..p - 1] + Shifted(slots[p - 1..])
  {
    var low, high := slots[..p - 1], Shifted(slots[p - 1..]);
    var after := Slots(files, base, |slots| - 1);
    forall j: nat | j < |slots| ensures after[j] == (low + high)[j] {
      assert At(files, base, j) == PartlyAt(slots, p, j);
      PartlySlot(slots, p, j);
    }
  }

  lemma PartsConserve(low: seq<Option<Bytes>>, high: seq<Option<Bytes>>)
    requires |high| >= 2
    ensures Evicted(high) + Stream(low + Shifted(high)) == Stream(low + high)
  {
    StreamConcat(low, Shifted(high));
    StreamConcat(low, high);
    RotationConserves(high);
    Reassoc(Evicted(high), Stream(Shifted(high)), Stream(low), Stream(high));
  }

  /** Stopped half way, a rotation has still lost no more than it evicts. */
  lemma PartlyConserves(slots: seq<Option<Bytes>>, p: nat, files: Files, base: string)
    requires |slots| >= 2 && 1 <= p < |slots| && Partly(slots, p, files, base)
    ensures Evicted(slots) + Stream(Slots(files, base, |slots| - 1)) == Stream(slots)
  {
    PartlyIs(slots, p, files, base);
    SplitConserves(slots, slots[..p - 1], slots[p - 1..]);
  }

  lemma SplitConserves(slots: seq<Option<Bytes>>, low: seq<Option<Bytes>>, high: seq<Option<Bytes>>)
    requires |slots| >= 2 && |high| >= 2 && |low| + |high| == |slots|
    requires low == slots[..|low|] && high == slots[|low|..]
    ensures Evicted(slots) + Stream(low + Shifted(high)) == Stream(slots)
  {
    EvictedHigh(slots, |low|, high);
    JoinedAgain(slots, |low|);
    PartsConserve(low, high);
  }

  lemma EvictedHigh(slots: seq<Option<Bytes>>, k: nat, high: seq<Option<Bytes>>)
    requires |high| >= 2 && k + |high| == |slots| && high == slots[k..]
    ensures Evicted(high) == Evicted(slots)
  {
    assert high[|high| - 1] == slots[|slots| - 1] && high[|high| - 2] == slots[|slots| - 2];
  }

  lemma JoinedAgain(slots: seq<Option<Bytes>>, k: nat)
    requires k <= |slots|
    ensures slots[..k] + slots[k..] == slots
  {
  }

  lemma Reassoc(a: Bytes, b: Bytes, c: Bytes, ab: Bytes)
    requires a + b == ab
    ensures a + (b + c) == ab + c
  {
  }

  lemma NothingLost(before: Bytes, dropped: Bytes, rest: Bytes)
    ensures dropped + rest + [] == dropped + rest && before + (dropped + rest) == before + dropped + rest
  {
  }

  lemma Assoc(a: Bytes, b: Bytes, c: Bytes)
    ensures a + (b + c) == a + b + c
  {
  }

  /** Writing the active file changes the newest end of the stream only. */
  lemma ActiveWritten(files: Files, base: string, n: nat, content: Bytes)
    requires n >= 1
    ensures Stream(Slots(files[base := content], base, n)) == Stream(Slots(files, base, n)[1..]) + content
    ensures Stream(Slots(files, base, n)) == Stream(Slots(files, base, n)[1..]) + Content(Held(files, base))
  {
    var before, after := Slots(files, base, n), Slots(files[base := content], base, n);
    forall j: nat | 1 <= j <= n ensures after[j] == before[j] {
      NamesDiffer(base, j, 0);
      HeldWritten(files, base, content, FileName(base, j));
    }
    assert after[1..] == before[1..];
    HeldWritten(files, base, content, base);
  }

  lemma HeldWritten(files: Files, name: string, content: Bytes, other: string)
    ensures Held(files[name := content], other) == if other == name then Some(content) else Held(files, other)
  {
  }

  /** No file of the chain waits for a rename to an index beyond `index` that is going to fail. */
  predicate NoneBlocked(slots: seq<Option<Bytes>>, broken: set<nat>, index: nat) {
    forall i :: i in broken && index < i < |slots| ==> slots[i - 1].None?
  }

  lemma BlockedAt(slots: seq<Option<Bytes>>, broken: set<nat>, index: nat)
    requires 0 < index < |slots| && index in broken && slots[index - 1].Some?
    ensures !NoneBlocked(slots, broken, 0)
  {
  }

  lemma UnblockedAt(slots: seq<Option<Bytes>>, broken: set<nat>, index: nat)
    requires 0 < index < |slots| && NoneBlocked(slots, broken, index)
    requires index !in broken || slots[index - 1].None?
    ensures NoneBlocked(slots, broken, index - 1)
  {
  }

  lemma StartPartly(files: Files, base: string, n: nat)
    requires n > 0
    ensures Partly(Slots(files, base, n), n + 1, files, base)
  {
  }

  /** Whether already the first rename, to the last index, fails. */
  predicate FirstBlocked(slots: seq<Option<Bytes>>, broken: set<nat>)
    requires |slots| >= 2
  {
    |slots| - 1 in broken && slots[|slots| - 2].Some?
  }

  /** What a rotation drops at the old end of the stream. */
  function Dropped(slots: seq<Option<Bytes>>, broken: set<nat>): Bytes
    requires |slots| >= 2
  {
    if FirstBlocked(slots, broken) then [] else Evicted(slots)
  }

  lemma RestartStream(slots: seq<Option<Bytes>>, p: nat, files: Files, base: string)
    requires |slots| >= 2 && Partly(slots, p, files, base)
    ensures Stream(Slots(files, base, |slots| - 1))
      == Stream(Slots(files[base := []], base, |slots| - 1)) + Content(PartlyAt(slots, p, 0))
  {
    assert Held(files, base) == At(files, base, 0) == PartlyAt(slots, p, 0);
    ActiveWritten(files, base, |slots| - 1, []);
    assert Stream(Slots(files, base, |slots| - 1)[1..]) + [] == Stream(Slots(files, base, |slots| - 1)[1..]);
  }

  /**
   A new active file takes the place of nothing after all renames; after a failed one the active file
   is still in its place, and its content is lost.
   */
  lemma Restarted(slots: seq<Option<Bytes>>, p: nat, files: Files, base: string, dropped: Bytes)
    requires |slots| >= 2 && 1 <= p <= |slots| && Partly(slots, p, files, base)
    requires dropped == if p == |slots| then [] else Evicted(slots)
    ensures dropped + Stream(Slots(files[base := []], base, |slots| - 1)) + (if p == 1 then [] else Content(slots[0]))
      == Stream(slots)
  {
    var rest := Stream(Slots(files[base := []], base, |slots| - 1));
    var lost := if p == 1 then [] else Content(slots[0]);
    RestartStream(slots, p, files, base);
    Assoc(dropped, rest, lost);
    if p < |slots| {
      PartlyConserves(slots, p, files, base);
    } else {
      NothingRenamed(slots, files, base);
      assert [] + (rest + lost) == rest + lost;
    }
  }

  lemma NothingRenamed(slots: seq<Option<Bytes>>, files: Files, base: string)
    requires |slots| >= 2 && Partly(slots, |slots|, files, base)
    ensures Slots(files, base, |slots| - 1) == slots
  {
    forall j: nat | j < |slots| ensures Slots(files, base, |slots| - 1)[j] == slots[j] {
      assert At(files, base, j) == PartlyAt(slots, |slots|, j);
    }
  }

  /** Writing the active file changes no other slot. */
  lemma ActiveSlot(files: Files, base: string, n: nat, content: Bytes)
    ensures Slots(files[base := content], base, n) == Slots(files, base, n)[0 := Some(content)]
  {
    forall j: nat | 1 <= j <= n ensures At(files[base := content], base, j) == At(files, base, j) {
      NamesDiffer(base, j, 0);
    }
  }

  /** All renames made, the chain is shifted, whatever then begins the active file. */
  lemma WhollyShifted(slots: seq<Option<Bytes>>, files: Files, base: string, content: Bytes)
    requires |slots| >= 2 && Partly(slots, 1, files, base)
    ensures Slots(files[base := content], base, |slots| - 1) == Shifted(slots)[0 := Some(content)]
  {
    PartlyIs(slots, 1, files, base);
    assert slots[..0] == [] && slots[0..] == slots;
    assert [] + Shifted(slots) == Shifted(slots);
    ActiveSlot(files, base, |slots| - 1, content);
  }

  /** No file but those of the chain has changed. */
  ghost predicate OthersKept(before: Files, after: Files, base: string, n: nat) {
    forall name: string :: (forall j: nat :: j <= n ==> FileName(base, j) != name) ==> Held(after, name) == Held(before, name)
  }

  lemma RenamedKeeps(before: Files, files: Files, base: string, n: nat, p: nat)
    requires OthersKept(before, files, base, n) && 1 <= p <= n && FileName(base, p - 1) in files
    ensures OthersKept(before, Renamed(files, FileName(base, p - 1), FileName(base, p)), base, n)
  {
    NamesDiffer(base, p - 1, p);
    forall name: string | forall j: nat :: j <= n ==> FileName(base, j) != name
      ensures Held(Renamed(files, FileName(base, p - 1), FileName(base, p)), name) == Held(before, name)
    {
      HeldRenamed(files, FileName(base, p - 1), FileName(base, p), name);
    }
  }

  lemma WrittenKeeps(before: Files, files: Files, base: string, n: nat, content: Bytes)
    requires OthersKept(before, files, base, n)
    ensures OthersKept(before, files[base := content], base, n)
  {
    forall name: string | forall j: nat :: j <= n ==> FileName(base, j) != name
      ensures Held(files[base := content], name) == Held(before, name)
    {
      assert FileName(base, 0) == base;
      HeldWritten(files, base, content, name);
    }
  }

  class RotatingFileSink {
    const base: string
    const maxSize: nat
    const maxFiles: nat
    var files: Files
    var currentSize: nat
    /** What rotations have dropped, and everything there ever was: found on opening or written since. */
    ghost var evicted: Bytes
    ghost var written: Bytes
    /** Whether every rename so far has succeeded. */
    ghost var intact: bool

    ghost function Chain(): seq<Option<Bytes>>
      reads this
    {
      Slots(files, base, maxFiles)
    }

    ghost function Active(): Bytes
      reads this
    {
      Content(Held(files, base))
    }

    ghost predicate Valid()
      reads this
    {
      && maxFiles > 0 && maxSize > 0
      && base in files && currentSize == |files[base]|
      && (intact ==> evicted + Stream(Chain()) == written)
    }

    constructor (base: string, maxSize: nat, maxFiles: nat, files: Files)
      requires maxSize > 0 && maxFiles > 0
      ensures Valid() && this.base == base && this.maxSize == maxSize && this.maxFiles == maxFiles
      ensures this.files == files[base := Content(Held(files, base))]
      ensures intact && evicted == [] && written == Stream(Slots(files, base, maxFiles))
    {
      this.base, this.maxSize, this.maxFiles := base, maxSize, maxFiles;
      this.files := if base in files then files else files[base := []];
      currentSize := if base in files then |files[base]| else 0;
      evicted, written, intact := [], Stream(Slots(files, base, maxFiles)), true;
      new;
      ActiveWritten(files, base, maxFiles, Content(Held(files, base)));
      assert this.files == files[base := Content(Held(files, base))];
      assert evicted + Stream(Chain()) == Stream(Chain());
    }

    /**
     `rename_chain_`, from the oldest file down. It gives up at the first rename that fails; `p` is the
     last index that was dealt with.
     */
    method RenameChain(broken: set<nat>, ghost slots: seq<Option<Bytes>>) returns (ok: bool, ghost p: nat)
      requires maxFiles > 0 && slots == Chain()
      modifies this`files
      ensures ok <==> NoneBlocked(slots, broken, 0)
      ensures 1 <= p <= |slots| && (ok <==> p == 1) && Partly(slots, p, files, base)
      ensures p == |slots| <==> FirstBlocked(slots, broken)
      ensures OthersKept(old(files), files, base, maxFiles)
    {
      StartPartly(files, base, maxFiles);
      var index: nat := maxFiles;
      while index > 0
        invariant index <= maxFiles && Partly(slots, index + 1, files, base)
        invariant NoneBlocked(slots, broken, index)
        invariant index < maxFiles ==> !FirstBlocked(slots, broken)
        invariant OthersKept(old(files), files, base, maxFiles)
      {
        RenameStep(slots, index, files, base);
        var src, dst := FileName(base, index - 1), FileName(base, index);
        if src in files {
          if index in broken {
            BlockedAt(slots, broken, index);
            return false, index + 1;
          }
          RenamedKeeps(old(files), files, base, maxFiles, index);
          files := Renamed(files, src, dst);
        }
        UnblockedAt(slots, broken, index);
        index := index - 1;
      }
      ok, p := true, 1;
    }

    /** `rotate_`: rename the chain, then begin a new active file - also when a rename has failed. */
    method Rotate(broken: set<nat>) returns (ok: bool)
      requires Valid()
      modifies this`files, this`currentSize, this`evicted, this`intact
      ensures ok <==> NoneBlocked(old(Chain()), broken, 0)
      ensures base in files && files[base] == []
      ensures intact == (old(intact) && ok) && currentSize == (if ok then old(currentSize) else 0)
      ensures evicted == old(evicted) + Dropped(old(Chain()), broken)
      ensures Dropped(old(Chain()), broken) + Stream(Chain()) + (if ok then [] else old(Active())) == old(Stream(Chain()))
      ensures intact ==> evicted + Stream(Chain()) == written
      ensures ok ==> Chain() == Shifted(old(Chain()))[0 := Some([])]
      ensures OthersKept(old(files), files, base, maxFiles)
    {
      ghost var slots, p := Chain(), 0;
      ok, p := RenameChain(broken, slots);
      assert Content(slots[0]) == old(Active());
      Restarted(slots, p, files, base, Dropped(slots, broken));
      if ok {
        WhollyShifted(slots, files, base, []);
      }
      WrittenKeeps(old(files), files, base, maxFiles, []);
      evicted := evicted + Dropped(slots, broken);
      if !ok {
        currentSize := 0;
        intact := false;
      }
      files := files[base := []];
      if ok {
        NothingLost(old(evicted), Dropped(slots, broken), Stream(Chain()));
      }
    }

    method RotateNow(broken: set<nat>) returns (ok: bool)
      requires Valid()
      modifies this`files, this`currentSize, this`evicted, this`intact
      ensures Valid() && Active() == []
      ensures (ok <==> NoneBlocked(old(Chain()), broken, 0)) && intact == (old(intact) && ok)
      ensures ok ==> Chain() == Shifted(old(Chain()))[0 := Some([])] && evicted == old(evicted) + Evicted(old(Chain()))
      ensures OthersKept(old(files), files, base, maxFiles)
    {
      ok := Rotate(broken);
      if ok {
        currentSize := 0;
      }
    }

    /** Whether writing a record of this size begins a new active file. */
    predicate MustRotate(size: nat)
      reads this
    {
      currentSize + size >= maxSize && base in files && |files[base]| > 0
    }

    method Append(record: Bytes)
      requires maxFiles > 0 && base in files && (intact ==> evicted + Stream(Chain()) == written)
      modifies this`files, this`written
      ensures files == old(files)[base := old(files[base]) + record] && written == old(written) + record
      ensures intact ==> evicted + Stream(Chain()) == written
    {
      ActiveWritten(files, base, maxFiles, files[base] + record);
      ghost var older := Stream(Chain()[1..]);
      Assoc(older, files[base], record);
      Assoc(evicted, Stream(Chain()), record);
      files := files[base := files[base] + record];
      written := written + record;
    }

    /**
     `sink_it_`. If the rotation it needs fails, the record is not written; otherwise the active file
     stays below its limit, or is this one record.
     */
    method SinkIt(record: Bytes, broken: set<nat>) returns (ok: bool)
      requires Valid()
      modifies this`files, this`currentSize, this`evicted, this`written, this`intact
      ensures Valid()
      ensures ok <==> !old(MustRotate(|record|)) || NoneBlocked(old(Chain()), broken, 0)
      ensures written == (if ok then old(written) + record else old(written)) && intact == (old(intact) && ok)
      ensures ok ==> |Active()| < maxSize || Active() == record
      ensures !ok ==> Active() == []
      ensures !old(MustRotate(|record|)) ==>
        files == old(files)[base := old(Active()) + record] && evicted == old(evicted)
      ensures old(MustRotate(|record|)) && ok ==>
        Chain() == Shifted(old(Chain()))[0 := Some(record)] && evicted == old(evicted) + Evicted(old(Chain()))
      ensures OthersKept(old(files), files, base, maxFiles)
    {
      var newSize := currentSize + |record|;
      if newSize >= maxSize {
        if |files[base]| > 0 {
          ok := Rotate(broken);
          if !ok {
            return;
          }
          newSize := |record|;
        }
      }
      ActiveSlot(files, base, maxFiles, files[base] + record);
      WrittenKeeps(old(files), files, base, maxFiles, files[base] + record);
      Append(record);
      assert [] + record == record;
      currentSize := newSize;
      ok := true;
    }
  }

  datatype Op = Write(record: Bytes, broken: set<nat>) | RotateNow(broken: set<nat>)

  function Records(ops: seq<Op>): Bytes {
    if ops == [] then []
    else Records(ops[..|ops| - 1]) + RecordOf(ops[|ops| - 1])
  }

  function RecordOf(op: Op): Bytes {
    match op case Write(record, _) => record case RotateNow(_) => []
  }

  predicate NoFailures(ops: seq<Op>) {
    forall i :: 0 <= i < |ops| ==> ops[i].broken == {}
  }

  /** The constructor of the sink; it refuses a limit of zero. */
  method Open(base: string, maxSize: nat, maxFiles: nat, rotateOnOpen: bool, files: Files, broken: set<nat>)
    returns (sink: RotatingFileSink?, ok: bool)
    ensures sink == null <==> maxFiles == 0 || maxSize == 0
    ensures sink != null ==> fresh(sink) && sink.Valid() && sink.base == base && sink.maxFiles == maxFiles
    ensures sink != null ==> sink.written == Stream(Slots(files, base, maxFiles))
    ensures ok && sink != null ==> sink.intact && (rotateOnOpen ==> sink.Active() == [])
    ensures ok && sink != null ==>
      var found := Slots(files[base := Content(Held(files, base))], base, maxFiles);
      sink.Chain() == if rotateOnOpen then Shifted(found)[0 := Some([])] else found
  {
    ok := true;
    if maxFiles == 0 || maxSize == 0 {
      return null, false;
    }
    sink := new RotatingFileSink(base, maxSize, maxFiles, files);
    if rotateOnOpen {
      ok := sink.RotateNow(broken);
    }
  }

  lemma RecordsOn(before: Bytes, ops: seq<Op>, i: nat)
    requires i < |ops|
    ensures before + Records(ops[..i]) + RecordOf(ops[i]) == before + Records(ops[..i + 1])
  {
    assert ops[..i + 1][..i] == ops[..i];
    Assoc(before, Records(ops[..i]), RecordOf(ops[i]));
  }

  method Perform(sink: RotatingFileSink, op: Op)
    requires sink.Valid()
    modifies sink
    ensures sink.Valid()
    ensures op.broken == {} ==> sink.intact == old(sink.intact) && sink.written == old(sink.written) + RecordOf(op)
  {
    match op
    case Write(record, broken) => var _ := sink.SinkIt(record, broken);
    case RotateNow(broken) =>
      var _ := sink.RotateNow(broken);
      assert sink.written + [] == sink.written;
  }

  /**
   Over any run of writes and rotations in which no rename fails: what has been evicted, then the files
   from the oldest to the active one, are together what was found on opening and every record since,
   in order.
   */
  method Drive(sink: RotatingFileSink, ops: seq<Op>)
    requires sink.Valid()
    modifies sink
    ensures sink.Valid()
    ensures sink.intact ==> sink.evicted + Stream(sink.Chain()) == sink.written
    ensures NoFailures(ops) ==> sink.intact == old(sink.intact) && sink.written == old(sink.written) + Records(ops)
  {
    var i := 0;
    assert old(sink.written) + [] == sink.written;
    while i < |ops|
      invariant i <= |ops| && sink.Valid()
      invariant NoFailures(ops) ==>
        sink.intact == old(sink.intact) && sink.written == old(sink.written) + Records(ops[..i])
    {
      RecordsOn(old(sink.written), ops, i);
      Perform(sink, ops[i]);
      i := i + 1;
    }
    assert ops[..i] == ops;
  }
}
