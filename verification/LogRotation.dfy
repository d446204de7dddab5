/** File names of a rotation chain, and the chain as a row of slots. */
module LogRotation {
  import opened Decimals

  datatype Option<T> = None | Some(value: T)

  type Bytes = seq<int>
  type Files = map<string, Bytes>

  // ----- Names -----

  /** Where a name can be split: a dot with something on both sides, no folder in between, the last one. */
  predicate SplitsAt(name: string, k: nat) {
    && 0 < k < |name| - 1
    && name[k] == '.' && name[k - 1] != '/'
    && '.' !in name[k + 1..] && '/' !in name[k + 1..]
  }

  /** `rfind`: the last position of a character. */
  function LastIndexOf(s: string, c: char): (r: Option<nat>)
    ensures r.Some? ==> r.value < |s| && s[r.value] == c && c !in s[r.value + 1..]
    ensures r.None? ==> c !in s
  {
    if s == "" then None
    else
      var n := |s| - 1;
      if s[n] == c then Some(n)
      else
        var r := LastIndexOf(s[..n], c);
        assert s == s[..n] + [s[n]];
        assert r.Some? ==> s[r.value + 1..] == s[..n][r.value + 1..] + [s[n]];
        r
  }

  lemma {:induction false} LastIndexIs(s: string, c: char, k: nat)
    requires k < |s| && s[k] == c && c !in s[k + 1..]
    ensures LastIndexOf(s, c) == Some(k)
    decreases |s|
  {
    var n := |s| - 1;
    if k < n {
      assert s[k + 1..][n - k - 1] == s[n];
      assert s[k + 1..][..n - k - 1] == s[..n][k + 1..];
      LastIndexIs(s[..n], c, k);
    }
  }

  /** `split_by_extension`: base and extension make up the name, split where it can be split, if anywhere. */
  function SplitByExtension(name: string): (r: (string, string))
    ensures r.0 + r.1 == name
    ensures r.1 != "" ==> SplitsAt(name, |r.0|)
    ensures r.1 == "" ==> forall k: nat :: !SplitsAt(name, k)
  {
    var dot := LastIndexOf(name, '.');
    assert forall k: nat :: SplitsAt(name, k) ==> dot == Some(k) by {
      forall k: nat | SplitsAt(name, k) ensures dot == Some(k) {
        LastIndexIs(name, '.', k);
      }
    }
    if dot.None? || dot.value == 0 || dot.value == |name| - 1 then
      (name, "")
    else
      var folder := LastIndexOf(name, '/');
      assert folder.Some? && folder.value > dot.value ==> name[dot.value + 1..][folder.value - dot.value - 1] == '/';
      if folder.Some? && folder.value >= dot.value - 1 then
        (name, "")
      else
        (name[..dot.value], name[dot.value..])
  }

  /** `calc_filename`. */
  function FileName(base: string, index: nat): string {
    if index == 0 then base
    else
      var (stem, ext) := SplitByExtension(base);
      stem + "_" + Decimal(index) + ext
  }

  /** No two files of a chain have the same name. */
  lemma NamesDiffer(base: string, i: nat, j: nat)
    requires i != j
    ensures FileName(base, i) != FileName(base, j)
  {
    var (stem, ext) := SplitByExtension(base);
    if i == 0 || j == 0 {
      assert |stem + "_" + Decimal(i + j) + ext| > |base|;
    } else if FileName(base, i) == FileName(base, j) {
      var x, y := FileName(base, i), FileName(base, j);
      assert x[|stem| + 1..|x| - |ext|] == Decimal(i);
      assert y[|stem| + 1..|y| - |ext|] == Decimal(j);
      DecimalInjective(i, j);
    }
  }

  // ----- The chain -----

  function Held(files: Files, name: string): Option<Bytes> {
    if name in files then Some(files[name]) else None
  }

  function At(files: Files, base: string, i: nat): Option<Bytes> {
    Held(files, FileName(base, i))
  }

  /** The files of the chain by index, the active one first. */
  function Slots(files: Files, base: string, n: nat): (slots: seq<Option<Bytes>>)
    ensures |slots| == n + 1
  {
    seq(n + 1, i requires 0 <= i <= n => At(files, base, i))
  }

  function Content(slot: Option<Bytes>): Bytes {
    if slot.None? then [] else slot.value
  }

  /** The bytes of the whole chain, the oldest file first. */
  function Stream(slots: seq<Option<Bytes>>): Bytes {
    if slots == [] then [] else Stream(slots[1..]) + Content(slots[0])
  }

  /** The chain after a rotation: every file one index higher; the last is kept only if none comes to replace it. */
  function Shifted(slots: seq<Option<Bytes>>): (r: seq<Option<Bytes>>)
    requires |slots| >= 2
    ensures |r| == |slots|
  {
    var n := |slots| - 1;
    seq(n + 1, j requires 0 <= j <= n && |slots| == n + 1 =>
      if j == 0 then None else if j == n && slots[n - 1].None? then slots[n] else slots[j - 1])
  }

  /** What a rotation drops. */
  function Evicted(slots: seq<Option<Bytes>>): Bytes
    requires |slots| >= 2
  {
    if slots[|slots| - 2].None? then [] else Content(slots[|slots| - 1])
  }

  lemma {:induction false} StreamLast(slots: seq<Option<Bytes>>)
    requires slots != []
    ensures Stream(slots) == Content(slots[|slots| - 1]) + Stream(slots[..|slots| - 1])
    decreases |slots|
  {
    var n := |slots| - 1;
    if n > 0 {
      StreamLast(slots[1..]);
      assert slots[1..][..n - 1] == slots[..n][1..];
    }
  }

  lemma StreamFirst(slots: seq<Option<Bytes>>)
    requires slots != [] && Content(slots[0]) == []
    ensures Stream(slots) == Stream(slots[1..])
  {
  }

  lemma FullConserves(slots: seq<Option<Bytes>>)
    requires |slots| >= 2 && slots[|slots| - 2].Some?
    ensures Evicted(slots) + Stream(Shifted(slots)) == Stream(slots)
  {
    StreamFirst(Shifted(slots));
    StreamLast(slots);
    assert Shifted(slots)[1..] == slots[..|slots| - 1];
  }

  lemma EmptyLast(slots: seq<Option<Bytes>>)
    requires slots != [] && Content(slots[|slots| - 1]) == []
    ensures Stream(slots) == Stream(slots[..|slots| - 1])
  {
    StreamLast(slots);
    assert [] + Stream(slots[..|slots| - 1]) == Stream(slots[..|slots| - 1]);
  }

  lemma GapConserves(slots: seq<Option<Bytes>>)
    requires |slots| >= 2 && slots[|slots| - 2].None?
    ensures Evicted(slots) + Stream(Shifted(slots)) == Stream(slots)
  {
    var n := |slots| - 1;
    var rest := slots[..n - 1];
    var moved := rest + [slots[n]];
    assert Shifted(slots) == [None] + moved;
    assert Shifted(slots)[1..] == moved;
    StreamFirst(Shifted(slots));
    StreamLast(moved);
    StreamLast(slots);
    EmptyLast(slots[..n]);
    assert slots[..n][..n - 1] == rest && moved[..n - 1] == rest;
  }

  /** Conservation: a rotation loses what it evicts and nothing else, and keeps the order. */
  lemma RotationConserves(slots: seq<Option<Bytes>>)
    requires |slots| >= 2
    ensures Evicted(slots) + Stream(Shifted(slots)) == Stream(slots)
  {
    if slots[|slots| - 2].Some? {
      FullConserves(slots);
    } else {
      GapConserves(slots);
    }
  }
}
