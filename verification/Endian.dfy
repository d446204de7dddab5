/** Integers in memory and on the wire: byte order, and the swap between the two orders. */
module Endian {

  type Byte = x: int | 0 <= x < 256

  function Pow256(k: nat): (n: nat)
    ensures n > 0
  {
    if k == 0 then 1 else 256 * Pow256(k - 1)
  }

  /** The `k` bytes of `v`, least significant first. */
  function LittleEndian(v: nat, k: nat): (bytes: seq<Byte>)
    ensures |bytes| == k
  {
    if k == 0 then [] else [v % 256] + LittleEndian(v / 256, k - 1)
  }

  function FromLittleEndian(bytes: seq<Byte>): nat {
    if bytes == [] then 0 else bytes[0] + 256 * FromLittleEndian(bytes[1..])
  }

  /** The `k` bytes of `v` in network order, most significant first. */
  function BigEndian(v: nat, k: nat): (bytes: seq<Byte>)
    ensures |bytes| == k
  {
    if k == 0 then [] else BigEndian(v / 256, k - 1) + [v % 256]
  }

  function FromBigEndian(bytes: seq<Byte>): nat {
    if bytes == [] then 0 else FromBigEndian(bytes[..|bytes| - 1]) * 256 + bytes[|bytes| - 1]
  }

  function Reversed(bytes: seq<Byte>): (r: seq<Byte>)
    ensures |r| == |bytes|
  {
    if bytes == [] then [] else Reversed(bytes[1..]) + [bytes[0]]
  }

  /** How a machine of either kind lays a value out in memory, and reads it back. */
  function Stored(little: bool, v: nat, k: nat): (bytes: seq<Byte>)
    ensures |bytes| == k
  {
    if little then LittleEndian(v, k) else BigEndian(v, k)
  }

  function Loaded(little: bool, bytes: seq<Byte>): nat {
    if little then FromLittleEndian(bytes) else FromBigEndian(bytes)
  }

  /** `byteswap`: the value whose bytes in memory are those of `v` in the opposite order. */
  function Byteswap(v: nat, k: nat): nat {
    FromLittleEndian(Reversed(LittleEndian(v, k)))
  }

  function ByteswapOnLittleEndian(little: bool, v: nat, k: nat): nat {
    if little then Byteswap(v, k) else v
  }

  lemma {:induction false} LittleEndianRoundTrip(v: nat, k: nat)
    requires v < Pow256(k)
    ensures FromLittleEndian(LittleEndian(v, k)) == v
    decreases k
  {
    if k > 0 {
      LittleEndianRoundTrip(v / 256, k - 1);
    }
  }

  lemma ShiftByte(low: Byte, high: nat)
    ensures (low + 256 * high) % 256 == low && (low + 256 * high) / 256 == high
  {
  }

  lemma {:induction false} FromLittleEndianRoundTrip(bytes: seq<Byte>)
    ensures FromLittleEndian(bytes) < Pow256(|bytes|)
    ensures LittleEndian(FromLittleEndian(bytes), |bytes|) == bytes
    decreases |bytes|
  {
    if bytes != [] {
      FromLittleEndianRoundTrip(bytes[1..]);
      ShiftByte(bytes[0], FromLittleEndian(bytes[1..]));
    }
  }

  lemma {:induction false} BigEndianRoundTrip(v: nat, k: nat)
    requires v < Pow256(k)
    ensures FromBigEndian(BigEndian(v, k)) == v
    decreases k
  {
    if k > 0 {
      BigEndianRoundTrip(v / 256, k - 1);
      assert BigEndian(v, k)[..k - 1] == BigEndian(v / 256, k - 1);
    }
  }

  lemma {:induction false} ReversedAppend(bytes: seq<Byte>, b: Byte)
    ensures Reversed(bytes + [b]) == [b] + Reversed(bytes)
    decreases |bytes|
  {
    if bytes != [] {
      ReversedAppend(bytes[1..], b);
      assert (bytes + [b])[1..] == bytes[1..] + [b];
    }
  }

  lemma {:induction false} ReversedTwice(bytes: seq<Byte>)
    ensures Reversed(Reversed(bytes)) == bytes
    decreases |bytes|
  {
    if bytes != [] {
      ReversedTwice(bytes[1..]);
      ReversedAppend(Reversed(bytes[1..]), bytes[0]);
    }
  }

  lemma {:induction false} ReversedLittleIsBig(v: nat, k: nat)
    ensures Reversed(LittleEndian(v, k)) == BigEndian(v, k)
    decreases k
  {
    if k > 0 {
      ReversedLittleIsBig(v / 256, k - 1);
    }
  }

  lemma {:induction false} FromReversed(bytes: seq<Byte>)
    ensures FromLittleEndian(Reversed(bytes)) == FromBigEndian(bytes)
    decreases |bytes|
  {
    if bytes != [] {
      var n := |bytes| - 1;
      FromReversed(bytes[..n]);
      assert bytes == bytes[..n] + [bytes[n]];
      ReversedAppend(bytes[..n], bytes[n]);
    }
  }

  /** Swapping twice gives the value back. */
  lemma ByteswapTwice(v: nat, k: nat)
    requires v < Pow256(k)
    ensures Byteswap(v, k) < Pow256(k) && Byteswap(Byteswap(v, k), k) == v
  {
    FromLittleEndianRoundTrip(Reversed(LittleEndian(v, k)));
    ReversedTwice(LittleEndian(v, k));
    LittleEndianRoundTrip(v, k);
  }

  /** What is swapped and stored is network order, whatever the machine. */
  lemma StoredIsNetworkOrder(little: bool, v: nat, k: nat)
    requires v < Pow256(k)
    ensures Stored(little, ByteswapOnLittleEndian(little, v, k), k) == BigEndian(v, k)
  {
    FromLittleEndianRoundTrip(Reversed(LittleEndian(v, k)));
    ReversedLittleIsBig(v, k);
  }

  /** What is loaded and swapped is the value in network order, whatever the machine. */
  lemma LoadedFromNetworkOrder(little: bool, bytes: seq<Byte>)
    ensures ByteswapOnLittleEndian(little, Loaded(little, bytes), |bytes|) == FromBigEndian(bytes)
  {
    FromLittleEndianRoundTrip(bytes);
    FromReversed(bytes);
  }

  /** The integers of a signed type of `k` bytes, and their two's complement. */
  predicate Fits(x: int, k: nat) {
    var m: int := Pow256(k);
    -m <= 2 * x < m
  }

  function ToUnsigned(x: int, k: nat): (v: nat)
    requires Fits(x, k)
    ensures v < Pow256(k)
  {
    var m: int := Pow256(k);
    if x < 0 then x + m else x
  }

  function ToSigned(v: nat, k: nat): int {
    var m: int := Pow256(k);
    if 2 * v < m then v else v - m
  }

  /** An unsigned, and by two's complement a signed, integer survives network order. */
  lemma IntegerRoundTrip(x: int, k: nat)
    requires Fits(x, k)
    ensures ToSigned(FromBigEndian(BigEndian(ToUnsigned(x, k), k)), k) == x
  {
    BigEndianRoundTrip(ToUnsigned(x, k), k);
  }
}
