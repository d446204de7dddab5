/**
 The network buffer: a growing array whose readable bytes lie between two indexes, with room for
 prepending in front of them.
 */
module Buffer {
  import opened Endian

  const CHEAP_PREPEND: nat := 8
  const EXTRA_BUFFER: nat := 65536

  class Buffer {
    var data: array<Byte>
    var reader: nat
    var writer: nat

    ghost predicate Valid()
      reads this
    {
      reader <= writer <= data.Length && CHEAP_PREPEND <= data.Length
    }

    /** The readable bytes: what the buffer holds, seen as a deque of bytes. */
    ghost function Content(): seq<Byte>
      requires Valid()
      reads this, data
    {
      data[reader..writer]
    }

    constructor (initialSize: nat)
      ensures Valid() && fresh(data) && Content() == [] && reader == CHEAP_PREPEND
      ensures data.Length == CHEAP_PREPEND + initialSize
    {
      data := new Byte[CHEAP_PREPEND + initialSize](i => 0);
      reader, writer := CHEAP_PREPEND, CHEAP_PREPEND;
    }

    function ReadableBytes(): (n: nat)
      requires reader <= writer
      reads this
    {
      writer - reader
    }

    function WritableBytes(): nat
      requires writer <= data.Length
      reads this
    {
      data.Length - writer
    }

    method RetrieveAll()
      requires Valid()
      modifies this`reader, this`writer
      ensures Valid() && Content() == [] && reader == CHEAP_PREPEND
    {
      reader, writer := CHEAP_PREPEND, CHEAP_PREPEND;
    }

    /** Taking more than there is empties the buffer. */
    method Retrieve(len: nat)
      requires Valid()
      modifies this`reader, this`writer
      ensures Valid()
      ensures Content() == if len < |old(Content())| then old(Content())[len..] else []
    {
      if len < ReadableBytes() {
        reader := reader + len;
      } else {
        RetrieveAll();
      }
    }

    method RetrieveAsString(len: nat) returns (s: seq<Byte>)
      requires Valid() && len <= |Content()|
      modifies this`reader, this`writer
      ensures Valid() && s + Content() == old(Content()) && |s| == len
    {
      s := data[reader..reader + len];
      Retrieve(len);
    }

    method Grow(size: nat)
      requires Valid() && data.Length <= size
      modifies this`data
      ensures Valid() && data.Length == size && fresh(data) && Content() == old(Content())
    {
      var grown := new Byte[size](i => 0);
      forall i | 0 <= i < data.Length {
        grown[i] := data[i];
      }
      data := grown;
    }

    /**
     The readable bytes are copied forward to index 8. They start beyond it, so that copying from the
     front never overwrites a byte that is still to be copied.
     */
    method Compact()
      requires Valid() && reader > CHEAP_PREPEND
      modifies this`reader, this`writer, data
      ensures Valid() && reader == CHEAP_PREPEND && Content() == old(Content())
    {
      var readable := ReadableBytes();
      ghost var source := data[..];
      var i := 0;
      while i < readable
        invariant i <= readable
        invariant forall p :: CHEAP_PREPEND <= p < CHEAP_PREPEND + i ==> data[p] == source[reader - CHEAP_PREPEND + p]
        invariant forall p :: reader + i <= p < writer ==> data[p] == source[p]
        modifies data
      {
        data[CHEAP_PREPEND + i] := data[reader + i];
        i := i + 1;
      }
      SameSlice(data[..], source, CHEAP_PREPEND, reader, readable);
      reader := CHEAP_PREPEND;
      writer := reader + readable;
    }

    /** Called only when `len` bytes do not fit behind the readable ones; it compacts only if that helps. */
    method MakeSpace(len: nat)
      requires Valid() && WritableBytes() < len
      modifies this, data
      ensures Valid() && WritableBytes() >= len && Content() == old(Content())
      ensures data == old(data) || fresh(data)
      ensures data == old(data) ==> old(reader) > CHEAP_PREPEND && reader == CHEAP_PREPEND
    {
      if WritableBytes() + reader < len + CHEAP_PREPEND {
        Grow(writer + len);
      } else {
        Compact();
      }
    }

    method EnsureWritableBytes(len: nat)
      requires Valid()
      modifies this, data
      ensures Valid() && WritableBytes() >= len && Content() == old(Content())
      ensures data == old(data) || fresh(data)
    {
      if WritableBytes() < len {
        MakeSpace(len);
      }
    }

    method CopyBehind(bytes: seq<Byte>)
      requires Valid() && |bytes| <= WritableBytes()
      modifies data
      ensures Valid() && Content() == old(Content()) && data[writer..writer + |bytes|] == bytes
    {
      forall i | 0 <= i < |bytes| {
        data[writer + i] := bytes[i];
      }
    }

    method Append(bytes: seq<Byte>)
      requires Valid()
      modifies this, data
      ensures Valid() && Content() == old(Content()) + bytes
      ensures data == old(data) || fresh(data)
    {
      EnsureWritableBytes(|bytes|);
      CopyBehind(bytes);
      writer := writer + |bytes|;
    }

    method Prepend(bytes: seq<Byte>)
      requires Valid() && |bytes| <= reader
      modifies this`reader, data
      ensures Valid() && Content() == bytes + old(Content()) && reader == old(reader) - |bytes|
    {
      reader := reader - |bytes|;
      forall i | 0 <= i < |bytes| {
        data[reader + i] := bytes[i];
      }
    }

    /** How many bytes one `readv` may bring. */
    function ReadLimit(): nat
      requires writer <= data.Length
      reads this
    {
      if WritableBytes() < EXTRA_BUFFER then WritableBytes() + EXTRA_BUFFER else WritableBytes()
    }

    /** What the kernel does with the bytes: as many as fit go behind the readable ones, the rest aside. */
    method Scatter(incoming: seq<Byte>) returns (extra: seq<Byte>)
      requires Valid()
      modifies data
      ensures Valid() && Content() == old(Content())
      ensures |incoming| <= WritableBytes() ==> extra == [] && data[writer..writer + |incoming|] == incoming
      ensures |incoming| > WritableBytes() ==> data[writer..] + extra == incoming
    {
      var n := if |incoming| <= WritableBytes() then |incoming| else WritableBytes();
      CopyBehind(incoming[..n]);
      extra := incoming[n..];
    }

    /** `readFd` when `readv` succeeds with these bytes (none at the end of the stream). */
    method ReadFd(incoming: seq<Byte>)
      requires Valid() && |incoming| <= ReadLimit()
      modifies this, data
      ensures Valid() && Content() == old(Content()) + incoming
      ensures data == old(data) || fresh(data)
    {
      var writable := WritableBytes();
      var extra := Scatter(incoming);
      if |incoming| <= writable {
        writer := writer + |incoming|;
      } else {
        ghost var behind := data[writer..];
        Halves(data, reader, writer);
        writer := data.Length;
        assert Content() == old(Content()) + behind;
        Regroup(old(Content()), behind, extra);
        Append(extra);
      }
    }

    // ----- Typed access, on a machine of either byte order -----

    method AppendInt(little: bool, v: nat, k: nat)
      requires Valid() && v < Pow256(k)
      modifies this, data
      ensures Valid() && Content() == old(Content()) + BigEndian(v, k)
      ensures data == old(data) || fresh(data)
    {
      StoredIsNetworkOrder(little, v, k);
      Append(Stored(little, ByteswapOnLittleEndian(little, v, k), k));
    }

    method PrependInt(little: bool, v: nat, k: nat)
      requires Valid() && v < Pow256(k) && k <= reader
      modifies this`reader, data
      ensures Valid() && Content() == BigEndian(v, k) + old(Content())
    {
      StoredIsNetworkOrder(little, v, k);
      Prepend(Stored(little, ByteswapOnLittleEndian(little, v, k), k));
    }

    method PeekInt(little: bool, k: nat) returns (v: nat)
      requires Valid() && k <= |Content()|
      ensures v == FromBigEndian(Content()[..k])
    {
      var bytes := data[reader..reader + k];
      assert bytes == Content()[..k];
      LoadedFromNetworkOrder(little, bytes);
      v := ByteswapOnLittleEndian(little, Loaded(little, bytes), k);
    }

    method RetrieveInt(little: bool, k: nat) returns (v: nat)
      requires Valid() && k <= |Content()|
      modifies this`reader, this`writer
      ensures Valid() && v == FromBigEndian(old(Content())[..k]) && Content() == old(Content())[k..]
    {
      v := PeekInt(little, k);
      Retrieve(k);
    }
  }

  /**
   Whatever integer is prepended is read first, and whatever is appended is read when what was there
   before has been read; nothing else changes.
   */
  method IntegersComeBack(buffer: Buffer, little: bool, x: int, y: int, k: nat) returns (first: int, last: int)
    requires buffer.Valid() && k <= buffer.reader && Fits(x, k) && Fits(y, k)
    modifies buffer, buffer.data
    ensures buffer.Valid() && buffer.Content() == [] && first == x && last == y
  {
    var u, w := ToUnsigned(x, k), ToUnsigned(y, k);
    ghost var before := buffer.Content();
    IntegerRoundTrip(x, k);
    IntegerRoundTrip(y, k);
    buffer.PrependInt(little, u, k);
    buffer.AppendInt(little, w, k);
    Apart(BigEndian(u, k), before, BigEndian(w, k));
    var v := buffer.RetrieveInt(little, k);
    first := ToSigned(v, k);
    var skipped := buffer.RetrieveAsString(buffer.ReadableBytes() - k);
    SameSplit(before, BigEndian(w, k), skipped, buffer.Content());
    v := buffer.RetrieveInt(little, k);
    last := ToSigned(v, k);
  }

  lemma SameSlice(a: seq<Byte>, b: seq<Byte>, from: nat, at: nat, n: nat)
    requires from + n <= |a| && at + n <= |b| && from <= at
    requires forall p :: from <= p < from + n ==> a[p] == b[at - from + p]
    ensures a[from..from + n] == b[at..at + n]
  {
    var x, y := a[from..from + n], b[at..at + n];
    forall j | 0 <= j < n ensures x[j] == y[j] {
      assert a[from + j] == b[at - from + (from + j)];
    }
  }

  lemma Halves(data: array<Byte>, from: nat, mid: nat)
    requires from <= mid <= data.Length
    ensures data[from..data.Length] == data[from..mid] + data[mid..]
  {
    assert data[..][from..] == data[..][from..mid] + data[..][mid..];
  }

  lemma Regroup(a: seq<Byte>, b: seq<Byte>, c: seq<Byte>)
    ensures a + b + c == a + (b + c)
  {
  }

  lemma Apart(a: seq<Byte>, b: seq<Byte>, c: seq<Byte>)
    ensures (a + b + c)[..|a|] == a && (a + b + c)[|a|..] == b + c
  {
  }

  lemma SameSplit(a: seq<Byte>, b: seq<Byte>, a': seq<Byte>, b': seq<Byte>)
    requires a + b == a' + b' && |a| == |a'|
    ensures b == b' && b'[..|b'|] == b
  {
    assert b == (a + b)[|a|..];
  }
}
