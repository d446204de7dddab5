/** Chunk headers as section 4.1 of RFC 7230 has them, and what the parser makes of each. */
module HttpChunk {
  import opened HttpClientParser
  import opened HttpWords
  import opened HttpRuns
  import opened HttpHead

  /** An extension of a chunk: a name, and a value unless that is empty. */
  datatype Extension = Extension(name: string, value: string)

  datatype Chunk = Chunk(size: string, extensions: seq<Extension>, eol: string)

  predicate AllTokens(text: string) {
    forall i :: 0 <= i < |text| ==> Token(text[i])
  }

  predicate AllHex(text: string) {
    forall i :: 0 <= i < |text| ==> HexDigit(text[i])
  }

  predicate GoodExtension(e: Extension) {
    e.name != "" && AllTokens(e.name) && AllTokens(e.value)
  }

  predicate GoodExtensions(extensions: seq<Extension>) {
    forall e :: e in extensions ==> GoodExtension(e)
  }

  predicate GoodChunk(c: Chunk) {
    c.size != "" && AllHex(c.size) && GoodExtensions(c.extensions) && Eol(c.eol)
  }

  function ValueText(value: string): string {
    if value == "" then "" else "=" + value
  }

  function ExtensionText(e: Extension): string { ";" + (e.name + ValueText(e.value)) }

  function ExtensionsText(extensions: seq<Extension>): string { Texts(ExtensionText, extensions) }

  function ChunkText(c: Chunk): string { c.size + (ExtensionsText(c.extensions) + c.eol) }

  function ExtensionFields(extensions: seq<Extension>): seq<(string, string)> {
    if extensions == [] then []
    else [(extensions[0].name, extensions[0].value)] + ExtensionFields(extensions[1..])
  }

  /** The size of a chunk as the parser reads it. */
  function SizeOf(c: Chunk): int { ReadBack(Value(c.size, 16)) }

  lemma {:induction false} HexAt(buffer: string, pos: nat, digits: string)
    requires At(buffer, pos, digits) && AllHex(digits)
    requires pos + |digits| < |buffer| && !HexDigit(buffer[pos + |digits|])
    ensures DigitsFrom(buffer, pos, 16) == digits
    decreases |digits|
  {
    if digits != "" {
      AtFirst(buffer, pos, digits);
      HexAt(buffer, pos + 1, digits[1..]);
    }
  }

  /** Some token is read in a state that goes on over tokens. */
  lemma TokensStay(text: string)
    requires AllTokens(text)
    ensures Skips(5, text) == To(5, Skip) && Skips(7, text) == To(7, Skip)
  {
    SkipsStay(5, text);
    SkipsStay(7, text);
  }

  lemma SizeRun(t: seq<Moment>, buffer: string, size: string)
    requires Shows(t, buffer) && size != "" && AllHex(size) && At(buffer, 0, size) && t[0] == Going(Init())
    ensures t[|size|] == Going(Init().(cs := 2))
  {
    Scan(t, buffer, 0, size, 2);
  }

  /**
   Where what has been read may be followed by an extension or the end: behind the size, a name or a value.
   `told` is what is found when it is.
   */
  predicate Pending(p: Parser, buffer: string, pos: nat, told: Found) {
    match p.cs
    case 2 => told == SetChunk(p.found, Number(p, buffer, 16))
    case 5 =>
      p.fieldStart < pos <= |buffer| && told == p.found.(fields := p.found.fields + [(buffer[p.fieldStart..pos], "")])
    case 7 =>
      && p.fieldLen > 0 && p.fieldStart + p.fieldLen <= |buffer| && p.mark <= pos <= |buffer|
      && told == p.found.(fields := p.found.fields
           + [(buffer[p.fieldStart..p.fieldStart + p.fieldLen], buffer[p.mark..pos])])
    case _ => false
  }

  predicate Waits(t: seq<Moment>, buffer: string, pos: nat, told: Found) {
    pos < |t| && t[pos].Going? && Pending(t[pos].parser, buffer, pos, told)
  }

  function PendingAct(cs: nat): Act {
    if cs == 2 then ChunkSize else if cs == 5 then LenMarkField else Field
  }

  function PendingDone(cs: nat): Act {
    if cs == 2 then ChunkSizeDone else if cs == 5 then LenMarkFieldDone else FieldDone
  }

  lemma PendingEdges(cs: nat)
    requires cs == 2 || cs == 5 || cs == 7
    ensures Edges(cs, ';') == To(4, PendingAct(cs)) && Edges(cs, CR) == To(3, PendingAct(cs))
    ensures Edges(cs, LF) == To(FINAL, PendingDone(cs)) && Edges(3, LF) == To(FINAL, Done)
  {
  }

  lemma PendingTold(p: Parser, buffer: string, pos: nat, told: Found)
    requires Pending(p, buffer, pos, told) && pos < |buffer|
    ensures Apply(p, PendingAct(p.cs), buffer, pos).found == told
    ensures Apply(p, PendingDone(p.cs), buffer, pos).found == told.(bodyStart := pos + 1)
  {
    assert Slice(buffer, pos, 0) == "";
  }

  lemma NameRead(t: seq<Moment>, buffer: string, pos: nat, name: string)
    requires Shows(t, buffer) && name != "" && AllTokens(name) && At(buffer, pos, name)
    requires t[pos].Going? && t[pos].parser.cs == 4
    ensures t[pos + |name|] == Going(t[pos].parser.(cs := 5, fieldStart := pos))
  {
    AtFirst(buffer, pos, name);
    One(t, buffer, pos, 5, Start);
    TokensStay(name[1..]);
    SkipRun(t, buffer, pos + 1, name[1..], 5);
  }

  lemma ValueRead(t: seq<Moment>, buffer: string, pos: nat, value: string)
    requires Shows(t, buffer) && value != "" && AllTokens(value) && At(buffer, pos, "=" + value)
    requires t[pos].Going? && t[pos].parser.cs == 5 && t[pos].parser.fieldStart < pos
    ensures var p := t[pos].parser;
      t[pos + 1 + |value|] == Going(p.(cs := 7, mark := pos + 1, fieldLen := pos - p.fieldStart))
  {
    AtParts(buffer, pos, "=", value);
    AtFirst(buffer, pos, "=");
    One(t, buffer, pos, 6, LenMark);
    Scan(t, buffer, pos + 1, value, 7);
  }

  function WithField(found: Found, name: string, value: string): Found {
    found.(fields := found.fields + [(name, value)])
  }

  lemma SemicolonRun(t: seq<Moment>, buffer: string, pos: nat, told: Found)
    requires Shows(t, buffer) && At(buffer, pos, ";") && Waits(t, buffer, pos, told)
    ensures t[pos + 1].Going? && t[pos + 1].parser.cs == 4 && t[pos + 1].parser.found == told
  {
    AtFirst(buffer, pos, ";");
    PendingEdges(t[pos].parser.cs);
    PendingTold(t[pos].parser, buffer, pos, told);
    One(t, buffer, pos, 4, PendingAct(t[pos].parser.cs));
  }

  lemma BareRun(t: seq<Moment>, buffer: string, pos: nat, name: string)
    requires Shows(t, buffer) && name != "" && AllTokens(name) && At(buffer, pos, name)
    requires t[pos].Going? && t[pos].parser.cs == 4
    ensures var end := pos + |name|;
      t[end].Going? && Pending(t[end].parser, buffer, end, WithField(t[pos].parser.found, name, ""))
  {
    NameRead(t, buffer, pos, name);
  }

  lemma ValuedRun(t: seq<Moment>, buffer: string, pos: nat, name: string, value: string)
    requires Shows(t, buffer) && name != "" && AllTokens(name) && At(buffer, pos, name)
    requires value != "" && AllTokens(value) && At(buffer, pos + |name|, "=" + value)
    requires t[pos].Going? && t[pos].parser.cs == 4
    ensures var end := pos + |name| + 1 + |value|;
      end < |t| && t[end].Going? && Pending(t[end].parser, buffer, end, WithField(t[pos].parser.found, name, value))
  {
    NameRead(t, buffer, pos, name);
    ValueRead(t, buffer, pos + |name|, value);
    AtParts(buffer, pos + |name|, "=", value);
  }

  lemma ExtensionParts(buffer: string, pos: nat, e: Extension)
    requires At(buffer, pos, ExtensionText(e))
    ensures At(buffer, pos, ";") && At(buffer, pos + 1, e.name) && At(buffer, pos + 1 + |e.name|, ValueText(e.value))
    ensures |ExtensionText(e)| == 1 + |e.name| + |ValueText(e.value)|
  {
    AtParts(buffer, pos, ";", e.name + ValueText(e.value));
    AtParts(buffer, pos + 1, e.name, ValueText(e.value));
  }

  /** An extension behind its semicolon. */
  lemma NamedRun(t: seq<Moment>, buffer: string, pos: nat, e: Extension, told: Found)
    requires Shows(t, buffer) && GoodExtension(e) && At(buffer, pos, e.name)
    requires At(buffer, pos + |e.name|, ValueText(e.value))
    requires t[pos].Going? && t[pos].parser.cs == 4 && t[pos].parser.found == told
    ensures Waits(t, buffer, pos + |e.name| + |ValueText(e.value)|, WithField(told, e.name, e.value))
  {
    if e.value == "" {
      BareRun(t, buffer, pos, e.name);
    } else {
      ValuedRun(t, buffer, pos, e.name, e.value);
    }
  }

  /** One extension: what was pending is found, and the extension is pending. */
  lemma ExtensionRun(t: seq<Moment>, buffer: string, pos: nat, e: Extension, told: Found)
    requires Shows(t, buffer) && GoodExtension(e) && At(buffer, pos, ExtensionText(e)) && Waits(t, buffer, pos, told)
    ensures Waits(t, buffer, pos + |ExtensionText(e)|, WithField(told, e.name, e.value))
  {
    ExtensionParts(buffer, pos, e);
    SemicolonRun(t, buffer, pos, told);
    NamedRun(t, buffer, pos + 1, e, told);
  }

  function WithAll(found: Found, extensions: seq<Extension>): Found {
    found.(fields := found.fields + ExtensionFields(extensions))
  }

  lemma WithNone(found: Found)
    ensures WithAll(found, []) == found
  {
    assert found.fields + [] == found.fields;
  }

  function Told(learn: (Found, Extension) -> Found, found: Found, extensions: seq<Extension>): Found
    decreases |extensions|
  {
    if extensions == [] then found else Told(learn, learn(found, extensions[0]), extensions[1..])
  }

  function With(found: Found, e: Extension): Found { WithField(found, e.name, e.value) }

  lemma {:induction false} ToldIsWithAll(found: Found, extensions: seq<Extension>)
    ensures Told(With, found, extensions) == WithAll(found, extensions)
    decreases |extensions|
  {
    if extensions == [] {
      WithNone(found);
    } else {
      ToldIsWithAll(With(found, extensions[0]), extensions[1..]);
      var (field, rest) := ([(extensions[0].name, extensions[0].value)], ExtensionFields(extensions[1..]));
      assert found.fields + field + rest == found.fields + (field + rest);
    }
  }

  /** The extensions that are `good` are read, one after another: looked at only where `Look` names them. */
  ghost predicate ReadsAll(buffer: string, waits: (nat, Found) -> bool, good: Extension -> bool, text: Extension -> string,
      learn: (Found, Extension) -> Found)
  {
    forall pos: nat, e: Extension, found: Found {:trigger Look(pos), learn(found, e)} ::
      Look(pos) && good(e) && At(buffer, pos, text(e)) && waits(pos, found) ==> waits(pos + |text(e)|, learn(found, e))
  }

  lemma {:induction false} EachRun(buffer: string, pos: nat, extensions: seq<Extension>, found: Found,
      waits: (nat, Found) -> bool, good: Extension -> bool, text: Extension -> string, learn: (Found, Extension) -> Found)
    requires ReadsAll(buffer, waits, good, text, learn) && (forall e :: e in extensions ==> good(e))
    requires At(buffer, pos, Texts(text, extensions)) && waits(pos, found)
    ensures waits(pos + |Texts(text, extensions)|, Told(learn, found, extensions))
    decreases |extensions|
  {
    if extensions != [] {
      var e, rest := extensions[0], extensions[1..];
      AtParts(buffer, pos, text(e), Texts(text, rest));
      assert Look(pos);
      var found' := learn(found, e);
      assert waits(pos + |text(e)|, found');
      EachRun(buffer, pos + |text(e)|, rest, found', waits, good, text, learn);
    }
  }

  lemma ReadsExtensions(t: seq<Moment>, buffer: string, waits: (nat, Found) -> bool)
    requires Shows(t, buffer) && forall at: nat, found: Found :: waits(at, found) <==> Waits(t, buffer, at, found)
    ensures ReadsAll(buffer, waits, GoodExtension, ExtensionText, With)
  {
    forall pos: nat, e: Extension, found: Found
      | Look(pos) && GoodExtension(e) && At(buffer, pos, ExtensionText(e)) && waits(pos, found)
      ensures waits(pos + |ExtensionText(e)|, With(found, e))
    {
      ExtensionRun(t, buffer, pos, e, found);
    }
  }

  lemma ExtensionsRun(t: seq<Moment>, buffer: string, pos: nat, extensions: seq<Extension>, told: Found)
    requires Shows(t, buffer) && GoodExtensions(extensions)
    requires At(buffer, pos, ExtensionsText(extensions)) && Waits(t, buffer, pos, told)
    ensures Waits(t, buffer, pos + |ExtensionsText(extensions)|, WithAll(told, extensions))
  {
    var waits := (at: nat, found: Found) => Waits(t, buffer, at, found);
    ReadsExtensions(t, buffer, waits);
    EachRun(buffer, pos, extensions, told, waits, GoodExtension, ExtensionText, With);
    ToldIsWithAll(told, extensions);
  }

  lemma ChunkEnd(t: seq<Moment>, buffer: string, pos: nat, eol: string, told: Found)
    requires Shows(t, buffer) && Eol(eol) && At(buffer, pos, eol)
    requires t[pos].Going? && Pending(t[pos].parser, buffer, pos, told)
    ensures var m, end := t[|buffer|], pos + |eol|;
      m.Over? && m.at == end && m.parser.cs == FINAL && m.parser.found == told.(bodyStart := end)
  {
    var cs := t[pos].parser.cs;
    EolParts(buffer, pos, eol);
    PendingEdges(cs);
    PendingTold(t[pos].parser, buffer, pos, told);
    if eol == "\n" {
      Stop(t, buffer, pos, FINAL, PendingDone(cs));
    } else {
      One(t, buffer, pos, 3, PendingAct(cs));
      Stop(t, buffer, pos + 1, FINAL, Done);
    }
    OverStays(t, buffer, pos + |eol|);
  }

  lemma SizePending(buffer: string, c: Chunk)
    requires GoodChunk(c) && At(buffer, 0, c.size) && At(buffer, |c.size|, ExtensionsText(c.extensions) + c.eol)
    ensures Pending(Init().(cs := 2), buffer, |c.size|, SetChunk(Init().found, SizeOf(c)))
  {
    AtFirst(buffer, |c.size|, ExtensionsText(c.extensions) + c.eol);
    HexAt(buffer, 0, c.size);
  }

  lemma ChunkParts(buffer: string, c: Chunk)
    requires At(buffer, 0, ChunkText(c))
    ensures At(buffer, 0, c.size) && At(buffer, |c.size|, ExtensionsText(c.extensions) + c.eol)
    ensures At(buffer, |c.size|, ExtensionsText(c.extensions))
    ensures At(buffer, |c.size| + |ExtensionsText(c.extensions)|, c.eol)
    ensures |ChunkText(c)| == |c.size| + |ExtensionsText(c.extensions)| + |c.eol|
  {
    AtParts(buffer, 0, c.size, ExtensionsText(c.extensions) + c.eol);
    AtParts(buffer, |c.size|, ExtensionsText(c.extensions), c.eol);
  }

  /** What a chunk header tells: the size of the chunk, that none follows one of size 0, and the extensions. */
  function ChunkFound(c: Chunk): Found {
    SetChunk(Init().found, SizeOf(c)).(fields := ExtensionFields(c.extensions), bodyStart := |ChunkText(c)|)
  }

  /** Any chunk header in front of anything: the parser is finished exactly at its end. */
  lemma AnyChunkParses(c: Chunk, text: string) returns (p: Parser)
    requires GoodChunk(c) && ChunkText(c) <= text
    ensures RunFrom(Init(), text, 0) == (p, |ChunkText(c)|) && p.cs == FINAL && p.found == ChunkFound(c)
  {
    assert At(text, 0, ChunkText(c));
    var t := RunShown(Init(), text);
    ChunkRun(t, text, c);
    p := t[|text|].parser;
  }

  lemma SizeWaits(t: seq<Moment>, buffer: string, c: Chunk)
    requires Shows(t, buffer) && GoodChunk(c) && At(buffer, 0, ChunkText(c)) && t[0] == Going(Init())
    ensures Waits(t, buffer, |c.size|, SetChunk(Init().found, SizeOf(c)))
  {
    ChunkParts(buffer, c);
    SizeRun(t, buffer, c.size);
    SizePending(buffer, c);
  }

  lemma TailRun(t: seq<Moment>, buffer: string, c: Chunk, told: Found)
    requires Shows(t, buffer) && GoodChunk(c) && At(buffer, 0, ChunkText(c)) && Waits(t, buffer, |c.size|, told)
    ensures var m, end := t[|buffer|], |ChunkText(c)|;
      && m.Over? && m.at == end && m.parser.cs == FINAL
      && m.parser.found == told.(fields := told.fields + ExtensionFields(c.extensions), bodyStart := end)
  {
    ChunkParts(buffer, c);
    ExtensionsRun(t, buffer, |c.size|, c.extensions, told);
    ChunkEnd(t, buffer, |c.size| + |ExtensionsText(c.extensions)|, c.eol, WithAll(told, c.extensions));
  }

  lemma ChunkRun(t: seq<Moment>, buffer: string, c: Chunk)
    requires Shows(t, buffer) && GoodChunk(c) && At(buffer, 0, ChunkText(c)) && t[0] == Going(Init())
    ensures var m := t[|buffer|];
      m.Over? && m.at == |ChunkText(c)| && m.parser.cs == FINAL && m.parser.found == ChunkFound(c)
  {
    SizeWaits(t, buffer, c);
    TailRun(t, buffer, c, SetChunk(Init().found, SizeOf(c)));
  }
}
