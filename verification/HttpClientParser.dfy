/**
 The response parser: a deterministic machine of 123 states over the bytes of the response (section 3
 of RFC 7230) or of a chunk header, with the actions its transitions carry.

 Many states spell out one of a few words, so the table is written by runs of states. Bytes from 128
 up are negative to the machine and fall under no range it names, as they do here.
 */
module HttpClientParser {

  // ----- Characters -----

  function Lower(c: char): char {
    if 'A' <= c <= 'Z' then (c as int + 32) as char else c
  }

  function LowerAll(s: string): (r: string)
    ensures |r| == |s|
  {
    seq(|s|, i requires 0 <= i < |s| => Lower(s[i]))
  }

  predicate Digit(c: char) { '0' <= c <= '9' }

  predicate HexDigit(c: char) { Digit(c) || 'A' <= c <= 'F' || 'a' <= c <= 'f' }

  predicate Token(c: char) {
    || c == '!' || c == '|' || c == '~' || '#' <= c <= '\'' || '*' <= c <= '+' || '-' <= c <= '.'
    || Digit(c) || 'A' <= c <= 'Z' || '^' <= c <= 'z'
  }

  const CR: char := '\r'
  const LF: char := '\n'

  /** Space, tab, vertical tab or form feed. */
  predicate Blank(c: char) { c == ' ' || c as int in {9, 11, 12} }

  predicate Space(c: char) { Blank(c) || c == CR || c == LF }

  // ----- Transitions -----

  /** What a transition does besides moving; the kinds ending in `Done` end the header. */
  datatype Act =
    | Skip | Mark | Start | MarkStart | Len | LenMark
    | Field | MarkField | LenMarkField
    | Version | Status | Reason
    | ContentLen | FieldChunked | Chunked | Close | CloseStart | ChunkSize
    | Done | FieldDone | LenMarkFieldDone | CloseDone | ChunkSizeDone

  datatype Edge = Fail | To(state: nat, act: Act)

  const FINAL: nat := 120

  const CONNECTION := "connection"
  const CONTENT_LENGTH := "content-length"
  const TRANSFER_ENCODING := "transfer-encoding"
  const CHUNKED := "chunked"
  const CLOSE := "close"

  predicate Is(c: char, word: string, i: int) {
    0 <= i < |word| && Lower(c) == word[i]
  }

  /** Inside a field name. */
  function InName(c: char): Edge {
    if c == ':' then To(22, Len) else if Token(c) then To(21, Skip) else Fail
  }

  /** Inside a field value. */
  function InValue(c: char): Edge {
    if c == LF then To(20, Field) else if c == CR then To(24, Field) else To(23, Skip)
  }

  /** At the start of a field value, in state `cs`; `lf` and `cr` follow an empty one. */
  function AtValue(cs: nat, lf: nat, cr: nat, c: char): Edge {
    if c == LF then To(lf, MarkField)
    else if c == CR then To(cr, MarkField)
    else if Blank(c) then To(cs, Mark)
    else To(23, Mark)
  }

  /** At the start of a header line that does not start with 'c', or of the end of the header. */
  function AtLine(start: Act, lf: Edge, cr: Edge, c: char): Edge {
    if c == LF then lf
    else if c == CR then cr
    else if Lower(c) == 't' then To(44, start)
    else if Token(c) then To(21, start)
    else Fail
  }

  function ChunkEdges(cs: nat, c: char): Edge {
    if cs == 1 then (if c == 'H' then To(8, Mark) else if HexDigit(c) then To(2, Mark) else Fail)
    else if cs == 2 then
      if c == LF then To(FINAL, ChunkSizeDone)
      else if c == CR then To(3, ChunkSize)
      else if c == ';' then To(4, ChunkSize)
      else if HexDigit(c) then To(2, Skip) else Fail
    else if cs == 3 then (if c == LF then To(FINAL, Done) else Fail)
    else if cs == 4 then (if Token(c) then To(5, Start) else Fail)
    else if cs == 5 then
      if c == LF then To(FINAL, LenMarkFieldDone)
      else if c == CR then To(3, LenMarkField)
      else if c == ';' then To(4, LenMarkField)
      else if c == '=' then To(6, LenMark)
      else if Token(c) then To(5, Skip) else Fail
    else if cs == 6 then (if Token(c) then To(7, Mark) else Fail)
    else if cs == 7 then
      if c == LF then To(FINAL, FieldDone)
      else if c == CR then To(3, Field)
      else if c == ';' then To(4, Field)
      else if Token(c) then To(7, Skip) else Fail
    else Fail
  }

  function StatusEdges(cs: nat, c: char): Edge {
    if 8 <= cs <= 11 then (if c == "HTTP/"[cs - 7] then To(cs + 1, Skip) else Fail)
    else if cs == 12 || cs == 14 then (if Digit(c) then To(cs + 1, Skip) else Fail)
    else if cs == 13 then (if c == '.' then To(14, Skip) else if Digit(c) then To(13, Skip) else Fail)
    else if cs == 15 then (if c == ' ' then To(16, Version) else if Digit(c) then To(15, Skip) else Fail)
    else if cs == 16 then (if Digit(c) then To(17, Mark) else Fail)
    else if cs == 17 then (if c == ' ' then To(18, Status) else if Digit(c) then To(17, Skip) else Fail)
    else if cs == 18 then (if c == LF then Fail else To(19, Mark))
    else if cs == 19 then (if c == LF then To(20, Reason) else if c == CR then To(24, Reason) else To(19, Skip))
    else Fail
  }

  /** States 20, 36, 43, 62 and 113, where a header line or the end of the header begins. */
  function LineEdges(cs: nat, c: char): Edge {
    if cs == 20 then
      if Lower(c) == 'c' then To(25, Start) else AtLine(Start, To(FINAL, Done), To(3, Skip), c)
    else if cs == 36 then
      if Blank(c) then To(37, Skip)
      else if Lower(c) == 'c' then To(90, Start) else AtLine(Start, To(122, Done), To(89, Skip), c)
    else if cs == 43 then
      if Lower(c) == 'c' then To(25, CloseStart) else AtLine(CloseStart, To(FINAL, CloseDone), To(3, Close), c)
    else if cs == 62 then
      if Blank(c) then To(63, Skip)
      else if Lower(c) == 'c' then To(73, MarkStart) else AtLine(Start, To(121, Done), To(72, Skip), c)
    else if cs == 113 then
      if Blank(c) then To(114, Skip)
      else if Digit(c) then To(117, MarkStart)
      else if Lower(c) == 'c' then To(25, Start) else AtLine(Start, To(123, Done), To(116, Skip), c)
    else Fail
  }

  /** States inside a field name, spelling a known one as far as it goes. */
  function NameEdges(cs: nat, c: char): Edge {
    if 25 <= cs <= 33 then
      if Is(c, CONNECTION, cs - 24) then To(cs + 1, Skip)
      else if cs == 27 && Lower(c) == 't' then To(101, Skip)
      else InName(c)
    else if cs == 34 then (if c == ':' then To(35, Len) else InName(c))
    else if 44 <= cs <= 59 then (if Is(c, TRANSFER_ENCODING, cs - 43) then To(cs + 1, Skip) else InName(c))
    else if cs == 60 then (if c == ':' then To(61, Len) else InName(c))
    else if 73 <= cs <= 78 then
      if Is(c, CHUNKED, cs - 72) then To(cs + 1, Skip)
      else if cs == 73 && Lower(c) == 'o' then To(26, Skip)
      else InName(c)
    else if cs == 79 then (if c == LF then To(20, FieldChunked) else if c == CR then To(71, Field) else InName(c))
    else if 90 <= cs <= 93 then
      if Is(c, CLOSE, cs - 89) then To(cs + 1, Skip)
      else if cs == 90 && Lower(c) == 'o' then To(26, Skip)
      else InName(c)
    else if cs == 94 then (if c == LF then To(43, Skip) else if c == CR then To(88, Skip) else InName(c))
    else if 101 <= cs <= 110 then (if Is(c, CONTENT_LENGTH, cs - 97) then To(cs + 1, Skip) else InName(c))
    else if cs == 111 then (if c == ':' then To(112, Len) else InName(c))
    else if cs == 117 then
      if c == LF then To(20, ContentLen) else if c == CR then To(24, ContentLen)
      else if Digit(c) then To(117, Skip) else InName(c)
    else InName(c)
  }

  /** States inside a field value, spelling a known one as far as it goes. */
  function ValueEdges(cs: nat, c: char): Edge {
    if cs == 22 then AtValue(22, 20, 24, c)
    else if cs == 35 then (if Lower(c) == 'c' then To(96, Mark) else AtValue(35, 36, 95, c))
    else if cs == 61 then (if Lower(c) == 'c' then To(81, Mark) else AtValue(61, 62, 80, c))
    else if cs == 112 then (if Digit(c) then To(119, Mark) else AtValue(112, 113, 118, c))
    else if 81 <= cs <= 86 && Is(c, CHUNKED, cs - 80) then To(cs + 1, Skip)
    else if cs == 87 then (if c == LF then To(20, FieldChunked) else if c == CR then To(71, Field) else To(23, Skip))
    else if 96 <= cs <= 99 && Is(c, CLOSE, cs - 95) then To(cs + 1, Skip)
    else if cs == 100 then (if c == LF then To(43, Field) else if c == CR then To(88, Field) else To(23, Skip))
    else if cs == 119 then
      if c == LF then To(20, ContentLen) else if c == CR then To(24, ContentLen)
      else if Digit(c) then To(119, Skip) else To(23, Skip)
    else InValue(c)
  }

  /** States after the end of a line inside a known field, whose value may yet follow. */
  function FoldEdges(cs: nat, c: char): Edge {
    if cs == 24 then (if c == LF then To(20, Skip) else Fail)
    else if cs == 71 then (if c == LF then To(20, Chunked) else Fail)
    else if cs == 88 then (if c == LF then To(43, Skip) else Fail)
    else if 38 <= cs <= 41 then (if Is(c, CLOSE, cs - 37) then To(cs + 1, Skip) else Fail)
    else if cs == 42 then (if c == LF then To(43, Skip) else if c == CR then To(88, Skip) else Fail)
    else if 64 <= cs <= 69 then (if Is(c, CHUNKED, cs - 63) then To(cs + 1, Skip) else Fail)
    else if cs == 70 then (if c == LF then To(20, FieldChunked) else if c == CR then To(71, Field) else Fail)
    else if cs == 115 then
      if c == LF then To(20, ContentLen) else if c == CR then To(24, ContentLen)
      else if Digit(c) then To(115, Skip) else Fail
    else if cs == 72 && c == LF then To(121, Done)
    else if cs == 80 && c == LF then To(62, Skip)
    else if cs == 89 && c == LF then To(122, Done)
    else if cs == 95 && c == LF then To(36, Skip)
    else if cs == 116 && c == LF then To(123, Done)
    else if cs == 118 && c == LF then To(113, Skip)
    else if cs in {37, 89, 95, 122} then (if Space(c) then To(37, Skip) else if Lower(c) == 'c' then To(38, Skip) else Fail)
    else if cs in {63, 72, 80, 121} then (if Space(c) then To(63, Skip) else if Lower(c) == 'c' then To(64, Mark) else Fail)
    else if cs in {114, 116, 118, 123} then
      if Space(c) then To(114, Skip) else if Digit(c) then To(115, Mark) else Fail
    else Fail
  }

  predicate LineState(cs: nat) { cs in {20, 36, 43, 62, 113} }

  predicate NameState(cs: nat) {
    cs == 21 || 25 <= cs <= 34 || 44 <= cs <= 60 || 73 <= cs <= 79 || 90 <= cs <= 94 || 101 <= cs <= 111 || cs == 117
  }

  predicate ValueState(cs: nat) {
    cs in {22, 23, 35, 61, 112, 119} || 81 <= cs <= 87 || 96 <= cs <= 100
  }

  function Edges(cs: nat, c: char): Edge {
    if cs < 8 then ChunkEdges(cs, c)
    else if cs < 20 then StatusEdges(cs, c)
    else if LineState(cs) then LineEdges(cs, c)
    else if NameState(cs) then NameEdges(cs, c)
    else if ValueState(cs) then ValueEdges(cs, c)
    else FoldEdges(cs, c)
  }

  // ----- Actions -----

  /** What the parser and its callbacks have made of the response so far. */
  datatype Found = Found(
    contentLen: int,
    close: bool,
    chunked: bool,
    chunksDone: bool,
    bodyStart: nat,
    status: int,
    reason: string,
    version: nat,
    error: nat,
    fields: seq<(string, string)>)

  datatype Parser = Parser(cs: nat, mark: nat, fieldStart: nat, fieldLen: int, found: Found)

  /** A new parser, over the response its callbacks will fill in: status 200, version 1.1. */
  function Init(): Parser {
    Parser(1, 0, 0, 0, Found(-1, false, false, false, 0, 200, "", 0x11, 0, []))
  }

  function Slice(buffer: string, from: nat, len: int): string {
    if 0 <= len && from + len <= |buffer| then buffer[from..from + len] else ""
  }

  predicate InBase(c: char, base: nat) {
    if base == 16 then HexDigit(c) else Digit(c)
  }

  function DigitValue(c: char): nat {
    if Digit(c) then c as int - '0' as int
    else if 'a' <= Lower(c) <= 'f' then Lower(c) as int - 'a' as int + 10 else 0
  }

  /** The run of digits at a position. */
  function DigitsFrom(buffer: string, at: nat, base: nat): string
    decreases |buffer| - at
  {
    if at < |buffer| && InBase(buffer[at], base) then [buffer[at]] + DigitsFrom(buffer, at + 1, base) else ""
  }

  function Value(digits: string, base: nat): nat {
    if digits == "" then 0 else Value(digits[..|digits| - 1], base) * base + DigitValue(digits[|digits| - 1])
  }

  /** A number as a `long`: the largest one if the number exceeds it. */
  function ToLong(n: nat): nat {
    if n > 0x7FFF_FFFF_FFFF_FFFF then 0x7FFF_FFFF_FFFF_FFFF else n
  }

  /** `strtol` where a run of digits begins. */
  function Strtol(buffer: string, at: nat, base: nat): nat {
    ToLong(Value(DigitsFrom(buffer, at, base), base))
  }

  /** A `long` stored in an `int`. */
  function ToInt(n: nat): int {
    var low := n % 0x1_0000_0000;
    if low < 0x8000_0000 then low else low - 0x1_0000_0000
  }

  /** `http_field` with the value from the mark up to `pos`; a field without a name is dropped. */
  function Emit(p: Parser, buffer: string, pos: nat): Parser {
    if p.fieldLen == 0 then p
    else
      var field := (Slice(buffer, p.fieldStart, p.fieldLen), Slice(buffer, p.mark, pos - p.mark));
      p.(found := p.found.(fields := p.found.fields + [field]))
  }

  function SetVersion(found: Found, text: string): Found {
    if text == "HTTP/1.1" then found.(version := 0x11)
    else if text == "HTTP/1.0" then found.(version := 0x10)
    else found.(error := 1001)
  }

  function SetChunk(found: Found, size: int): Found {
    found.(chunked := true, contentLen := size, chunksDone := size <= 0)
  }

  function Ended(p: Parser, pos: nat): Parser {
    p.(found := p.found.(bodyStart := pos + 1))
  }

  function Closing(p: Parser): Parser {
    p.(found := p.found.(close := true))
  }

  function Number(p: Parser, buffer: string, base: nat): int {
    ToInt(Strtol(buffer, p.mark, base))
  }

  function Apply(p: Parser, act: Act, buffer: string, pos: nat): Parser {
    match act
    case Skip => p
    case Mark => p.(mark := pos)
    case Start => p.(fieldStart := pos)
    case MarkStart => p.(mark := pos, fieldStart := pos)
    case Len => p.(fieldLen := pos - p.fieldStart)
    case LenMark => p.(fieldLen := pos - p.fieldStart, mark := pos)
    case Field => Emit(p, buffer, pos)
    case MarkField => Emit(p.(mark := pos), buffer, pos)
    case LenMarkField => Emit(p.(fieldLen := pos - p.fieldStart, mark := pos), buffer, pos)
    case Version => p.(found := SetVersion(p.found, Slice(buffer, p.mark, pos - p.mark)))
    case Status => p.(found := p.found.(status := Number(p, buffer, 10)))
    case Reason => p.(found := p.found.(reason := Slice(buffer, p.mark, pos - p.mark)))
    case ContentLen => Emit(p.(found := p.found.(contentLen := Number(p, buffer, 10))), buffer, pos)
    case FieldChunked => var p' := Emit(p, buffer, pos); p'.(found := p'.found.(chunked := true))
    case Chunked => p.(found := p.found.(chunked := true))
    case Close => Closing(p)
    case CloseStart => Closing(p).(fieldStart := pos)
    case ChunkSize => p.(found := SetChunk(p.found, Number(p, buffer, 16)))
    case Done => Ended(p, pos)
    case FieldDone => Ended(Emit(p, buffer, pos), pos)
    case LenMarkFieldDone => Ended(Emit(p.(fieldLen := pos - p.fieldStart, mark := pos), buffer, pos), pos)
    case CloseDone => Ended(Closing(p), pos)
    case ChunkSizeDone => Ended(p.(found := SetChunk(p.found, Number(p, buffer, 16))), pos)
  }

  predicate Stops(act: Act) {
    act.Done? || act.FieldDone? || act.LenMarkFieldDone? || act.CloseDone? || act.ChunkSizeDone?
  }

  const ERROR: nat := 0

  /** The machine from position `pos` until it ends the header, fails, or runs out of bytes. */
  function RunFrom(p: Parser, buffer: string, pos: nat): (r: (Parser, nat))
    requires pos <= |buffer|
    ensures pos <= r.1 <= |buffer|
    decreases |buffer| - pos
  {
    if pos == |buffer| then (p, pos)
    else
      match Edges(p.cs, buffer[pos])
      case Fail => (p.(cs := ERROR), pos)
      case To(state, act) =>
        var p' := Apply(p, act, buffer, pos).(cs := state);
        if Stops(act) then (p', pos + 1) else RunFrom(p', buffer, pos + 1)
  }

  /** `httpclient_parser_execute` from offset 0 and the object that holds its state. */
  class HttpResponseParser {
    var parser: Parser
    var nread: nat

    constructor ()
      ensures parser == Init() && nread == 0
    {
      parser, nread := Init(), 0;
    }

    method Execute(buffer: string)
      modifies this
      ensures (parser, nread) == RunFrom(old(parser).(mark := 0, fieldLen := 0, fieldStart := 0), buffer, 0)
    {
      parser := parser.(mark := 0, fieldLen := 0, fieldStart := 0);
      ghost var start := parser;
      var p: nat := 0;
      while p < |buffer|
        invariant p <= |buffer| && RunFrom(parser, buffer, p) == RunFrom(start, buffer, 0)
      {
        var edge := Edges(parser.cs, buffer[p]);
        if edge.Fail? {
          parser, nread := parser.(cs := ERROR), p;
          return;
        }
        parser := Apply(parser, edge.act, buffer, p).(cs := edge.state);
        p := p + 1;
        if Stops(edge.act) {
          nread := p;
          return;
        }
      }
      nread := p;
    }

    predicate IsFinished()
      reads this
    {
      parser.cs == FINAL
    }

    predicate HasError()
      reads this
    {
      parser.found.error != 0 || parser.cs == ERROR
    }
  }
}
