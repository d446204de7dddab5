/**
 Response heads as section 3 of RFC 7230 has them, and what the parser makes of each: of the status
 line, and of every header line, whatever the case of its name, the blanks before its value, and
 whether the line ends in a carriage return and a line feed or in a line feed alone.
 */
module HttpHead {
  import opened HttpClientParser
  import opened HttpWords
  import opened HttpRuns

  // ----- Header lines -----

  /** A field on one line, or a known one whose value follows on the next, behind white space. */
  datatype Line =
    | Line(name: string, blanks: string, value: string, eol: string)
    | Folded(name: string, blanks: string, value: string, eol: string, fold: string, end: string)

  predicate Eol(eol: string) { eol == "\n" || eol == "\r\n" }

  predicate GoodLine(line: Line) {
    && GoodName(line.name) && AllBlank(line.blanks) && Eol(line.eol)
    && match line
       case Line(_, _, value, _) => GoodValue(value)
       case Folded(name, _, value, _, fold, end) =>
         GoodFold(fold) && Understood(ValueStart(name), value) && Eol(end)
  }

  /** What a continuation line begins with: a blank, and any white space. */
  predicate GoodFold(fold: string) {
    fold != "" && Blank(fold[0]) && forall i :: 0 <= i < |fold| ==> Space(fold[i])
  }

  function FieldText(name: string, blanks: string, value: string, eol: string): string {
    name + (":" + (blanks + (value + eol)))
  }

  function LineText(line: Line): string {
    match line
    case Line(name, blanks, value, eol) => FieldText(name, blanks, value, eol)
    case Folded(name, blanks, value, eol, fold, end) => FieldText(name, blanks, "", eol) + (fold + (value + end))
  }

  predicate SaysChunked(name: string, value: string) {
    LowerAll(name) == TRANSFER_ENCODING && LowerAll(value) == CHUNKED
  }

  predicate SaysClose(name: string, value: string) {
    LowerAll(name) == CONNECTION && LowerAll(value) == CLOSE
  }

  predicate SaysLength(name: string, value: string) {
    LowerAll(name) == CONTENT_LENGTH && value != "" && AllDigits(value)
  }

  /** What a field tells: that it is there, and what the three known ones say. */
  function Learn(found: Found, name: string, value: string): Found {
    found.(
      fields := found.fields + [(name, value)],
      chunked := found.chunked || SaysChunked(name, value),
      close := found.close || SaysClose(name, value),
      contentLen := if SaysLength(name, value) then ReadBack(Value(value, 10)) else found.contentLen)
  }

  /**
   What a line tells. A folded field is first found without its value; then one that is not a
   `connection` is found again with it.
   */
  function LearnLine(found: Found, line: Line): Found {
    match line
    case Line(name, _, value, _) => Learn(found, name, value)
    case Folded(name, _, value, _, _, _) =>
      var empty := Learn(found, name, "");
      if LowerAll(name) == CONNECTION then empty.(close := true) else Learn(empty, name, value)
  }

  /** What is found once a pending close is noted. */
  function Noted(p: Parser): Found {
    if p.cs == 43 then p.found.(close := true) else p.found
  }

  lemma KnownNamesDiffer(name: string, value: string)
    ensures Understood(ValueStart(name), value)
      <==> SaysChunked(name, value) || SaysClose(name, value) || SaysLength(name, value)
    ensures ValueStart(name) == 61 ==> !SaysClose(name, value) && !SaysLength(name, value)
    ensures ValueStart(name) == 35 ==> !SaysChunked(name, value) && !SaysLength(name, value)
    ensures ValueStart(name) == 112 ==> !SaysChunked(name, value) && !SaysClose(name, value)
  {
    assert |CONNECTION| == 10 && |TRANSFER_ENCODING| == 17 && |CONTENT_LENGTH| == 14;
  }

  // ----- One line -----

  lemma Emits(p: Parser, buffer: string, pos: nat, name: string, value: string)
    requires name != "" && At(buffer, p.fieldStart, name) && p.fieldLen == |name|
    requires At(buffer, p.mark, value) && p.mark + |value| == pos
    ensures Emit(p, buffer, pos) == p.(found := p.found.(fields := p.found.fields + [(name, value)]))
  {
  }

  /** The name is marked off where the machine is. */
  predicate Named(p: Parser, buffer: string, name: string) {
    name != "" && At(buffer, p.fieldStart, name) && p.fieldLen == |name|
  }

  lemma NameRun(t: seq<Moment>, buffer: string, pos: nat, name: string)
    requires Shows(t, buffer) && GoodName(name) && At(buffer, pos, name) && t[pos].Going? && AtStart(t[pos].parser.cs)
    ensures var p, p' := t[pos].parser, t[pos + |name|].parser;
      && t[pos + |name|].Going? && Spelling(p'.cs, name)
      && (LowerAll(name) == CONNECTION ==> p'.cs == 34)
      && (LowerAll(name) == CONTENT_LENGTH ==> p'.cs == 111)
      && (LowerAll(name) == TRANSFER_ENCODING ==> p'.cs == 60)
      && p' == p.(cs := p'.cs, mark := p'.mark, fieldStart := pos, found := Noted(p))
  {
    AtFirst(buffer, pos, name);
    NameReads(t[pos].parser.cs, name);
    NameBegun(t, buffer, pos, name[0]);
    var next := Edges(t[pos].parser.cs, name[0]).state;
    SkipRun(t, buffer, pos + 1, name[1..], Skips(next, name[1..]).state);
  }

  lemma NameBegun(t: seq<Moment>, buffer: string, pos: nat, c: char)
    requires Shows(t, buffer) && pos < |buffer| && buffer[pos] == c && Token(c)
    requires t[pos].Going? && AtStart(t[pos].parser.cs)
    ensures var p, p' := t[pos].parser, t[pos + 1].parser;
      && t[pos + 1].Going? && Edges(p.cs, c).To? && p'.cs == Edges(p.cs, c).state
      && p' == p.(cs := p'.cs, mark := p'.mark, fieldStart := pos, found := Noted(p))
  {
    NameBegins(t[pos].parser.cs, c);
    var edge := Edges(t[pos].parser.cs, c);
    One(t, buffer, pos, edge.state, edge.act);
  }

  lemma {:induction false} BlanksRun(t: seq<Moment>, buffer: string, pos: nat, blanks: string)
    requires Shows(t, buffer) && AllBlank(blanks) && At(buffer, pos, blanks)
    requires t[pos].Going? && BeforeValue(t[pos].parser.cs)
    ensures var p, p' := t[pos].parser, t[pos + |blanks|].parser;
      t[pos + |blanks|].Going? && p' == p.(mark := p'.mark)
    decreases |blanks|
  {
    if blanks != "" {
      AtFirst(buffer, pos, blanks);
      EmptyEnds(t[pos].parser.cs);
      One(t, buffer, pos, t[pos].parser.cs, Mark);
      BlanksRun(t, buffer, pos + 1, blanks[1..]);
    }
  }

  /** The name, the colon and the blanks: the machine is at the value, and the name is marked off. */
  lemma FrontRun(t: seq<Moment>, buffer: string, pos: nat, name: string, blanks: string)
    requires Shows(t, buffer) && GoodName(name) && AllBlank(blanks)
    requires At(buffer, pos, name) && At(buffer, pos + |name|, ":") && At(buffer, pos + |name| + 1, blanks)
    requires t[pos].Going? && AtStart(t[pos].parser.cs)
    ensures var p, at := t[pos].parser, pos + |name| + 1 + |blanks|;
      var p' := t[at].parser;
      && t[at].Going?
      && p' == p.(cs := ValueStart(name), mark := p'.mark, fieldStart := pos, fieldLen := |name|, found := Noted(p))
  {
    NameRun(t, buffer, pos, name);
    var at := pos + |name|;
    ColonAfter(t[at].parser.cs, name);
    AtFirst(buffer, at, ":");
    One(t, buffer, at, ValueStart(name), Len);
    BlanksRun(t, buffer, at + 1, blanks);
  }

  lemma EolParts(buffer: string, pos: nat, eol: string)
    requires Eol(eol) && At(buffer, pos, eol)
    ensures eol == "\n" ==> buffer[pos] == LF
    ensures eol != "\n" ==> |eol| == 2 && buffer[pos] == CR && pos + 1 < |buffer| && buffer[pos + 1] == LF
  {
    AtFirst(buffer, pos, eol);
    if eol != "\n" {
      AtFirst(buffer, pos + 1, eol[1..]);
    }
  }

  /** The end of a line without a value. */
  lemma EmptyClosed(t: seq<Moment>, buffer: string, pos: nat, name: string, eol: string)
    requires Shows(t, buffer) && Eol(eol) && At(buffer, pos, eol) && t[pos].Going?
    requires t[pos].parser.cs == ValueStart(name) && Named(t[pos].parser, buffer, name)
    ensures var p, end := t[pos].parser, pos + |eol|;
      && t[end].Going?
      && t[end].parser == p.(cs := EmptyEnd(ValueStart(name)), mark := pos, found := Learn(p.found, name, ""))
  {
    var p := t[pos].parser;
    EolParts(buffer, pos, eol);
    EmptyEnds(p.cs);
    NothingSaid(name);
    Emits(p.(mark := pos), buffer, pos, name, "");
    if eol == "\n" {
      One(t, buffer, pos, EmptyEnd(p.cs), MarkField);
    } else {
      One(t, buffer, pos, Edges(p.cs, CR).state, MarkField);
      One(t, buffer, pos + 1, EmptyEnd(p.cs), Skip);
    }
  }

  lemma NothingSaid(name: string)
    ensures !SaysChunked(name, "") && !SaysClose(name, "") && !SaysLength(name, "")
  {
    assert |LowerAll("")| == 0;
  }

  lemma ValueRun(t: seq<Moment>, buffer: string, pos: nat, value: string)
    requires Shows(t, buffer) && value != "" && GoodValue(value) && At(buffer, pos, value)
    requires t[pos].Going? && BeforeValue(t[pos].parser.cs)
    ensures var p, p' := t[pos].parser, t[pos + |value|].parser;
      && t[pos + |value|].Going? && Valuing(p.cs, p'.cs, value) && p' == p.(cs := p'.cs, mark := pos)
      && (Understood(p.cs, value) ==> p'.cs == UnderstoodIn(p.cs))
  {
    AtFirst(buffer, pos, value);
    ValueReads(t[pos].parser.cs, value);
    var first := Edges(t[pos].parser.cs, value[0]).state;
    One(t, buffer, pos, first, Mark);
    SkipRun(t, buffer, pos + 1, value[1..], Skips(first, value[1..]).state);
  }

  /** What the actions at the end of a line make of it. */
  lemma PlainLearns(p: Parser, buffer: string, pos: nat, name: string, value: string)
    requires Named(p, buffer, name) && At(buffer, p.mark, value) && p.mark + |value| == pos
    requires !Understood(ValueStart(name), value)
    ensures Apply(p, Field, buffer, pos) == p.(found := Learn(p.found, name, value))
  {
    KnownNamesDiffer(name, value);
    Emits(p, buffer, pos, name, value);
  }

  lemma LengthLearns(p: Parser, buffer: string, pos: nat, name: string, value: string)
    requires Named(p, buffer, name) && At(buffer, p.mark, value) && p.mark + |value| == pos
    requires SaysLength(name, value) && pos < |buffer| && !HttpClientParser.Digit(buffer[pos])
    ensures Apply(p, ContentLen, buffer, pos) == p.(found := Learn(p.found, name, value))
  {
    KnownNamesDiffer(name, value);
    DigitsAt(buffer, p.mark, value);
    Emits(p.(found := p.found.(contentLen := ReadBack(Value(value, 10)))), buffer, pos, name, value);
  }

  lemma ChunkedLearns(p: Parser, buffer: string, pos: nat, name: string, value: string)
    requires Named(p, buffer, name) && At(buffer, p.mark, value) && p.mark + |value| == pos && SaysChunked(name, value)
    ensures Apply(p, FieldChunked, buffer, pos) == p.(found := Learn(p.found, name, value))
    ensures Apply(Apply(p, Field, buffer, pos), Chunked, buffer, pos + 1) == p.(found := Learn(p.found, name, value))
  {
    KnownNamesDiffer(name, value);
    Emits(p, buffer, pos, name, value);
  }

  lemma CloseLearns(p: Parser, buffer: string, pos: nat, name: string, value: string)
    requires Named(p, buffer, name) && At(buffer, p.mark, value) && p.mark + |value| == pos && SaysClose(name, value)
    ensures var p' := Apply(p, Field, buffer, pos);
      p' == p.(found := p'.found) && p'.found.(close := true) == Learn(p.found, name, value)
  {
    KnownNamesDiffer(name, value);
    Emits(p, buffer, pos, name, value);
  }

  /** The end of a line with a value: the field is learned, a close being pending in state 43. */
  lemma ValueClosed(t: seq<Moment>, buffer: string, pos: nat, name: string, value: string, eol: string)
    requires Shows(t, buffer) && Eol(eol) && At(buffer, pos, eol) && t[pos].Going? && value != ""
    requires var p := t[pos].parser;
      && Named(p, buffer, name) && At(buffer, p.mark, value) && p.mark + |value| == pos
      && Valuing(ValueStart(name), p.cs, value)
      && (Understood(ValueStart(name), value) ==> p.cs == UnderstoodIn(ValueStart(name)))
    ensures var p, end := t[pos].parser, pos + |eol|;
      && t[end].Going? && t[end].parser.cs == (if SaysClose(name, value) then 43 else 20)
      && Noted(t[end].parser) == Learn(p.found, name, value)
  {
    EolParts(buffer, pos, eol);
    ValueEnds(ValueStart(name), t[pos].parser.cs, value);
    KnownNamesDiffer(name, value);
    if SaysLength(name, value) {
      LengthClosed(t, buffer, pos, name, value, eol);
    } else if SaysChunked(name, value) {
      ChunkedClosed(t, buffer, pos, name, value, eol);
    } else if SaysClose(name, value) {
      CloseClosed(t, buffer, pos, name, value, eol);
    } else {
      PlainClosed(t, buffer, pos, name, value, eol);
    }
  }

  /** Before the end of a line, the machine having read this value of this field. */
  predicate AtEnd(t: seq<Moment>, buffer: string, pos: nat, name: string, value: string, eol: string) {
    && pos < |t| && t[pos].Going? && Eol(eol) && At(buffer, pos, eol)
    && (if eol == "\n" then buffer[pos] == LF else buffer[pos] == CR && pos + 1 < |buffer| && buffer[pos + 1] == LF)
    && Named(t[pos].parser, buffer, name) && At(buffer, t[pos].parser.mark, value) && t[pos].parser.mark + |value| == pos
  }

  lemma PlainClosed(t: seq<Moment>, buffer: string, pos: nat, name: string, value: string, eol: string)
    requires Shows(t, buffer) && AtEnd(t, buffer, pos, name, value, eol) && !Understood(ValueStart(name), value)
    requires var cs := t[pos].parser.cs;
      Edges(cs, LF) == To(20, Field) && Edges(cs, CR) == To(24, Field) && Edges(24, LF) == To(20, Skip)
    ensures var end := pos + |eol|;
      t[end].Going? && t[end].parser.cs == 20 && t[end].parser.found == Learn(t[pos].parser.found, name, value)
  {
    PlainLearns(t[pos].parser, buffer, pos, name, value);
    if eol == "\n" {
      One(t, buffer, pos, 20, Field);
    } else {
      One(t, buffer, pos, 24, Field);
      One(t, buffer, pos + 1, 20, Skip);
    }
  }

  lemma LengthClosed(t: seq<Moment>, buffer: string, pos: nat, name: string, value: string, eol: string)
    requires Shows(t, buffer) && AtEnd(t, buffer, pos, name, value, eol) && SaysLength(name, value)
    requires var cs := t[pos].parser.cs;
      Edges(cs, LF) == To(20, ContentLen) && Edges(cs, CR) == To(24, ContentLen) && Edges(24, LF) == To(20, Skip)
    ensures var end := pos + |eol|;
      t[end].Going? && t[end].parser.cs == 20 && t[end].parser.found == Learn(t[pos].parser.found, name, value)
  {
    LengthLearns(t[pos].parser, buffer, pos, name, value);
    if eol == "\n" {
      One(t, buffer, pos, 20, ContentLen);
    } else {
      One(t, buffer, pos, 24, ContentLen);
      One(t, buffer, pos + 1, 20, Skip);
    }
  }

  lemma ChunkedClosed(t: seq<Moment>, buffer: string, pos: nat, name: string, value: string, eol: string)
    requires Shows(t, buffer) && AtEnd(t, buffer, pos, name, value, eol) && SaysChunked(name, value)
    requires var cs := t[pos].parser.cs;
      Edges(cs, LF) == To(20, FieldChunked) && Edges(cs, CR) == To(71, Field) && Edges(71, LF) == To(20, Chunked)
    ensures var end := pos + |eol|;
      t[end].Going? && t[end].parser.cs == 20 && t[end].parser.found == Learn(t[pos].parser.found, name, value)
  {
    ChunkedLearns(t[pos].parser, buffer, pos, name, value);
    if eol == "\n" {
      One(t, buffer, pos, 20, FieldChunked);
    } else {
      One(t, buffer, pos, 71, Field);
      One(t, buffer, pos + 1, 20, Chunked);
    }
  }

  lemma CloseClosed(t: seq<Moment>, buffer: string, pos: nat, name: string, value: string, eol: string)
    requires Shows(t, buffer) && AtEnd(t, buffer, pos, name, value, eol) && SaysClose(name, value)
    requires var cs := t[pos].parser.cs;
      Edges(cs, LF) == To(43, Field) && Edges(cs, CR) == To(88, Field) && Edges(88, LF) == To(43, Skip)
    ensures var end := pos + |eol|;
      t[end].Going? && t[end].parser.cs == 43 && Noted(t[end].parser) == Learn(t[pos].parser.found, name, value)
  {
    CloseLearns(t[pos].parser, buffer, pos, name, value);
    if eol == "\n" {
      One(t, buffer, pos, 43, Field);
    } else {
      One(t, buffer, pos, 88, Field);
      One(t, buffer, pos + 1, 43, Skip);
    }
  }

  lemma TextParts(buffer: string, pos: nat, name: string, blanks: string, value: string, eol: string)
    requires At(buffer, pos, FieldText(name, blanks, value, eol))
    ensures At(buffer, pos, name) && At(buffer, pos + |name|, ":") && At(buffer, pos + |name| + 1, blanks)
    ensures At(buffer, pos + |name| + 1 + |blanks|, value) && At(buffer, pos + |name| + 1 + |blanks| + |value|, eol)
    ensures |FieldText(name, blanks, value, eol)| == |name| + 1 + |blanks| + |value| + |eol|
  {
    AtParts(buffer, pos, name, ":" + (blanks + (value + eol)));
    AtParts(buffer, pos + |name|, ":", blanks + (value + eol));
    AtParts(buffer, pos + |name| + 1, blanks, value + eol);
    AtParts(buffer, pos + |name| + 1 + |blanks|, value, eol);
  }

  /** Where a line leaves the machine. */
  function LineEnd(line: Line): nat {
    if line.value == "" then EmptyEnd(ValueStart(line.name))
    else if SaysClose(line.name, line.value) then 43 else 20
  }

  lemma EmptyRun(t: seq<Moment>, buffer: string, pos: nat, name: string, blanks: string, eol: string)
    requires Shows(t, buffer) && GoodName(name) && AllBlank(blanks) && Eol(eol)
    requires At(buffer, pos, FieldText(name, blanks, "", eol)) && t[pos].Going? && AtStart(t[pos].parser.cs)
    ensures var end := pos + |FieldText(name, blanks, "", eol)|;
      && end < |t| && t[end].Going? && t[end].parser.cs == EmptyEnd(ValueStart(name))
      && t[end].parser.found == Learn(Noted(t[pos].parser), name, "") && Named(t[end].parser, buffer, name)
  {
    TextParts(buffer, pos, name, blanks, "", eol);
    FrontRun(t, buffer, pos, name, blanks);
    EmptyClosed(t, buffer, pos + |name| + 1 + |blanks|, name, eol);
  }

  lemma FieldRun(t: seq<Moment>, buffer: string, pos: nat, name: string, blanks: string, value: string, eol: string)
    requires Shows(t, buffer) && GoodName(name) && AllBlank(blanks) && GoodValue(value) && value != "" && Eol(eol)
    requires At(buffer, pos, FieldText(name, blanks, value, eol)) && t[pos].Going? && AtStart(t[pos].parser.cs)
    ensures var end := pos + |FieldText(name, blanks, value, eol)|;
      && end < |t| && t[end].Going? && t[end].parser.cs == (if SaysClose(name, value) then 43 else 20)
      && Noted(t[end].parser) == Learn(Noted(t[pos].parser), name, value)
  {
    TextParts(buffer, pos, name, blanks, value, eol);
    FrontRun(t, buffer, pos, name, blanks);
    var at := pos + |name| + 1 + |blanks|;
    ValueRun(t, buffer, at, value);
    ValueClosed(t, buffer, at + |value|, name, value, eol);
  }

  // ----- Folded lines -----

  lemma FoldClosed(t: seq<Moment>, buffer: string, pos: nat, name: string, value: string, end: string)
    requires Shows(t, buffer) && Eol(end) && At(buffer, pos, value) && At(buffer, pos + |value|, end)
    requires t[pos].Going? && t[pos].parser.cs == 37 && SaysClose(name, value)
    ensures var at := pos + |value| + |end|;
      at < |t| && t[at] == Going(t[pos].parser.(cs := 43))
  {
    FoldedCloseSkips(value);
    SkipRun(t, buffer, pos, value, 42);
    EolParts(buffer, pos + |value|, end);
    if end == "\n" {
      One(t, buffer, pos + |value|, 43, Skip);
    } else {
      One(t, buffer, pos + |value|, 88, Skip);
      One(t, buffer, pos + |value| + 1, 43, Skip);
    }
  }

  lemma FoldMarked(t: seq<Moment>, buffer: string, pos: nat, name: string, value: string)
    requires Shows(t, buffer) && At(buffer, pos, value) && t[pos].Going?
    requires (SaysChunked(name, value) && t[pos].parser.cs == 63) || (SaysLength(name, value) && t[pos].parser.cs == 114)
    ensures t[pos + |value|] == Going(t[pos].parser.(cs := if t[pos].parser.cs == 63 then 70 else 115, mark := pos))
  {
    var from, to := if t[pos].parser.cs == 63 then 64 else 115, if t[pos].parser.cs == 63 then 70 else 115;
    if t[pos].parser.cs == 63 {
      FoldedChunkedSkips(value);
    } else {
      FoldedLengthSkips(value);
    }
    AtFirst(buffer, pos, value);
    One(t, buffer, pos, from, Mark);
    SkipRun(t, buffer, pos + 1, value[1..], to);
  }

  lemma FoldTold(t: seq<Moment>, buffer: string, pos: nat, name: string, value: string, end: string)
    requires Shows(t, buffer) && (SaysChunked(name, value) || SaysLength(name, value)) && Eol(end)
    requires At(buffer, pos, value) && At(buffer, pos + |value|, end) && Named(t[pos].parser, buffer, name)
    requires t[pos].Going? && t[pos].parser.cs == EmptyEnd(ValueStart(name)) + 1
    ensures var at := pos + |value| + |end|;
      && at < |t| && t[at].Going? && t[at].parser.cs == 20 && t[at].parser.found == Learn(t[pos].parser.found, name, value)
  {
    KnownNamesDiffer(name, value);
    FoldMarked(t, buffer, pos, name, value);
    EolParts(buffer, pos + |value|, end);
    if SaysChunked(name, value) {
      ChunkedClosed(t, buffer, pos + |value|, name, value, end);
    } else {
      LengthClosed(t, buffer, pos + |value|, name, value, end);
    }
  }

  /** The white space and the value of a continuation line, and its end. */
  lemma FoldRun(t: seq<Moment>, buffer: string, pos: nat, name: string, fold: string, value: string, end: string)
    requires Shows(t, buffer) && GoodFold(fold) && Understood(ValueStart(name), value) && Eol(end)
    requires At(buffer, pos, fold) && At(buffer, pos + |fold|, value) && At(buffer, pos + |fold| + |value|, end)
    requires t[pos].Going? && t[pos].parser.cs == EmptyEnd(ValueStart(name)) && Named(t[pos].parser, buffer, name)
    ensures var p, at := t[pos].parser, pos + |fold| + |value| + |end|;
      && at < |t| && t[at].Going? && t[at].parser.cs == (if SaysClose(name, value) then 43 else 20)
      && Noted(t[at].parser)
        == (if LowerAll(name) == CONNECTION then p.found.(close := true) else Learn(p.found, name, value))
  {
    KnownNamesDiffer(name, value);
    FoldSkips(t[pos].parser.cs, fold);
    SkipRun(t, buffer, pos, fold, t[pos].parser.cs + 1);
    if SaysClose(name, value) {
      FoldClosed(t, buffer, pos + |fold|, name, value, end);
    } else {
      FoldTold(t, buffer, pos + |fold|, name, value, end);
    }
  }

  lemma FoldedRun(t: seq<Moment>, buffer: string, pos: nat, line: Line)
    requires Shows(t, buffer) && GoodLine(line) && line.Folded? && At(buffer, pos, LineText(line))
    requires t[pos].Going? && AtStart(t[pos].parser.cs)
    ensures var end := pos + |LineText(line)|;
      && end < |t| && t[end].Going? && t[end].parser.cs == LineEnd(line)
      && Noted(t[end].parser) == LearnLine(Noted(t[pos].parser), line)
  {
    var first := FieldText(line.name, line.blanks, "", line.eol);
    var at := pos + |first|;
    AtParts(buffer, pos, first, line.fold + (line.value + line.end));
    AtParts(buffer, at, line.fold, line.value + line.end);
    AtParts(buffer, at + |line.fold|, line.value, line.end);
    EmptyRun(t, buffer, pos, line.name, line.blanks, line.eol);
    FoldRun(t, buffer, at, line.name, line.fold, line.value, line.end);
  }

  /** Any header line is read without error, and all it tells is learned. */
  lemma LineRun(t: seq<Moment>, buffer: string, pos: nat, line: Line)
    requires Shows(t, buffer) && GoodLine(line) && At(buffer, pos, LineText(line))
    requires t[pos].Going? && AtStart(t[pos].parser.cs)
    ensures var end := pos + |LineText(line)|;
      && end < |t| && t[end].Going? && t[end].parser.cs == LineEnd(line)
      && Noted(t[end].parser) == LearnLine(Noted(t[pos].parser), line)
  {
    if line.Folded? {
      FoldedRun(t, buffer, pos, line);
    } else if line.value == "" {
      EmptyRun(t, buffer, pos, line.name, line.blanks, line.eol);
    } else {
      FieldRun(t, buffer, pos, line.name, line.blanks, line.value, line.eol);
    }
  }

  // ----- All lines, and the end of the head -----

  function Texts<T>(text: T -> string, items: seq<T>): string {
    if items == [] then "" else text(items[0]) + Texts(text, items[1..])
  }

  function Learned(learn: (Found, Line) -> Found, found: Found, lines: seq<Line>): Found
    decreases |lines|
  {
    if lines == [] then found else Learned(learn, learn(found, lines[0]), lines[1..])
  }

  function Last(end: Line -> nat, cs: nat, lines: seq<Line>): nat {
    if lines == [] then cs else end(lines[|lines| - 1])
  }

  function LinesText(lines: seq<Line>): string { Texts(LineText, lines) }

  function LearnAll(found: Found, lines: seq<Line>): Found { Learned(LearnLine, found, lines) }

  function LastEnd(cs: nat, lines: seq<Line>): nat { Last(LineEnd, cs, lines) }

  predicate GoodLines(lines: seq<Line>) {
    forall line :: line in lines ==> GoodLine(line)
  }

  /** The machine is at the start of a line and has found this. */
  predicate Ready(t: seq<Moment>, pos: nat, cs: nat, found: Found) {
    pos < |t| && t[pos].Going? && AtStart(cs) && t[pos].parser.cs == cs && Noted(t[pos].parser) == found
  }

  /** The lines that are `good` are read, and what is learned of them: looked at only where `Look` names them. */
  ghost predicate Reads(t: seq<Moment>, buffer: string, good: Line -> bool, text: Line -> string,
      learn: (Found, Line) -> Found, end: Line -> nat)
  {
    forall pos: nat, line: Line, cs: nat, found: Found {:trigger Look(pos), learn(found, line), end(line), AtStart(cs)} ::
      Look(pos) && good(line) && At(buffer, pos, text(line)) && Ready(t, pos, cs, found)
      ==> Ready(t, pos + |text(line)|, end(line), learn(found, line))
  }

  lemma LineEndsAtStart(line: Line)
    ensures AtStart(LineEnd(line))
  {
  }

  lemma ReadsLines(t: seq<Moment>, buffer: string)
    requires Shows(t, buffer)
    ensures Reads(t, buffer, GoodLine, LineText, LearnLine, LineEnd)
  {
    forall pos: nat, line: Line, cs: nat, found: Found
      | Look(pos) && GoodLine(line) && At(buffer, pos, LineText(line)) && Ready(t, pos, cs, found)
      ensures Ready(t, pos + |LineText(line)|, LineEnd(line), LearnLine(found, line))
    {
      LineRun(t, buffer, pos, line);
      LineEndsAtStart(line);
    }
  }

  lemma {:induction false} EachRun(t: seq<Moment>, buffer: string, pos: nat, lines: seq<Line>, cs: nat, found: Found,
      good: Line -> bool, text: Line -> string, learn: (Found, Line) -> Found, end: Line -> nat)
    requires Reads(t, buffer, good, text, learn, end) && (forall line :: line in lines ==> good(line))
    requires At(buffer, pos, Texts(text, lines)) && Ready(t, pos, cs, found)
    ensures Ready(t, pos + |Texts(text, lines)|, Last(end, cs, lines), Learned(learn, found, lines))
    decreases |lines|
  {
    if lines != [] {
      var line, rest := lines[0], lines[1..];
      AtParts(buffer, pos, text(line), Texts(text, rest));
      assert Look(pos) && AtStart(cs);
      var cs', found' := end(line), learn(found, line);
      assert Ready(t, pos + |text(line)|, cs', found');
      EachRun(t, buffer, pos + |text(line)|, rest, cs', found', good, text, learn, end);
    }
  }

  lemma LinesRun(t: seq<Moment>, buffer: string, pos: nat, lines: seq<Line>, cs: nat, found: Found)
    requires Shows(t, buffer) && GoodLines(lines) && At(buffer, pos, LinesText(lines)) && Ready(t, pos, cs, found)
    ensures Ready(t, pos + |LinesText(lines)|, LastEnd(cs, lines), LearnAll(found, lines))
  {
    ReadsLines(t, buffer);
    EachRun(t, buffer, pos, lines, cs, found, GoodLine, LineText, LearnLine, LineEnd);
  }

  /** The empty line ends the head, exactly where it ends. */
  lemma EndRun(t: seq<Moment>, buffer: string, pos: nat, eol: string)
    requires Shows(t, buffer) && Eol(eol) && At(buffer, pos, eol) && t[pos].Going? && AtStart(t[pos].parser.cs)
    ensures var p, m, end := t[pos].parser, t[|buffer|], pos + |eol|;
      && m.Over? && m.at == end && m.parser.cs == EndState(p.cs)
      && m.parser.found == Noted(p).(bodyStart := end)
  {
    var cs := t[pos].parser.cs;
    EolParts(buffer, pos, eol);
    EndEdges(cs);
    if eol == "\n" {
      Stop(t, buffer, pos, EndState(cs), if cs == 43 then CloseDone else Done);
    } else {
      One(t, buffer, pos, Edges(cs, CR).state, if cs == 43 then Close else Skip);
      Stop(t, buffer, pos + 1, EndState(cs), Done);
    }
    OverStays(t, buffer, pos + |eol|);
  }

  // ----- The status line -----

  datatype FirstLine = FirstLine(major: string, minor: string, code: string, reason: string, eol: string)

  predicate GoodFirst(s: FirstLine) {
    && s.major != "" && AllDigits(s.major) && s.minor != "" && AllDigits(s.minor)
    && s.code != "" && AllDigits(s.code) && s.reason != "" && OneLineText(s.reason) && Eol(s.eol)
  }

  function VersionPart(s: FirstLine): string { "H" + ("TTP/" + (s.major + ("." + s.minor))) }

  function StatusText(s: FirstLine): string {
    VersionPart(s) + (" " + (s.code + (" " + (s.reason + s.eol))))
  }

  /** What a status line tells; a version other than 1.0 and 1.1 is an error that does not end the parse. */
  function LearnStatus(found: Found, s: FirstLine): Found {
    SetVersion(found, VersionPart(s)).(status := ReadBack(Value(s.code, 10)), reason := s.reason)
  }

  lemma StatusParts(buffer: string, pos: nat, s: FirstLine)
    requires At(buffer, pos, StatusText(s))
    ensures At(buffer, pos, VersionPart(s))
    ensures var at := pos + |VersionPart(s)|;
      && At(buffer, at, " ") && At(buffer, at + 1, s.code) && At(buffer, at + 1 + |s.code|, " ")
      && At(buffer, at + 2 + |s.code|, s.reason) && At(buffer, at + 2 + |s.code| + |s.reason|, s.eol)
    ensures |StatusText(s)| == |VersionPart(s)| + 2 + |s.code| + |s.reason| + |s.eol|
  {
    Spaced(buffer, pos, VersionPart(s), s.code + (" " + (s.reason + s.eol)));
    Spaced(buffer, pos + |VersionPart(s)| + 1, s.code, s.reason + s.eol);
    AtParts(buffer, pos + |VersionPart(s)| + 2 + |s.code|, s.reason, s.eol);
  }

  lemma Spaced(buffer: string, pos: nat, a: string, b: string)
    requires At(buffer, pos, a + (" " + b))
    ensures At(buffer, pos, a) && At(buffer, pos + |a|, " ") && At(buffer, pos + |a| + 1, b)
  {
    AtParts(buffer, pos, a, " " + b);
    AtParts(buffer, pos + |a|, " ", b);
  }

  lemma VersionRun(t: seq<Moment>, buffer: string, pos: nat, s: FirstLine)
    requires Shows(t, buffer) && GoodFirst(s)
    requires At(buffer, pos, VersionPart(s)) && At(buffer, pos + |VersionPart(s)|, " ")
    requires t[pos].Going? && t[pos].parser.cs == 1
    ensures var p, end := t[pos].parser, pos + |VersionPart(s)| + 1;
      t[end] == Going(p.(cs := 16, mark := pos, found := SetVersion(p.found, VersionPart(s))))
  {
    var rest := "TTP/" + (s.major + ("." + s.minor));
    AtParts(buffer, pos, "H", rest);
    AtFirst(buffer, pos, "H");
    ProtocolSkips();
    One(t, buffer, pos, 8, Mark);
    VersionSkips(s.major, s.minor);
    SkipRun(t, buffer, pos + 1, rest, 15);
    VersionEnd(t, buffer, pos + |VersionPart(s)|, s);
  }

  lemma VersionEnd(t: seq<Moment>, buffer: string, pos: nat, s: FirstLine)
    requires Shows(t, buffer) && At(buffer, pos, " ") && t[pos].Going? && t[pos].parser.cs == 15
    requires At(buffer, t[pos].parser.mark, VersionPart(s)) && t[pos].parser.mark + |VersionPart(s)| == pos
    ensures var p := t[pos].parser;
      t[pos + 1] == Going(p.(cs := 16, found := SetVersion(p.found, VersionPart(s))))
  {
    AtFirst(buffer, pos, " ");
    One(t, buffer, pos, 16, Version);
  }

  lemma CodeRead(t: seq<Moment>, buffer: string, pos: nat, code: string)
    requires Shows(t, buffer) && code != "" && AllDigits(code) && At(buffer, pos, code)
    requires t[pos].Going? && t[pos].parser.cs == 16
    ensures t[pos + |code|] == Going(t[pos].parser.(cs := 17, mark := pos)) && Edges(17, ' ') == To(18, Status)
  {
    DigitsStay(code);
    Scan(t, buffer, pos, code, 17);
  }

  lemma CodeEnd(t: seq<Moment>, buffer: string, pos: nat, n: int)
    requires Shows(t, buffer) && At(buffer, pos, " ") && t[pos].Going? && t[pos].parser.cs == 17
    requires Edges(17, ' ') == To(18, Status) && ToInt(Strtol(buffer, t[pos].parser.mark, 10)) == n
    ensures var p := t[pos].parser; t[pos + 1] == Going(p.(cs := 18, found := p.found.(status := n)))
  {
    AtFirst(buffer, pos, " ");
    One(t, buffer, pos, 18, Status);
  }

  lemma NumberRead(buffer: string, pos: nat, digits: string)
    requires AllDigits(digits) && At(buffer, pos, digits) && At(buffer, pos + |digits|, " ")
    ensures ToInt(Strtol(buffer, pos, 10)) == ReadBack(Value(digits, 10))
  {
    AtFirst(buffer, pos + |digits|, " ");
    DigitsAt(buffer, pos, digits);
  }

  lemma CodeRun(t: seq<Moment>, buffer: string, pos: nat, code: string, n: int)
    requires Shows(t, buffer) && code != "" && AllDigits(code) && At(buffer, pos, code) && At(buffer, pos + |code|, " ")
    requires t[pos].Going? && t[pos].parser.cs == 16 && ToInt(Strtol(buffer, pos, 10)) == n
    ensures var p := t[pos].parser;
      t[pos + |code| + 1] == Going(p.(cs := 18, mark := pos, found := p.found.(status := n)))
  {
    CodeRead(t, buffer, pos, code);
    CodeEnd(t, buffer, pos + |code|, n);
  }

  lemma CodeWhole(t: seq<Moment>, buffer: string, pos: nat, code: string)
    requires Shows(t, buffer) && code != "" && AllDigits(code) && At(buffer, pos, code) && At(buffer, pos + |code|, " ")
    requires t[pos].Going? && t[pos].parser.cs == 16
    ensures var p := t[pos].parser;
      t[pos + |code| + 1] == Going(p.(cs := 18, mark := pos, found := p.found.(status := ReadBack(Value(code, 10)))))
  {
    NumberRead(buffer, pos, code);
    CodeRun(t, buffer, pos, code, ToInt(Strtol(buffer, pos, 10)));
  }

  lemma ReasonRun(t: seq<Moment>, buffer: string, pos: nat, reason: string, eol: string)
    requires Shows(t, buffer) && reason != "" && OneLineText(reason) && Eol(eol)
    requires At(buffer, pos, reason) && At(buffer, pos + |reason|, eol)
    requires t[pos].Going? && t[pos].parser.cs == 18
    ensures var p := t[pos].parser;
      t[pos + |reason| + |eol|] == Going(p.(cs := 20, mark := pos, found := p.found.(reason := reason)))
  {
    ReasonStay(reason);
    Scan(t, buffer, pos, reason, 19);
    var end := pos + |reason|;
    EolParts(buffer, end, eol);
    if eol == "\n" {
      One(t, buffer, end, 20, Reason);
    } else {
      One(t, buffer, end, 24, Reason);
      One(t, buffer, end + 1, 20, Skip);
    }
  }

  lemma StatusRun(t: seq<Moment>, buffer: string, pos: nat, s: FirstLine)
    requires Shows(t, buffer) && GoodFirst(s) && At(buffer, pos, StatusText(s)) && t[pos].Going? && t[pos].parser.cs == 1
    ensures var p, end := t[pos].parser, pos + |StatusText(s)|;
      && end < |t| && t[end].Going? && t[end].parser.cs == 20
      && t[end].parser.found == LearnStatus(p.found, s)
  {
    StatusParts(buffer, pos, s);
    var at := pos + |VersionPart(s)| + 1;
    VersionRun(t, buffer, pos, s);
    CodeWhole(t, buffer, at, s.code);
    ReasonRun(t, buffer, at + |s.code| + 1, s.reason, s.eol);
  }

  // ----- Whole heads -----

  datatype Head = Head(first: FirstLine, lines: seq<Line>, eol: string)

  predicate GoodHead(h: Head) {
    GoodFirst(h.first) && GoodLines(h.lines) && Eol(h.eol)
  }

  function HeadText(h: Head): string {
    StatusText(h.first) + (LinesText(h.lines) + h.eol)
  }

  function HeadFound(h: Head): Found {
    LearnAll(LearnStatus(Init().found, h.first), h.lines).(bodyStart := |HeadText(h)|)
  }

  lemma HeadParts(buffer: string, h: Head)
    requires At(buffer, 0, HeadText(h))
    ensures At(buffer, 0, StatusText(h.first)) && At(buffer, |StatusText(h.first)|, LinesText(h.lines))
    ensures At(buffer, |StatusText(h.first)| + |LinesText(h.lines)|, h.eol)
    ensures |HeadText(h)| == |StatusText(h.first)| + |LinesText(h.lines)| + |h.eol|
  {
    AtParts(buffer, 0, StatusText(h.first), LinesText(h.lines) + h.eol);
    AtParts(buffer, |StatusText(h.first)|, LinesText(h.lines), h.eol);
  }

  lemma HeadRun(t: seq<Moment>, buffer: string, h: Head)
    requires Shows(t, buffer) && GoodHead(h) && At(buffer, 0, HeadText(h)) && t[0] == Going(Init())
    ensures var m := t[|buffer|];
      && m.Over? && m.at == |HeadText(h)| && m.parser.cs == EndState(LastEnd(20, h.lines))
      && m.parser.found == HeadFound(h)
  {
    HeadParts(buffer, h);
    StatusRun(t, buffer, 0, h.first);
    LinesRun(t, buffer, |StatusText(h.first)|, h.lines, 20, LearnStatus(Init().found, h.first));
    EndRun(t, buffer, |StatusText(h.first)| + |LinesText(h.lines)|, h.eol);
  }

  /** The last line is one of the known fields, without a value: one that may yet come on a line of its own. */
  predicate EndsOpen(lines: seq<Line>) {
    && lines != []
    && var last := lines[|lines| - 1];
       last.value == "" && LowerAll(last.name) in {CONNECTION, TRANSFER_ENCODING, CONTENT_LENGTH}
  }

  /**
   Any head in front of any body: the parser stops without error exactly where the body begins and has
   found everything the head tells. It takes itself to be finished unless the last line is a known
   field without a value.
   */
  lemma AnyHeadParses(h: Head, text: string) returns (p: Parser)
    requires GoodHead(h) && HeadText(h) <= text
    ensures RunFrom(Init(), text, 0) == (p, |HeadText(h)|)
    ensures p.found == HeadFound(h) && p.cs == EndState(LastEnd(20, h.lines))
    ensures p.cs == FINAL <==> !EndsOpen(h.lines)
  {
    assert At(text, 0, HeadText(h));
    var t := RunShown(Init(), text);
    HeadRun(t, text, h);
    p := t[|text|].parser;
  }

  // ----- What all lines together tell -----

  /** The fields found of a line. */
  function LineFields(line: Line): seq<(string, string)> {
    match line
    case Line(name, _, value, _) => [(name, value)]
    case Folded(name, _, value, _, _, _) =>
      if LowerAll(name) == CONNECTION then [(name, "")] else [(name, ""), (name, value)]
  }

  predicate TellsClose(line: Line) { SaysClose(line.name, line.value) }

  predicate TellsChunked(line: Line) { SaysChunked(line.name, line.value) }

  predicate TellsLength(line: Line) { SaysLength(line.name, line.value) }

  function AllFields(fields: Line -> seq<(string, string)>, lines: seq<Line>): seq<(string, string)> {
    if lines == [] then [] else fields(lines[0]) + AllFields(fields, lines[1..])
  }

  /** `b` is `a` with some fields more, and what these say. */
  predicate Gains(a: Found, b: Found, fields: seq<(string, string)>, close: bool, chunked: bool, length: bool) {
    && b == a.(fields := a.fields + fields, close := a.close || close, chunked := a.chunked || chunked,
         contentLen := b.contentLen)
    && (!length ==> b.contentLen == a.contentLen)
  }

  lemma LineGains(found: Found, line: Line)
    requires GoodLine(line)
    ensures Gains(found, LearnLine(found, line), LineFields(line), TellsClose(line), TellsChunked(line), TellsLength(line))
    ensures TellsLength(line) ==> LearnLine(found, line).contentLen == ReadBack(Value(line.value, 10))
  {
    KnownNamesDiffer(line.name, line.value);
    NothingSaid(line.name);
  }

  predicate Some(says: Line -> bool, lines: seq<Line>) {
    exists line :: line in lines && says(line)
  }

  lemma SomeSplit(says: Line -> bool, lines: seq<Line>)
    requires lines != []
    ensures Some(says, lines) <==> says(lines[0]) || Some(says, lines[1..])
  {
    assert lines == [lines[0]] + lines[1..];
  }

  lemma GainsOn(a: Found, b: Found, c: Found, f: seq<(string, string)>, g: seq<(string, string)>,
      close: (bool, bool), chunked: (bool, bool), length: (bool, bool))
    requires Gains(a, b, f, close.0, chunked.0, length.0) && Gains(b, c, g, close.1, chunked.1, length.1)
    ensures Gains(a, c, f + g, close.0 || close.1, chunked.0 || chunked.1, length.0 || length.1)
  {
  }

  lemma GainsNone(a: Found)
    ensures Gains(a, a, [], false, false, false)
  {
    assert a.fields + [] == a.fields;
  }

  lemma {:induction false} EachGains(learn: (Found, Line) -> Found, fields: Line -> seq<(string, string)>,
      close: Line -> bool, chunked: Line -> bool, length: Line -> bool, found: Found, lines: seq<Line>)
    requires forall f: Found, line: Line :: line in lines ==>
      Gains(f, learn(f, line), fields(line), close(line), chunked(line), length(line))
    ensures Gains(found, Learned(learn, found, lines), AllFields(fields, lines), Some(close, lines), Some(chunked, lines),
      Some(length, lines))
    decreases |lines|
  {
    if lines == [] {
      GainsNone(found);
    } else {
      var line, rest := lines[0], lines[1..];
      EachGains(learn, fields, close, chunked, length, learn(found, line), rest);
      SomeSplit(close, lines);
      SomeSplit(chunked, lines);
      SomeSplit(length, lines);
      GainsOn(found, learn(found, line), Learned(learn, learn(found, line), rest), fields(line), AllFields(fields, rest),
        (close(line), Some(close, rest)), (chunked(line), Some(chunked, rest)), (length(line), Some(length, rest)));
    }
  }

  /** The fields are found in order, a close and a chunked body exactly if some line tells of them. */
  lemma LearnsAll(found: Found, lines: seq<Line>)
    requires GoodLines(lines)
    ensures Gains(found, LearnAll(found, lines), AllFields(LineFields, lines), Some(TellsClose, lines),
      Some(TellsChunked, lines), Some(TellsLength, lines))
  {
    forall f: Found, line: Line | line in lines
      ensures Gains(f, LearnLine(f, line), LineFields(line), TellsClose(line), TellsChunked(line), TellsLength(line))
    {
      LineGains(f, line);
    }
    EachGains(LearnLine, LineFields, TellsClose, TellsChunked, TellsLength, found, lines);
  }

  lemma {:induction false} LearnedConcat(learn: (Found, Line) -> Found, found: Found, a: seq<Line>, b: seq<Line>)
    ensures Learned(learn, found, a + b) == Learned(learn, Learned(learn, found, a), b)
    decreases |a|
  {
    if a == [] {
      assert a + b == b;
    } else {
      assert (a + b)[1..] == a[1..] + b;
      LearnedConcat(learn, learn(found, a[0]), a[1..], b);
    }
  }

  /** Of several lengths the last one counts. */
  lemma LastLengthCounts(found: Found, before: seq<Line>, line: Line, after: seq<Line>)
    requires GoodLines(before + [line] + after) && TellsLength(line) && !Some(TellsLength, after)
    ensures LearnAll(found, before + [line] + after).contentLen == ReadBack(Value(line.value, 10))
  {
    var mid := LearnAll(found, before);
    assert line in before + [line] + after;
    assert forall l :: l in after ==> l in before + [line] + after;
    LearnedConcat(LearnLine, found, before + [line], after);
    LearnedConcat(LearnLine, found, before, [line]);
    OneLearned(LearnLine, mid, line);
    LineGains(mid, line);
    LearnsAll(LearnLine(mid, line), after);
  }

  lemma OneLearned(learn: (Found, Line) -> Found, found: Found, line: Line)
    ensures Learned(learn, found, [line]) == learn(found, line)
  {
    assert [line][1..] == [];
  }
}
