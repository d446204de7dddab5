/** Printing a response and parsing it again. */
module HttpRoundTrip {
  import opened Decimals
  import opened HttpClientParser
  import opened HttpResponse
  import opened HttpWords
  import opened HttpHead

  // ----- A printed response as a head and a body -----

  function LineOf(field: (string, string)): Line {
    Line(field.0, " ", field.1, CRLF)
  }

  function LinesOf(fields: seq<(string, string)>): seq<Line> {
    if fields == [] then [] else [LineOf(fields[0])] + LinesOf(fields[1..])
  }

  function FirstOf(r: Response, standard: string): FirstLine {
    FirstLine(Decimal(r.version / 16), Decimal(r.version % 16), Decimal(r.status), ReasonShown(r, standard), CRLF)
  }

  function HeadOf(r: Response, standard: string): Head {
    Head(FirstOf(r, standard), LinesOf(FieldsShown(r)), CRLF)
  }

  lemma LineIs(name: string, value: string)
    ensures LineText(LineOf((name, value))) == HeaderLine(name, value)
  {
    Assoc(name, ":", " ");
    Assoc(name + ":", " ", value + CRLF);
    Assoc(name + ": ", value, CRLF);
    Assoc(name, ":", " " + (value + CRLF));
  }

  lemma {:induction false} LinesAre(fields: seq<(string, string)>)
    ensures Texts(LineText, LinesOf(fields)) == Lines(fields)
    decreases |fields|
  {
    if fields != [] {
      var lines := LinesOf(fields);
      assert lines[0] == LineOf(fields[0]) && lines[1..] == LinesOf(fields[1..]);
      LineIs(fields[0].0, fields[0].1);
      LinesAre(fields[1..]);
    }
  }

  lemma FirstIs(r: Response, standard: string)
    ensures VersionPart(FirstOf(r, standard)) == VersionText(r.version)
    ensures StatusText(FirstOf(r, standard)) == StatusLine(r, standard)
  {
    var major, minor := Decimal(r.version / 16), Decimal(r.version % 16);
    assert "H" + "TTP/" == "HTTP/";
    Assoc("H", "TTP/", major + ("." + minor));
    Assoc("HTTP/" + major, ".", minor);
    Assoc("HTTP/", major, "." + minor);
    SpacedIs(VersionText(r.version), Decimal(r.status), ReasonShown(r, standard));
  }

  lemma SpacedIs(version: string, status: string, reason: string)
    ensures version + (" " + (status + (" " + (reason + CRLF)))) == version + " " + status + " " + reason + CRLF
  {
    Assoc(version, " ", status + (" " + (reason + CRLF)));
    Assoc(version + " ", status, " " + (reason + CRLF));
    Assoc(version + " " + status, " ", reason + CRLF);
    Assoc(version + " " + status + " ", reason, CRLF);
  }

  /** What is printed is a head in front of the body. */
  lemma PrintIsHead(r: Response, standard: string)
    ensures Print(r, standard) == HeadText(HeadOf(r, standard)) + r.body
  {
    FirstIs(r, standard);
    LinesAre(FieldsShown(r));
    Assoc(StatusLine(r, standard), Lines(FieldsShown(r)), CRLF);
  }

  // ----- Responses that can be told apart again -----

  predicate GoodField(field: (string, string)) {
    GoodName(field.0) && GoodValue(field.1)
  }

  predicate WellFormed(r: Response, standard: string) {
    && ReasonShown(r, standard) != "" && OneLineText(ReasonShown(r, standard))
    && (forall field :: field in r.headers ==> GoodField(field))
    && (forall cookie :: cookie in r.cookies ==> GoodValue(cookie))
  }

  predicate GoodFields(fields: seq<(string, string)>) {
    forall field :: field in fields ==> GoodField(field)
  }

  lemma {:induction false} ShownAreGood(websocket: bool, headers: seq<(string, string)>)
    requires GoodFields(headers)
    ensures GoodFields(HeadersShown(websocket, headers))
    ensures forall field :: field in HeadersShown(websocket, headers) ==>
      field in headers && (websocket || LowerAll(field.0) != CONNECTION)
    decreases |headers|
  {
    if headers != [] {
      ShownAreGood(websocket, headers[1..]);
    }
  }

  lemma {:induction false} CookiesAreGood(cookies: seq<string>)
    requires forall cookie :: cookie in cookies ==> GoodValue(cookie)
    ensures GoodFields(CookieFields(cookies))
    ensures forall field :: field in CookieFields(cookies) ==> field.0 == "Set-Cookie"
    decreases |cookies|
  {
    if cookies != [] {
      CookiesAreGood(cookies[1..]);
    }
  }

  lemma OwnAreGood(r: Response)
    ensures GoodFields(ConnectionFields(r)) && GoodFields(LengthFields(r))
  {
    DecimalDigits(|r.body|);
  }

  lemma FieldsAreGood(r: Response, standard: string)
    requires WellFormed(r, standard)
    ensures GoodFields(FieldsShown(r))
  {
    ShownAreGood(r.websocket, r.headers);
    CookiesAreGood(r.cookies);
    OwnAreGood(r);
  }

  lemma {:induction false} LinesOfEach(fields: seq<(string, string)>)
    ensures |LinesOf(fields)| == |fields| && forall i :: 0 <= i < |fields| ==> LinesOf(fields)[i] == LineOf(fields[i])
    decreases |fields|
  {
    if fields != [] {
      LinesOfEach(fields[1..]);
    }
  }

  lemma {:induction false} FieldsOfLines(fields: seq<(string, string)>)
    ensures AllFields(LineFields, LinesOf(fields)) == fields
    decreases |fields|
  {
    if fields != [] {
      var lines := LinesOf(fields);
      assert lines[0] == LineOf(fields[0]) && lines[1..] == LinesOf(fields[1..]);
      FieldsOfLines(fields[1..]);
      assert LineFields(lines[0]) == [fields[0]];
    }
  }

  lemma LinesAreGood(fields: seq<(string, string)>)
    requires GoodFields(fields)
    ensures GoodLines(LinesOf(fields)) && AllFields(LineFields, LinesOf(fields)) == fields
    ensures |LinesOf(fields)| == |fields| && forall i :: 0 <= i < |fields| ==> LinesOf(fields)[i] == LineOf(fields[i])
  {
    LinesOfEach(fields);
    FieldsOfLines(fields);
    forall i | 0 <= i < |fields| ensures GoodLine(LinesOf(fields)[i]) {
      assert fields[i] in fields;
    }
  }

  lemma HeadIsGood(r: Response, standard: string)
    requires WellFormed(r, standard)
    ensures GoodHead(HeadOf(r, standard))
  {
    DecimalDigits(r.version / 16);
    DecimalDigits(r.version % 16);
    DecimalDigits(r.status);
    FieldsAreGood(r, standard);
    LinesAreGood(FieldsShown(r));
  }

  // ----- What is found -----

  /** The versions the parser knows. */
  predicate KnownVersion(version: nat) { version == 0x10 || version == 0x11 }

  lemma DecimalIs(n: nat, d: nat)
    requires d < 10
    ensures Decimal(n) == [Decimals.Digit(d)] <==> n == d
  {
    DigitIsDigit(d);
    if n < 10 {
      DigitIsDigit(n);
      assert Decimal(n) == [Decimals.Digit(n)];
    } else {
      assert |Decimal(n)| == |Decimal(n / 10)| + 1 && Decimal(n / 10) != "";
    }
  }

  lemma DotAt(a: string, b: string, d: char)
    requires a != "" && AllDigits(a) && "HTTP/" + a + "." + b == "HTTP/1." + [d]
    ensures a == "1" && b == [d]
  {
    var text := "HTTP/" + a + "." + b;
    assert text[5..] == a + "." + b && ("HTTP/1." + [d])[5..] == "1." + [d];
    assert (a + "." + b)[1] == ("1." + [d])[1] && |a| == 1;
    assert (a + "." + b)[0] == a[0] && ("1." + [d])[0] == '1' && ("1." + [d])[1] == '.';
    assert a == [a[0]];
    assert (a + "." + b)[2..] == b && ("1." + [d])[2..] == [d];
  }

  lemma VersionTold(version: nat)
    ensures VersionText(version) == "HTTP/1.1" <==> version == 0x11
    ensures VersionText(version) == "HTTP/1.0" <==> version == 0x10
  {
    var major, minor := Decimal(version / 16), Decimal(version % 16);
    DecimalDigits(version / 16);
    DecimalIs(version / 16, 1);
    DecimalIs(version % 16, 1);
    DecimalIs(version % 16, 0);
    if VersionText(version) == "HTTP/1.1" {
      assert "HTTP/1." + ['1'] == "HTTP/1.1";
      DotAt(major, minor, '1');
    }
    if VersionText(version) == "HTTP/1.0" {
      assert "HTTP/1." + ['0'] == "HTTP/1.0";
      DotAt(major, minor, '0');
    }
    assert version == 0x11 ==> major == "1" && minor == "1";
    assert version == 0x10 ==> major == "1" && minor == "0";
    assert "HTTP/" + "1" + "." + "1" == "HTTP/1.1" && "HTTP/" + "1" + "." + "0" == "HTTP/1.0";
  }

  predicate SomeField(fields: seq<(string, string)>, says: (string, string) -> bool) {
    exists field :: field in fields && says(field.0, field.1)
  }

  /** The parser has found all that was printed. */
  predicate Recovered(f: Found, r: Response, standard: string) {
    && f.fields == FieldsShown(r)
    && f.status == ReadBack(r.status) && f.reason == ReasonShown(r, standard)
    && (if KnownVersion(r.version) then f.version == r.version && f.error == 0 else f.version == 0x11 && f.error == 1001)
    && (f.close <==> SomeField(FieldsShown(r), SaysClose))
    && (f.chunked <==> SomeField(FieldsShown(r), SaysChunked)) && !f.chunksDone
  }

  lemma StatusTold(r: Response, standard: string)
    ensures var f := LearnStatus(Init().found, FirstOf(r, standard));
      && f.status == ReadBack(r.status) && f.reason == ReasonShown(r, standard) && f.fields == [] && f.contentLen == -1
      && !f.close && !f.chunked && !f.chunksDone
      && if KnownVersion(r.version) then f.version == r.version && f.error == 0 else f.version == 0x11 && f.error == 1001
  {
    FirstIs(r, standard);
    VersionTold(r.version);
    DecimalValue(r.status);
  }

  lemma SomeOf(fields: seq<(string, string)>, says: (string, string) -> bool, tells: Line -> bool)
    requires GoodFields(fields) && forall line :: tells(line) <==> says(line.name, line.value)
    ensures Some(tells, LinesOf(fields)) <==> SomeField(fields, says)
  {
    LinesAreGood(fields);
    var lines := LinesOf(fields);
    if Some(tells, lines) {
      var i :| 0 <= i < |lines| && tells(lines[i]);
      assert fields[i] in fields && says(fields[i].0, fields[i].1);
    }
    if SomeField(fields, says) {
      var i :| 0 <= i < |fields| && says(fields[i].0, fields[i].1);
      assert lines[i] in lines && tells(lines[i]);
    }
  }

  lemma AllRecovered(r: Response, standard: string)
    requires WellFormed(r, standard)
    ensures Recovered(HeadFound(HeadOf(r, standard)), r, standard)
    ensures !SomeField(FieldsShown(r), SaysLength) ==> HeadFound(HeadOf(r, standard)).contentLen == -1
  {
    var fields := FieldsShown(r);
    FieldsAreGood(r, standard);
    StatusTold(r, standard);
    LinesAreGood(fields);
    LearnsAll(LearnStatus(Init().found, FirstOf(r, standard)), LinesOf(fields));
    SomeOf(fields, SaysClose, TellsClose);
    SomeOf(fields, SaysChunked, TellsChunked);
    SomeOf(fields, SaysLength, TellsLength);
  }

  lemma {:induction false} LinesOfConcat(a: seq<(string, string)>, b: seq<(string, string)>)
    ensures LinesOf(a + b) == LinesOf(a) + LinesOf(b)
    decreases |a|
  {
    if a == [] {
      assert a + b == b;
    } else {
      assert (a + b)[1..] == a[1..] + b;
      LinesOfConcat(a[1..], b);
    }
  }

  /** The printer's own length comes last, whatever the headers of the response say. */
  lemma LengthRecovered(r: Response, standard: string)
    requires WellFormed(r, standard) && r.body != ""
    ensures HeadFound(HeadOf(r, standard)).contentLen == ReadBack(|r.body|)
  {
    var before, line := LengthIsLast(r, standard);
    DecimalValue(|r.body|);
    LastLengthCounts(LearnStatus(Init().found, FirstOf(r, standard)), before, line, []);
  }

  lemma LengthIsLast(r: Response, standard: string) returns (before: seq<Line>, line: Line)
    requires WellFormed(r, standard) && r.body != ""
    ensures LinesOf(FieldsShown(r)) == before + [line] + [] && GoodLines(before + [line] + [])
    ensures TellsLength(line) && line.value == Decimal(|r.body|)
  {
    var others := HeadersShown(r.websocket, r.headers) + CookieFields(r.cookies) + ConnectionFields(r);
    before, line := LinesOf(others), LineOf((CONTENT_LENGTH, Decimal(|r.body|)));
    FieldsAreGood(r, standard);
    LinesAreGood(FieldsShown(r));
    LinesOfConcat(others, LengthFields(r));
    assert LinesOf(LengthFields(r)) == [line];
    DecimalDigits(|r.body|);
  }

  /** No header of the response itself closes a connection that the printer speaks for. */
  lemma CloseRecovered(r: Response, standard: string)
    requires WellFormed(r, standard) && !r.websocket
    ensures SomeField(FieldsShown(r), SaysClose) <==> r.close
  {
    ShownAreGood(r.websocket, r.headers);
    CookiesAreGood(r.cookies);
    assert |LowerAll("Set-Cookie")| == 10 && LowerAll("Set-Cookie")[0] == 's';
    assert LowerAll(CONTENT_LENGTH) != CONNECTION by {
      assert |LowerAll(CONTENT_LENGTH)| == 14;
    }
    if r.close {
      assert LowerAll(CONNECTION) == CONNECTION && LowerAll("close") == CLOSE;
      assert (CONNECTION, "close") in ConnectionFields(r);
      assert (CONNECTION, "close") in FieldsShown(r);
    } else {
      assert |LowerAll("keep-alive")| == 10 && |CLOSE| == 5;
    }
  }

  /** The last field shown never lacks its value, but for a websocket's own headers. */
  lemma EndIsClosed(r: Response, standard: string)
    requires WellFormed(r, standard) && !r.websocket
    ensures !EndsOpen(LinesOf(FieldsShown(r)))
  {
    FieldsAreGood(r, standard);
    LinesAreGood(FieldsShown(r));
  }

  /**
   The round trip: parsing the printed form of a well-formed response stops without a syntax error exactly
   at the body and recovers the version, the status, the reason and every field printed, in order, with
   the close flag and the chunked coding that the fields tell of. The content length is that of the body
   whatever a header says; a version the parser does not know is reported. A number of 2^31 or more does
   not fit the parser's `int`: the status and the length come out as `ReadBack` tells.
   */
  lemma PrintThenParse(r: Response, standard: string, text: string) returns (p: Parser, at: nat)
    requires WellFormed(r, standard) && text == Print(r, standard)
    ensures RunFrom(Init(), text, 0) == (p, at)
    ensures at == |text| - |r.body| && text[at..] == r.body && p.found.bodyStart == at
    ensures Recovered(p.found, r, standard)
    ensures r.body != "" ==> p.found.contentLen == ReadBack(|r.body|)
    ensures !SomeField(FieldsShown(r), SaysLength) ==> p.found.contentLen == -1
    ensures p.cs != ERROR && (p.cs == FINAL <==> !EndsOpen(LinesOf(FieldsShown(r))))
    ensures !r.websocket ==> p.cs == FINAL && p.found.close == r.close
  {
    var h := HeadOf(r, standard);
    PrintIsHead(r, standard);
    HeadIsGood(r, standard);
    p := AnyHeadParses(h, text);
    at := |HeadText(h)|;
    AllRecovered(r, standard);
    if r.body != "" {
      LengthRecovered(r, standard);
    }
    if !r.websocket {
      CloseRecovered(r, standard);
      EndIsClosed(r, standard);
    }
  }

  /** The same of the two programs: what `dump` writes, `execute` reads. */
  method DumpThenExecute(r: Response, standard: string) returns (text: string, reader: HttpResponseParser)
    requires WellFormed(r, standard)
    ensures reader.nread <= |text| && text[reader.nread..] == r.body && Recovered(reader.parser.found, r, standard)
    ensures r.body != "" ==> reader.parser.found.contentLen == ReadBack(|r.body|)
    ensures reader.HasError() <==> !KnownVersion(r.version)
    ensures !r.websocket ==> reader.IsFinished() && reader.parser.found.close == r.close
  {
    text := Dump(r, standard);
    reader := new HttpResponseParser();
    ghost var p, at := PrintThenParse(r, standard, text);
    reader.Execute(text);
  }
}
