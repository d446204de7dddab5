/** The parser's table read along a text: what it spells, what it passes over, where lines begin and end. */
module HttpWords {
  import opened Decimals
  import opened HttpClientParser

  // ----- Texts at a position -----

  predicate At(buffer: string, pos: nat, text: string) {
    pos + |text| <= |buffer| && buffer[pos..pos + |text|] == text
  }

  lemma AtParts(buffer: string, pos: nat, a: string, b: string)
    requires At(buffer, pos, a + b)
    ensures At(buffer, pos, a) && At(buffer, pos + |a|, b)
  {
    assert buffer[pos..pos + |a|] == buffer[pos..pos + |a + b|][..|a|];
    assert buffer[pos + |a|..pos + |a| + |b|] == buffer[pos..pos + |a + b|][|a|..];
  }

  lemma AtFirst(buffer: string, pos: nat, text: string)
    requires At(buffer, pos, text) && text != ""
    ensures buffer[pos] == text[0] && At(buffer, pos + 1, text[1..])
  {
    assert text == [text[0]] + text[1..];
    AtParts(buffer, pos, [text[0]], text[1..]);
    assert buffer[pos..pos + 1][0] == text[0];
  }

  // ----- Numbers -----

  lemma {:induction false} DigitsAt(buffer: string, pos: nat, digits: string)
    requires At(buffer, pos, digits) && forall i :: 0 <= i < |digits| ==> HttpClientParser.Digit(digits[i])
    requires pos + |digits| < |buffer| && !HttpClientParser.Digit(buffer[pos + |digits|])
    ensures DigitsFrom(buffer, pos, 10) == digits
    decreases |digits|
  {
    if digits != "" {
      AtFirst(buffer, pos, digits);
      DigitsAt(buffer, pos + 1, digits[1..]);
    }
  }

  lemma DigitIsDigit(d: nat)
    requires d < 10
    ensures DigitValue(Decimals.Digit(d)) == d && HttpClientParser.Digit(Decimals.Digit(d))
  {
  }

  lemma {:induction false} DecimalDigits(n: nat)
    ensures forall i :: 0 <= i < |Decimal(n)| ==> HttpClientParser.Digit(Decimal(n)[i])
    decreases n
  {
    DigitIsDigit(n % 10);
    if n >= 10 {
      DecimalDigits(n / 10);
    }
  }

  lemma {:induction false} DecimalValue(n: nat)
    ensures Value(Decimal(n), 10) == n
    decreases n
  {
    var s := Decimal(n);
    DigitIsDigit(n % 10);
    if n < 10 {
      assert s[..0] == "" && Value("", 10) == 0;
    } else {
      DecimalValue(n / 10);
      assert s[..|s| - 1] == Decimal(n / 10);
    }
  }

  /** What comes of a number printed and read by `strtol` into an `int`. */
  function ReadBack(n: nat): int { ToInt(ToLong(n)) }

  /** Exactly the numbers below 2^31 come back. */
  lemma ReadsBackExactly(n: nat)
    ensures ReadBack(n) == n <==> n < 0x8000_0000
  {
  }

  // ----- Texts that only move the machine -----

  /** Where some text leads that has the machine do nothing but move. */
  function Skips(cs: nat, text: string): Edge
    decreases |text|
  {
    if text == "" then To(cs, Skip)
    else
      match Edges(cs, text[0])
      case Fail => Fail
      case To(state, act) => if act == Skip then Skips(state, text[1..]) else Fail
  }

  lemma {:induction false} SkipsStay(cs: nat, text: string)
    requires forall i :: 0 <= i < |text| ==> Edges(cs, text[i]) == To(cs, Skip)
    ensures Skips(cs, text) == To(cs, Skip)
    decreases |text|
  {
    if text != "" {
      SkipsStay(cs, text[1..]);
    }
  }

  lemma SkipsOn(cs: nat, text: string, next: nat, to: nat)
    requires text != "" && Edges(cs, text[0]) == To(next, Skip) && Skips(next, text[1..]) == To(to, Skip)
    ensures Skips(cs, text) == To(to, Skip)
  {
  }

  /** Text a reason or a field value may consist of. */
  predicate OneLineText(text: string) {
    CR !in text && LF !in text
  }

  predicate AllDigits(text: string) {
    forall i :: 0 <= i < |text| ==> HttpClientParser.Digit(text[i])
  }

  /** The protocol's name, spelled as it has to be. */
  lemma ProtocolSkips()
    ensures Edges(1, 'H') == To(8, Mark) && Skips(8, "TTP/") == To(12, Skip)
  {
    assert "/"[1..] == "" && "P/"[1..] == "/" && "TP/"[1..] == "P/" && "TTP/"[1..] == "TP/";
    SkipsOn(11, "/", 12, 12);
    SkipsOn(10, "P/", 11, 12);
    SkipsOn(9, "TP/", 10, 12);
    SkipsOn(8, "TTP/", 9, 12);
  }

  lemma Behind(a: string, b: string)
    requires a != ""
    ensures (a + b)[0] == a[0] && (a + b)[1..] == a[1..] + b
  {
  }

  lemma {:induction false} SkipsConcat(cs: nat, a: string, b: string, mid: nat, to: nat)
    requires Skips(cs, a) == To(mid, Skip) && Skips(mid, b) == To(to, Skip)
    ensures Skips(cs, a + b) == To(to, Skip)
    decreases |a|
  {
    if a == "" {
      assert a + b == b;
    } else {
      var next := SkipFirst(cs, a, mid);
      SkipsConcat(next, a[1..], b, mid, to);
      Behind(a, b);
      SkipsOn(cs, a + b, next, to);
    }
  }

  lemma SkipFirst(cs: nat, text: string, to: nat) returns (next: nat)
    requires text != "" && Skips(cs, text) == To(to, Skip)
    ensures Edges(cs, text[0]) == To(next, Skip) && Skips(next, text[1..]) == To(to, Skip)
  {
    next := Edges(cs, text[0]).state;
  }

  /** A number of one digit or more in the version, in front of state `cs + 1`. */
  lemma NumberSkips(cs: nat, digits: string)
    requires (cs == 12 || cs == 14) && digits != "" && AllDigits(digits)
    ensures Skips(cs, digits) == To(cs + 1, Skip)
  {
    SkipsStay(cs + 1, digits[1..]);
    SkipsOn(cs, digits, cs + 1, cs + 1);
  }

  /** The version behind the first letter. */
  lemma VersionSkips(major: string, minor: string)
    requires major != "" && minor != "" && AllDigits(major) && AllDigits(minor)
    ensures Skips(8, "TTP/" + (major + ("." + minor))) == To(15, Skip)
  {
    ProtocolSkips();
    NumberSkips(12, major);
    NumberSkips(14, minor);
    assert ("." + minor)[1..] == minor;
    SkipsOn(13, "." + minor, 14, 15);
    SkipsConcat(12, major, "." + minor, 13, 15);
    SkipsConcat(8, "TTP/", major + ("." + minor), 12, 15);
  }

  lemma DigitsStay(text: string)
    requires forall i :: 0 <= i < |text| ==> HttpClientParser.Digit(text[i])
    ensures forall i :: 0 <= i < |text| ==> Edges(16, text[i]) == To(17, Mark) && Edges(17, text[i]) == To(17, Skip)
    ensures Edges(17, ' ') == To(18, Status)
  {
  }

  lemma ReasonStay(text: string)
    requires OneLineText(text)
    ensures forall i :: 0 <= i < |text| ==> Edges(18, text[i]) == To(19, Mark) && Edges(19, text[i]) == To(19, Skip)
    ensures Edges(19, CR) == To(24, Reason) && Edges(19, LF) == To(20, Reason) && Edges(24, LF) == To(20, Skip)
  {
  }

  // ----- Field names -----

  /** What a name read so far must have spelled, but for case, for the machine to be in a state. */
  function Spelled(cs: nat): string {
    if 25 <= cs <= 34 then CONNECTION[..cs - 24]
    else if 44 <= cs <= 60 then TRANSFER_ENCODING[..cs - 43]
    else if 73 <= cs <= 79 then CHUNKED[..cs - 72]
    else if 90 <= cs <= 94 then CLOSE[..cs - 89]
    else if 101 <= cs <= 111 then CONTENT_LENGTH[..cs - 97]
    else ""
  }

  predicate WordState(cs: nat) {
    25 <= cs <= 34 || 44 <= cs <= 60 || 73 <= cs <= 79 || 90 <= cs <= 94 || 101 <= cs <= 111
  }

  /** The states inside a name, and what has been read of it there. */
  predicate Spelling(cs: nat, name: string) {
    cs == 21 || (cs == 117 && AllDigits(name)) || (WordState(cs) && LowerAll(name) == Spelled(cs))
  }

  lemma WordOn(word: string, k: nat, c: char)
    requires Is(c, word, k)
    ensures word[..k + 1] == word[..k] + [Lower(c)]
  {
  }

  lemma LowerOn(name: string, c: char)
    ensures LowerAll(name + [c]) == LowerAll(name) + [Lower(c)]
  {
  }

  lemma SpellingConnection(cs: nat, name: string, c: char)
    requires 25 <= cs <= 34 && Spelling(cs, name) && Token(c)
    ensures Edges(cs, c).To? && Edges(cs, c).act == Skip && Spelling(Edges(cs, c).state, name + [c])
  {
    LowerOn(name, c);
    if Is(c, CONNECTION, cs - 24) {
      WordOn(CONNECTION, cs - 24, c);
    } else if cs == 27 && Lower(c) == 't' {
      assert CONTENT_LENGTH[..4] == CONNECTION[..3] + ['t'];
    }
  }

  lemma SpellingTransfer(cs: nat, name: string, c: char)
    requires 44 <= cs <= 60 && Spelling(cs, name) && Token(c)
    ensures Edges(cs, c).To? && Edges(cs, c).act == Skip && Spelling(Edges(cs, c).state, name + [c])
  {
    LowerOn(name, c);
    if Is(c, TRANSFER_ENCODING, cs - 43) {
      WordOn(TRANSFER_ENCODING, cs - 43, c);
    }
  }

  lemma SpellingChunked(cs: nat, name: string, c: char)
    requires 73 <= cs <= 79 && Spelling(cs, name) && Token(c)
    ensures Edges(cs, c).To? && Edges(cs, c).act == Skip && Spelling(Edges(cs, c).state, name + [c])
  {
    LowerOn(name, c);
    if Is(c, CHUNKED, cs - 72) {
      WordOn(CHUNKED, cs - 72, c);
    } else if cs == 73 && Lower(c) == 'o' {
      assert CONNECTION[..2] == CHUNKED[..1] + ['o'];
    }
  }

  lemma SpellingClose(cs: nat, name: string, c: char)
    requires 90 <= cs <= 94 && Spelling(cs, name) && Token(c)
    ensures Edges(cs, c).To? && Edges(cs, c).act == Skip && Spelling(Edges(cs, c).state, name + [c])
  {
    LowerOn(name, c);
    if Is(c, CLOSE, cs - 89) {
      WordOn(CLOSE, cs - 89, c);
    } else if cs == 90 && Lower(c) == 'o' {
      assert CONNECTION[..2] == CLOSE[..1] + ['o'];
    }
  }

  lemma SpellingLength(cs: nat, name: string, c: char)
    requires 101 <= cs <= 111 && Spelling(cs, name) && Token(c)
    ensures Edges(cs, c).To? && Edges(cs, c).act == Skip && Spelling(Edges(cs, c).state, name + [c])
  {
    LowerOn(name, c);
    if Is(c, CONTENT_LENGTH, cs - 97) {
      WordOn(CONTENT_LENGTH, cs - 97, c);
    }
  }

  lemma SpellingPlain(cs: nat, name: string, c: char)
    requires (cs == 21 || (cs == 117 && AllDigits(name))) && Token(c)
    ensures Edges(cs, c).To? && Edges(cs, c).act == Skip && Spelling(Edges(cs, c).state, name + [c])
  {
  }

  lemma SpellingOn(cs: nat, name: string, c: char)
    requires Spelling(cs, name) && Token(c)
    ensures Edges(cs, c).To? && Edges(cs, c).act == Skip && Spelling(Edges(cs, c).state, name + [c])
  {
    if 25 <= cs <= 34 {
      SpellingConnection(cs, name, c);
    } else if 44 <= cs <= 60 {
      SpellingTransfer(cs, name, c);
    } else if 73 <= cs <= 79 {
      SpellingChunked(cs, name, c);
    } else if 90 <= cs <= 94 {
      SpellingClose(cs, name, c);
    } else if 101 <= cs <= 111 {
      SpellingLength(cs, name, c);
    } else {
      SpellingPlain(cs, name, c);
    }
  }

  /** A name of tokens is read through, and what it spells is known at its end. */
  lemma {:induction false} NameSkips(cs: nat, name: string, rest: string)
    requires Spelling(cs, name) && forall i :: 0 <= i < |rest| ==> Token(rest[i])
    ensures Skips(cs, rest).To? && Skips(cs, rest).act == Skip && Spelling(Skips(cs, rest).state, name + rest)
    decreases |rest|
  {
    if rest == "" {
      assert name + rest == name;
    } else {
      SpellingOn(cs, name, rest[0]);
      NameSkips(Edges(cs, rest[0]).state, name + [rest[0]], rest[1..]);
      assert name + [rest[0]] + rest[1..] == name + rest;
    }
  }

  /** A byte that may not stand in a name ends the parse. */
  lemma BadByteFails(cs: nat, name: string, c: char)
    requires Spelling(cs, name) && !Token(c) && c != ':' && c != CR && c != LF
    ensures Edges(cs, c) == Fail
  {
  }

  lemma LowerFirst(text: string, word: string)
    requires text != "" && LowerAll(text) == word
    ensures Lower(text[0]) == word[0] && LowerAll(text[1..]) == word[1..]
  {
    assert LowerAll(text)[0] == Lower(text[0]);
  }

  /** The states that spell out one word: where it ends, and which letter leads on. */
  predicate Leads(word: string, first: nat, last: nat) {
    && last == first + |word| - 1
    && forall cs, c :: first <= cs < last && Lower(c) == word[cs - first + 1] ==> Edges(cs, c) == To(cs + 1, Skip)
  }

  lemma {:induction false} WordSkips(word: string, first: nat, last: nat, cs: nat, rest: string)
    requires Leads(word, first, last) && first <= cs <= last && LowerAll(rest) == word[cs - first + 1..]
    ensures Skips(cs, rest) == To(last, Skip)
    decreases |rest|
  {
    assert |rest| == last - cs;
    if rest != "" {
      LowerFirst(rest, word[cs - first + 1..]);
      assert word[cs - first + 1..][1..] == word[cs + 1 - first + 1..];
      assert Edges(cs, rest[0]) == To(cs + 1, Skip);
      WordSkips(word, first, last, cs + 1, rest[1..]);
      SkipsOn(cs, rest, cs + 1, last);
    }
  }

  lemma ConnectionLeads()
    ensures Leads(CONNECTION, 25, 34)
  {
  }

  lemma TransferLeads()
    ensures Leads(TRANSFER_ENCODING, 44, 60)
  {
  }

  /** The words behind the letters `cont`. */
  lemma LengthLeads()
    ensures Leads(CONTENT_LENGTH[3..], 101, 111)
  {
  }

  lemma CloseLeads()
    ensures Leads(CLOSE, 96, 100)
  {
  }

  lemma ChunkedLeads()
    ensures Leads(CHUNKED, 81, 87)
  {
  }

  /** The states at the start of a line: after a plain line, an empty known field, or a `connection: close`. */
  predicate AtStart(cs: nat) { cs in {20, 36, 43, 62, 113} }

  predicate GoodName(name: string) {
    name != "" && forall i :: 0 <= i < |name| ==> Token(name[i])
  }

  lemma NameBegins(cs: nat, c: char)
    requires AtStart(cs) && Token(c)
    ensures Edges(cs, c).To? && Spelling(Edges(cs, c).state, [c])
    ensures var act := Edges(cs, c).act;
      if cs == 43 then act == CloseStart else act == Start || act == MarkStart
    ensures Lower(c) == 't' ==> Edges(cs, c).state == 44
    ensures Lower(c) == 'c' ==> Edges(cs, c).state in {25, 73, 90}
  {
  }

  /** Behind the two letters that the known names share. */
  lemma SharedLetters(cs: nat, c: char)
    requires cs in {25, 73, 90} && Lower(c) == 'o'
    ensures Edges(cs, c) == To(26, Skip)
  {
  }

  lemma ConnectionSkips(cs: nat, rest: string)
    requires cs in {25, 73, 90} && LowerAll(rest) == CONNECTION[1..]
    ensures Skips(cs, rest) == To(34, Skip)
  {
    LowerFirst(rest, CONNECTION[1..]);
    SharedLetters(cs, rest[0]);
    assert CONNECTION[1..][1..] == CONNECTION[2..];
    ConnectionLeads();
    WordSkips(CONNECTION, 25, 34, 26, rest[1..]);
    SkipsOn(cs, rest, 26, 34);
  }

  lemma LengthTail(rest: string)
    requires LowerAll(rest) == CONTENT_LENGTH[2..]
    ensures Skips(26, rest) == To(111, Skip)
  {
    var third := rest[1..];
    assert CONTENT_LENGTH[2..][1..] == CONTENT_LENGTH[3..];
    LowerFirst(rest, CONTENT_LENGTH[2..]);
    LowerFirst(third, CONTENT_LENGTH[3..]);
    LengthLeads();
    WordSkips(CONTENT_LENGTH[3..], 101, 111, 101, third[1..]);
    SkipsOn(27, third, 101, 111);
    SkipsOn(26, rest, 27, 111);
  }

  lemma LengthSkips(cs: nat, rest: string)
    requires cs in {25, 73, 90} && LowerAll(rest) == CONTENT_LENGTH[1..]
    ensures Skips(cs, rest) == To(111, Skip)
  {
    assert CONTENT_LENGTH[1..][1..] == CONTENT_LENGTH[2..];
    LowerFirst(rest, CONTENT_LENGTH[1..]);
    SharedLetters(cs, rest[0]);
    LengthTail(rest[1..]);
    SkipsOn(cs, rest, 26, 111);
  }

  lemma TransferSkips(rest: string)
    requires LowerAll(rest) == TRANSFER_ENCODING[1..]
    ensures Skips(44, rest) == To(60, Skip)
  {
    TransferLeads();
    WordSkips(TRANSFER_ENCODING, 44, 60, 44, rest);
  }

  /** Where a name is read to, from the start of a line: the known names, in any case, to states of their own. */
  lemma NameReads(cs: nat, name: string)
    requires AtStart(cs) && GoodName(name)
    ensures var first := Edges(cs, name[0]);
      && first.To? && Skips(first.state, name[1..]).To? && Skips(first.state, name[1..]).act == Skip
      && var end := Skips(first.state, name[1..]).state;
         && Spelling(end, name)
         && (LowerAll(name) == CONNECTION ==> end == 34)
         && (LowerAll(name) == CONTENT_LENGTH ==> end == 111)
         && (LowerAll(name) == TRANSFER_ENCODING ==> end == 60)
  {
    NameBegins(cs, name[0]);
    var first := Edges(cs, name[0]).state;
    NameSkips(first, [name[0]], name[1..]);
    assert [name[0]] + name[1..] == name;
    if LowerAll(name) == CONNECTION {
      LowerFirst(name, CONNECTION);
      ConnectionSkips(first, name[1..]);
    } else if LowerAll(name) == CONTENT_LENGTH {
      LowerFirst(name, CONTENT_LENGTH);
      LengthSkips(first, name[1..]);
    } else if LowerAll(name) == TRANSFER_ENCODING {
      LowerFirst(name, TRANSFER_ENCODING);
      TransferSkips(name[1..]);
    }
  }

  /** The state at the start of the value of a field. */
  function ValueStart(name: string): nat {
    if LowerAll(name) == CONNECTION then 35
    else if LowerAll(name) == TRANSFER_ENCODING then 61
    else if LowerAll(name) == CONTENT_LENGTH then 112
    else 22
  }

  lemma WholeWords()
    ensures CONNECTION[..10] == CONNECTION && CONTENT_LENGTH[..14] == CONTENT_LENGTH
    ensures TRANSFER_ENCODING[..17] == TRANSFER_ENCODING && CHUNKED[..7] == CHUNKED && CLOSE[..5] == CLOSE
  {
  }

  lemma ColonAfter(cs: nat, name: string)
    requires Spelling(cs, name)
    requires LowerAll(name) == CONNECTION ==> cs == 34
    requires LowerAll(name) == CONTENT_LENGTH ==> cs == 111
    requires LowerAll(name) == TRANSFER_ENCODING ==> cs == 60
    ensures Edges(cs, ':') == To(ValueStart(name), Len)
  {
    WholeWords();
  }

  // ----- Field values -----

  predicate AllBlank(text: string) {
    forall i :: 0 <= i < |text| ==> Blank(text[i])
  }

  predicate GoodValue(value: string) {
    OneLineText(value) && (value != "" ==> !Blank(value[0]))
  }

  /** The states at the start of a value, and after an empty one with a line feed or with a carriage return. */
  predicate BeforeValue(cs: nat) { cs in {22, 35, 61, 112} }

  function EmptyEnd(cs: nat): nat {
    if cs == 35 then 36 else if cs == 61 then 62 else if cs == 112 then 113 else 20
  }

  lemma EmptyEnds(cs: nat)
    requires BeforeValue(cs)
    ensures Edges(cs, LF) == To(EmptyEnd(cs), MarkField)
    ensures forall c :: Blank(c) ==> Edges(cs, c) == To(cs, Mark)
    ensures var cr := Edges(cs, CR);
      cr.To? && cr.act == MarkField && Edges(cr.state, LF) == To(EmptyEnd(cs), Skip)
  {
  }

  /** The states inside the value that begins in state `from`, and what has been read of it there. */
  predicate Valuing(from: nat, cs: nat, read: string) {
    || cs == 23
    || (from == 61 && 81 <= cs <= 87 && LowerAll(read) == CHUNKED[..cs - 80])
    || (from == 35 && 96 <= cs <= 100 && LowerAll(read) == CLOSE[..cs - 95])
    || (from == 112 && cs == 119 && AllDigits(read))
  }

  lemma ValuingOn(from: nat, cs: nat, read: string, c: char)
    requires Valuing(from, cs, read) && c != CR && c != LF
    ensures Edges(cs, c).To? && Edges(cs, c).act == Skip && Valuing(from, Edges(cs, c).state, read + [c])
  {
    LowerOn(read, c);
    if 81 <= cs <= 86 && Is(c, CHUNKED, cs - 80) {
      WordOn(CHUNKED, cs - 80, c);
    } else if 96 <= cs <= 99 && Is(c, CLOSE, cs - 95) {
      WordOn(CLOSE, cs - 95, c);
    }
  }

  lemma {:induction false} ValueSkips(from: nat, cs: nat, read: string, text: string)
    requires Valuing(from, cs, read) && OneLineText(text)
    ensures Skips(cs, text).To? && Skips(cs, text).act == Skip && Valuing(from, Skips(cs, text).state, read + text)
    decreases |text|
  {
    if text == "" {
      assert read + text == read;
    } else {
      ValuingOn(from, cs, read, text[0]);
      ValueSkips(from, Edges(cs, text[0]).state, read + [text[0]], text[1..]);
      assert read + [text[0]] + text[1..] == read + text;
    }
  }

  lemma ValueBegins(from: nat, c: char)
    requires BeforeValue(from) && !Space(c)
    ensures Edges(from, c).To? && Edges(from, c).act == Mark && Valuing(from, Edges(from, c).state, [c])
    ensures from == 61 && Lower(c) == 'c' ==> Edges(from, c).state == 81
    ensures from == 35 && Lower(c) == 'c' ==> Edges(from, c).state == 96
    ensures from == 112 && HttpClientParser.Digit(c) ==> Edges(from, c).state == 119
  {
  }

  /** The values the parser understands, for the start of a value. */
  predicate Understood(from: nat, value: string) {
    || (from == 61 && LowerAll(value) == CHUNKED)
    || (from == 35 && LowerAll(value) == CLOSE)
    || (from == 112 && value != "" && AllDigits(value))
  }

  function UnderstoodIn(from: nat): nat {
    if from == 61 then 87 else if from == 35 then 100 else 119
  }

  lemma {:induction false} LengthDigits(text: string)
    requires AllDigits(text)
    ensures Skips(119, text) == To(119, Skip)
  {
    SkipsStay(119, text);
  }

  /** A value is read through, and it ends in the state of an understood one exactly if it is one. */
  lemma ValueReads(from: nat, value: string)
    requires BeforeValue(from) && value != "" && GoodValue(value)
    ensures var first := Edges(from, value[0]);
      && first.To? && first.act == Mark
      && Skips(first.state, value[1..]).To? && Skips(first.state, value[1..]).act == Skip
      && var end := Skips(first.state, value[1..]).state;
         Valuing(from, end, value) && (Understood(from, value) ==> end == UnderstoodIn(from))
  {
    ValueBegins(from, value[0]);
    var first := Edges(from, value[0]).state;
    assert [value[0]] + value[1..] == value;
    ValueSkips(from, first, [value[0]], value[1..]);
    if from == 61 && LowerAll(value) == CHUNKED {
      LowerFirst(value, CHUNKED);
      ChunkedLeads();
      WordSkips(CHUNKED, 81, 87, 81, value[1..]);
    } else if from == 35 && LowerAll(value) == CLOSE {
      LowerFirst(value, CLOSE);
      CloseLeads();
      WordSkips(CLOSE, 96, 100, 96, value[1..]);
    } else if Understood(from, value) {
      LengthDigits(value[1..]);
    }
  }

  /** A value cannot end in the state of an understood one without being one. */
  lemma UnderstoodOnly(from: nat, end: nat, value: string)
    requires BeforeValue(from) && value != "" && Valuing(from, end, value)
    ensures end == UnderstoodIn(from) ==> Understood(from, value)
  {
    WholeWords();
  }

  /** What ending the line does in the state of a value: with a line feed, or with both. */
  lemma ValueEnds(from: nat, end: nat, value: string)
    requires BeforeValue(from) && value != "" && Valuing(from, end, value)
    requires Understood(from, value) ==> end == UnderstoodIn(from)
    ensures !Understood(from, value) ==> Edges(end, LF) == To(20, Field) && Edges(end, CR) == To(24, Field)
    ensures Understood(from, value) && from == 112 ==> Edges(end, LF) == To(20, ContentLen) && Edges(end, CR) == To(24, ContentLen)
    ensures Understood(from, value) && from == 61 ==> Edges(end, LF) == To(20, FieldChunked) && Edges(end, CR) == To(71, Field)
    ensures Understood(from, value) && from == 35 ==> Edges(end, LF) == To(43, Field) && Edges(end, CR) == To(88, Field)
    ensures Edges(24, LF) == To(20, Skip) && Edges(71, LF) == To(20, Chunked) && Edges(88, LF) == To(43, Skip)
  {
    UnderstoodOnly(from, end, value);
  }

  // ----- Values on a line of their own -----

  lemma FoldSkips(cs: nat, fold: string)
    requires (cs == 36 || cs == 62 || cs == 113) && fold != "" && Blank(fold[0])
    requires forall i :: 0 <= i < |fold| ==> Space(fold[i])
    ensures Skips(cs, fold) == To(cs + 1, Skip)
  {
    SkipsStay(cs + 1, fold[1..]);
    SkipsOn(cs, fold, cs + 1, cs + 1);
  }

  lemma FoldedLeads()
    ensures Leads(CLOSE, 38, 42) && Leads(CHUNKED, 64, 70)
  {
  }

  lemma FoldedCloseSkips(value: string)
    requires LowerAll(value) == CLOSE
    ensures Skips(37, value) == To(42, Skip)
  {
    FoldedLeads();
    LowerFirst(value, CLOSE);
    WordSkips(CLOSE, 38, 42, 38, value[1..]);
    SkipsOn(37, value, 38, 42);
  }

  lemma FoldedChunkedSkips(value: string)
    requires LowerAll(value) == CHUNKED
    ensures value != "" && Edges(63, value[0]) == To(64, Mark) && Skips(64, value[1..]) == To(70, Skip)
  {
    FoldedLeads();
    LowerFirst(value, CHUNKED);
    WordSkips(CHUNKED, 64, 70, 64, value[1..]);
  }

  lemma FoldedLengthSkips(value: string)
    requires value != "" && AllDigits(value)
    ensures Edges(114, value[0]) == To(115, Mark) && Skips(115, value[1..]) == To(115, Skip)
  {
    SkipsStay(115, value[1..]);
  }

  // ----- The end of the header -----

  /** A header that ends behind an empty known field leaves the machine in a state other than the final one. */
  function EndState(cs: nat): nat {
    if cs == 36 then 122 else if cs == 62 then 121 else if cs == 113 then 123 else FINAL
  }

  lemma EndEdges(cs: nat)
    requires AtStart(cs)
    ensures Edges(cs, LF) == To(EndState(cs), if cs == 43 then CloseDone else Done)
    ensures var cr := Edges(cs, CR);
      cr.To? && cr.act == (if cs == 43 then Close else Skip) && Edges(cr.state, LF) == To(EndState(cs), Done)
  {
  }
}
