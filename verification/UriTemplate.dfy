/** URI templates with simple and reserved variables: compiling, printing back, matching, expanding. */
module UriTemplate {

  datatype Option<T> = None | Some(value: T)
  datatype Result<T, E> = Ok(value: T) | Err(error: E)

  datatype Segment = Literal(value: string) | Var(value: string) | ReservedVar(value: string)

  datatype ParseError =
    | Unclosed
    | EmptyExpression
    | Unsupported(operator: char)
    | EmptyName
    | MultiVariable

  const OPERATORS: seq<char> := "?#/.;&"

  // ----- Compiling -----

  /** The first position at or after `from` holding `c`. */
  function IndexOf(s: string, c: char, from: nat): (r: Option<nat>)
    requires from <= |s|
    ensures r.Some? ==> from <= r.value < |s| && s[r.value] == c && c !in s[from..r.value]
    ensures r.None? ==> c !in s[from..]
    decreases |s| - from
  {
    if from == |s| then None
    else if s[from] == c then Some(from)
    else
      var r := IndexOf(s, c, from + 1);
      assert s[from..] == [s[from]] + s[from + 1..];
      assert r.Some? ==> s[from..r.value] == [s[from]] + s[from + 1..r.value];
      r
  }

  /** What stands between the braces. */
  function ParseExpression(expr: string): Result<Segment, ParseError> {
    if expr == "" then Err(EmptyExpression)
    else if expr[0] in OPERATORS then Err(Unsupported(expr[0]))
    else
      var name := if expr[0] == '+' then expr[1..] else expr;
      if name == "" then Err(EmptyName)
      else if ',' in name then Err(MultiVariable)
      else Ok(if expr[0] == '+' then ReservedVar(name) else Var(name))
  }

  /** The variable at the head of `rest`, and how much of it that takes. */
  function ParseVariable(rest: string): (r: Result<(Segment, nat), ParseError>)
    requires rest != "" && rest[0] == '{'
    ensures r.Ok? ==> 0 < r.value.1 <= |rest|
  {
    match IndexOf(rest, '}', 1)
    case None => Err(Unclosed)
    case Some(end) =>
      match ParseExpression(rest[1..end])
      case Err(e) => Err(e)
      case Ok(segment) => Ok((segment, end + 1))
  }

  function Flush(literal: string): seq<Segment> {
    if literal == "" then [] else [Literal(literal)]
  }

  /** The segments of `literal` followed by the template text `rest`. */
  function Compile(literal: string, rest: string): Result<seq<Segment>, ParseError>
    decreases |rest|
  {
    if rest == "" then Ok(Flush(literal))
    else if rest[0] != '{' then Compile(literal + [rest[0]], rest[1..])
    else
      match ParseVariable(rest)
      case Err(e) => Err(e)
      case Ok(v) => Before(Flush(literal) + [v.0], Compile("", rest[v.1..]))
  }

  function Before(segments: seq<Segment>, rest: Result<seq<Segment>, ParseError>): Result<seq<Segment>, ParseError> {
    match rest
    case Ok(more) => Ok(segments + more)
    case Err(e) => Err(e)
  }

  predicate HasVars(segments: seq<Segment>) {
    exists i :: 0 <= i < |segments| && !segments[i].Literal?
  }

  lemma VarAppended(segments: seq<Segment>, literal: string, segment: Segment)
    ensures HasVars(segments + Flush(literal)) <==> HasVars(segments)
    ensures !segment.Literal? ==> HasVars(segments + Flush(literal) + [segment])
  {
    var a, b := segments + Flush(literal), segments + Flush(literal) + [segment];
    assert b[|b| - 1] == segment;
    if HasVars(segments) {
      var i :| 0 <= i < |segments| && !segments[i].Literal?;
      assert a[i] == segments[i];
    }
  }

  lemma BeforeNothing(rest: Result<seq<Segment>, ParseError>)
    ensures Before([], rest) == rest
  {
    assert rest.Ok? ==> [] + rest.value == rest.value;
  }

  /** One variable further into the template. */
  lemma CompileOn(segments: seq<Segment>, literal: string, rest: string, segment: Segment, n: nat)
    requires rest != "" && rest[0] == '{' && ParseVariable(rest) == Ok((segment, n))
    ensures Before(segments, Compile(literal, rest)) == Before(segments + Flush(literal) + [segment], Compile("", rest[n..]))
  {
    BeforeBefore(segments, Flush(literal) + [segment], Compile("", rest[n..]));
    assert segments + (Flush(literal) + [segment]) == segments + Flush(literal) + [segment];
  }

  /** The constructor's loop over the template. */
  method Parse(tmpl: string) returns (r: Result<seq<Segment>, ParseError>, hasVars: bool)
    ensures r == Compile("", tmpl)
    ensures r.Ok? ==> (hasVars <==> HasVars(r.value))
  {
    var segments: seq<Segment>, literal, i := [], "", 0;
    hasVars := false;
    assert tmpl[0..] == tmpl;
    BeforeNothing(Compile("", tmpl));
    while i < |tmpl|
      invariant i <= |tmpl|
      invariant Compile("", tmpl) == Before(segments, Compile(literal, tmpl[i..]))
      invariant hasVars <==> HasVars(segments)
    {
      var rest := tmpl[i..];
      if tmpl[i] != '{' {
        literal := literal + [tmpl[i]];
        i := i + 1;
        assert rest[1..] == tmpl[i..];
        continue;
      }
      var variable := ParseVariable(rest);
      if variable.Err? {
        return Err(variable.error), hasVars;
      }
      var (segment, n) := variable.value;
      CompileOn(segments, literal, rest, segment, n);
      VarAppended(segments, literal, segment);
      assert rest[n..] == tmpl[i + n..];
      segments, literal := segments + Flush(literal) + [segment], "";
      hasVars := true;
      i := i + n;
    }
    VarAppended(segments, literal, Literal(""));
    r := Ok(segments + Flush(literal));
  }

  lemma BeforeBefore(a: seq<Segment>, b: seq<Segment>, rest: Result<seq<Segment>, ParseError>)
    ensures Before(a, Before(b, rest)) == Before(a + b, rest)
  {
    if rest.Ok? {
      assert a + (b + rest.value) == a + b + rest.value;
    }
  }

  // ----- Printing back -----

  function PrintSegment(segment: Segment): string {
    match segment
    case Literal(text) => text
    case Var(name) => "{" + name + "}"
    case ReservedVar(name) => "{+" + name + "}"
  }

  function Print(segments: seq<Segment>): string {
    if segments == [] then "" else PrintSegment(segments[0]) + Print(segments[1..])
  }

  predicate GoodSegment(segment: Segment) {
    match segment
    case Literal(text) => text != "" && '{' !in text
    case Var(name) => name != "" && '}' !in name && ',' !in name && name[0] !in OPERATORS && name[0] != '+'
    case ReservedVar(name) => name != "" && '}' !in name && ',' !in name
  }

  /** What compiling can produce: good segments, no two literals in a row. */
  predicate WellFormed(segments: seq<Segment>) {
    && (forall i :: 0 <= i < |segments| ==> GoodSegment(segments[i]))
    && (forall i :: 0 <= i < |segments| - 1 ==> !(segments[i].Literal? && segments[i + 1].Literal?))
  }

  lemma ExpressionPrints(expr: string)
    requires ParseExpression(expr).Ok? && '}' !in expr
    ensures GoodSegment(ParseExpression(expr).value) && !ParseExpression(expr).value.Literal?
    ensures PrintSegment(ParseExpression(expr).value) == "{" + expr + "}"
  {
    if expr[0] == '+' {
      assert expr == "+" + expr[1..];
    }
  }

  /** An accepted template prints back from its segments. */
  lemma {:induction false} CompiledPrintsBack(literal: string, rest: string)
    requires '{' !in literal && Compile(literal, rest).Ok?
    ensures WellFormed(Compile(literal, rest).value)
    ensures Print(Compile(literal, rest).value) == literal + rest
    decreases |rest|
  {
    if rest == "" {
      assert literal + rest == literal;
    } else if rest[0] != '{' {
      CompiledPrintsBack(literal + [rest[0]], rest[1..]);
      assert literal + [rest[0]] + rest[1..] == literal + rest;
    } else {
      CompiledPrintsBack("", rest[ParseVariable(rest).value.1..]);
      CompiledVariable(literal, rest);
    }
  }

  lemma CompiledVariable(literal: string, rest: string)
    requires '{' !in literal && rest != "" && rest[0] == '{' && Compile(literal, rest).Ok?
    requires var tail := rest[ParseVariable(rest).value.1..];
      WellFormed(Compile("", tail).value) && Print(Compile("", tail).value) == "" + tail
    ensures WellFormed(Compile(literal, rest).value)
    ensures Print(Compile(literal, rest).value) == literal + rest
  {
    var (segment, n) := ParseVariable(rest).value;
    VariablePrints(rest);
    var more := Compile("", rest[n..]).value;
    PrintsInFront(literal, segment, more);
    assert Compile(literal, rest) == Ok(Flush(literal) + [segment] + more);
    Rejoin(literal, rest, n);
  }

  lemma Rejoin(a: string, b: string, n: nat)
    requires n <= |b|
    ensures a + b[..n] + ("" + b[n..]) == a + b
  {
  }

  lemma VariablePrints(rest: string)
    requires rest != "" && rest[0] == '{' && ParseVariable(rest).Ok?
    ensures var (segment, n) := ParseVariable(rest).value;
      GoodSegment(segment) && !segment.Literal? && PrintSegment(segment) == rest[..n]
  {
    var end := IndexOf(rest, '}', 1).value;
    ExpressionPrints(rest[1..end]);
    assert rest[..end + 1] == "{" + rest[1..end] + "}";
  }

  lemma PrintsInFront(literal: string, segment: Segment, more: seq<Segment>)
    requires '{' !in literal && GoodSegment(segment) && !segment.Literal? && WellFormed(more)
    ensures WellFormed(Flush(literal) + [segment] + more)
    ensures Print(Flush(literal) + [segment] + more) == literal + PrintSegment(segment) + Print(more)
  {
    PrintConcat(Flush(literal) + [segment], more);
    PrintConcat(Flush(literal), [segment]);
    assert Print(Flush(literal)) == literal;
    assert Print([segment]) == PrintSegment(segment);
  }

  lemma Assoc(a: string, b: string, c: string)
    ensures a + b + c == a + (b + c)
  {
  }

  function Joined(text: Segment -> string, segments: seq<Segment>): string {
    if segments == [] then "" else text(segments[0]) + Joined(text, segments[1..])
  }

  lemma {:induction false} PrintIsJoined(segments: seq<Segment>)
    ensures Print(segments) == Joined(PrintSegment, segments)
    decreases |segments|
  {
    if segments != [] {
      PrintIsJoined(segments[1..]);
    }
  }

  lemma {:induction false} JoinedConcat(text: Segment -> string, a: seq<Segment>, b: seq<Segment>)
    ensures Joined(text, a + b) == Joined(text, a) + Joined(text, b)
    decreases |a|
  {
    if a == [] {
      assert a + b == b;
    } else {
      assert (a + b)[0] == a[0] && (a + b)[1..] == a[1..] + b;
      JoinedConcat(text, a[1..], b);
      Assoc(text(a[0]), Joined(text, a[1..]), Joined(text, b));
    }
  }

  lemma PrintConcat(a: seq<Segment>, b: seq<Segment>)
    ensures Print(a + b) == Print(a) + Print(b)
  {
    PrintIsJoined(a);
    PrintIsJoined(b);
    PrintIsJoined(a + b);
    JoinedConcat(PrintSegment, a, b);
  }

  /** The expression a variable is printed as, which compiles back to it. */
  function Expression(segment: Segment): string {
    match segment
    case ReservedVar(name) => "+" + name
    case _ => segment.value
  }

  lemma ExpressionCompilesBack(segment: Segment)
    requires GoodSegment(segment) && !segment.Literal?
    ensures ParseExpression(Expression(segment)) == Ok(segment) && '}' !in Expression(segment)
    ensures PrintSegment(segment) == "{" + Expression(segment) + "}"
  {
    if segment.ReservedVar? {
      assert Expression(segment)[1..] == segment.value;
    }
  }

  lemma {:induction false} IndexOfFirst(s: string, c: char, from: nat, k: nat)
    requires from <= k < |s| && s[k] == c && c !in s[from..k]
    ensures IndexOf(s, c, from) == Some(k)
    decreases k - from
  {
    if from < k {
      assert s[from..k][0] == s[from];
      assert s[from..k][1..] == s[from + 1..k];
      IndexOfFirst(s, c, from + 1, k);
    }
  }

  lemma {:induction false} CompileText(literal: string, text: string, rest: string)
    requires '{' !in text
    ensures Compile(literal, text + rest) == Compile(literal + text, rest)
    decreases |text|
  {
    if text == "" {
      assert text + rest == rest && literal + text == literal;
    } else {
      CompileText(literal + [text[0]], text[1..], rest);
      assert (text + rest)[1..] == text[1..] + rest;
      assert literal + [text[0]] + text[1..] == literal + text;
    }
  }

  lemma CompileVariable(literal: string, segment: Segment, rest: string)
    requires GoodSegment(segment) && !segment.Literal?
    ensures Compile(literal, PrintSegment(segment) + rest) == Before(Flush(literal) + [segment], Compile("", rest))
  {
    var text := PrintSegment(segment) + rest;
    var expr := Expression(segment);
    ExpressionCompilesBack(segment);
    assert text == "{" + expr + "}" + rest;
    assert text[1..|expr| + 1] == expr;
    IndexOfFirst(text, '}', 1, |expr| + 1);
    assert text[|expr| + 2..] == rest;
  }

  /** And every well-formed list of segments is what its own printed form compiles to. */
  lemma {:induction false} PrintedCompilesBack(segments: seq<Segment>)
    requires WellFormed(segments)
    ensures Compile("", Print(segments)) == Ok(segments)
    decreases |segments|
  {
    if segments != [] {
      var first, rest := segments[0], segments[1..];
      assert GoodSegment(first) && WellFormed(rest);
      PrintedCompilesBack(rest);
      assert segments == [first] + rest;
      if !first.Literal? {
        CompileVariable("", first, Print(rest));
        assert Flush("") + [first] == [first];
      } else if rest == [] {
        CompileText("", first.value, "");
        assert "" + first.value == first.value;
        assert Print(rest) == "" && segments == [Literal(first.value)];
      } else {
        PrintedLiteral(segments);
      }
    }
  }

  lemma PrintedLiteral(segments: seq<Segment>)
    requires WellFormed(segments) && |segments| >= 2 && segments[0].Literal?
    requires Compile("", Print(segments[1..])) == Ok(segments[1..])
    ensures Compile("", Print(segments)) == Ok(segments)
  {
    var first, rest := segments[0], segments[1..];
    var second, more := rest[0], rest[1..];
    assert GoodSegment(first) && GoodSegment(segments[1]);
    CompileText("", first.value, Print(rest));
    assert "" + first.value == first.value;
    CompileVariable(first.value, second, Print(more));
    CompileVariable("", second, Print(more));
    assert Flush("") + [second] == [second];
    assert rest == [second] + Compile("", Print(more)).value;
    assert segments == [first] + [second] + Compile("", Print(more)).value;
  }

  /** Compiling accepts exactly the printed forms of well-formed segments. */
  lemma AcceptsExactlyPrinted(tmpl: string)
    ensures Compile("", tmpl).Ok? <==> exists segments :: WellFormed(segments) && Print(segments) == tmpl
  {
    if Compile("", tmpl).Ok? {
      CompiledPrintsBack("", tmpl);
      assert "" + tmpl == tmpl;
    }
    forall segments | WellFormed(segments) && Print(segments) == tmpl ensures Compile("", tmpl).Ok? {
      PrintedCompilesBack(segments);
    }
  }

  // ----- Why a template is refused -----

  /** What is wrong with the expression at the head of `rest`, which ends at the first brace that closes one. */
  predicate Faulty(rest: string, e: ParseError) {
    && rest != "" && rest[0] == '{'
    && if e.Unclosed? then '}' !in rest
       else exists k :: 0 < k < |rest| && rest[k] == '}' && '}' !in rest[1..k] && FaultyExpression(rest[1..k], e)
  }

  predicate FaultyExpression(expr: string, e: ParseError) {
    match e
    case Unclosed => false
    case EmptyExpression => expr == ""
    case Unsupported(c) => expr != "" && expr[0] == c && c in OPERATORS
    case EmptyName => expr == "+"
    case MultiVariable => expr != "" && expr[0] !in OPERATORS && ',' in expr
  }

  lemma ExpressionFaulty(expr: string)
    ensures ParseExpression(expr).Err? ==> FaultyExpression(expr, ParseExpression(expr).error)
  {
    if expr != "" && expr[0] == '+' {
      assert expr == ['+'] + expr[1..];
    }
  }

  lemma VariableFaulty(rest: string)
    requires rest != "" && rest[0] == '{' && ParseVariable(rest).Err?
    ensures Faulty(rest, ParseVariable(rest).error)
  {
    var end := IndexOf(rest, '}', 1);
    if end.None? {
      assert rest == [rest[0]] + rest[1..];
    } else {
      ExpressionFaulty(rest[1..end.value]);
    }
  }

  /** What comes behind a variable does not change it. */
  lemma VariableInFront(rest: string, n: nat)
    requires rest != "" && rest[0] == '{' && ParseVariable(rest).Ok? && ParseVariable(rest).value.1 <= n <= |rest|
    ensures ParseVariable(rest[..n]) == ParseVariable(rest)
  {
    var end := IndexOf(rest, '}', 1).value;
    assert rest[..n][1..end] == rest[1..end];
    IndexOfFirst(rest[..n], '}', 1, end);
  }

  /** A refused template is good up to an expression that has the fault reported. */
  lemma {:induction false} RefusedFor(literal: string, rest: string) returns (n: nat)
    requires Compile(literal, rest).Err?
    ensures n <= |rest| && Compile(literal, rest[..n]).Ok? && Faulty(rest[n..], Compile(literal, rest).error)
    decreases |rest|
  {
    if rest[0] != '{' {
      n := RefusedFor(literal + [rest[0]], rest[1..]);
      n := n + 1;
      assert rest[..n][1..] == rest[1..][..n - 1] && rest[n..] == rest[1..][n - 1..];
    } else if ParseVariable(rest).Err? {
      VariableFaulty(rest);
      n := 0;
      assert rest[0..] == rest;
    } else {
      var m := ParseVariable(rest).value.1;
      n := RefusedFor("", rest[m..]);
      n := m + n;
      VariableInFront(rest, n);
      assert rest[..n][m..] == rest[m..][..n - m] && rest[n..] == rest[m..][n - m..];
    }
  }

  /** No expression that is good has a fault, and none has two that the parser would report. */
  lemma FaultsAreFaults(rest: string, e: ParseError)
    requires Faulty(rest, e)
    ensures Compile("", rest) == Err(e)
  {
    if e.Unclosed? {
      assert IndexOf(rest, '}', 1).None?;
    } else {
      var k :| 0 < k < |rest| && rest[k] == '}' && '}' !in rest[1..k] && FaultyExpression(rest[1..k], e);
      IndexOfFirst(rest, '}', 1, k);
      var expr := rest[1..k];
      assert ParseExpression(expr) == Err(e);
    }
  }
}
