/** Matching a URI against a compiled template, and expanding the template from what was matched. */
module UriMatch {
  import opened UriTemplate

  predicate OccursAt(text: string, literal: string, k: nat) {
    k + |literal| <= |text| && text[k..k + |literal|] == literal
  }

  /** `std::string::find`: the first occurrence at or after `from`. */
  function Find(text: string, literal: string, from: nat): (r: Option<nat>)
    requires from <= |text|
    ensures r.Some? ==> from <= r.value && OccursAt(text, literal, r.value)
    ensures r.Some? ==> forall k: nat :: from <= k < r.value ==> !OccursAt(text, literal, k)
    ensures r.None? ==> forall k: nat :: from <= k ==> !OccursAt(text, literal, k)
    decreases |text| - from
  {
    if OccursAt(text, literal, from) then Some(from)
    else if from == |text| then None
    else Find(text, literal, from + 1)
  }

  /** Where the value of the variable at the head of `segments` ends: at the next literal, else at the end. */
  function ValueEnd(segments: seq<Segment>, uri: string): (r: Option<nat>)
    requires segments != []
    ensures r.Some? ==> r.value <= |uri|
  {
    if |segments| > 1 && segments[1].Literal? then Find(uri, segments[1].value, 0) else Some(|uri|)
  }

  predicate GoodValue(segment: Segment, value: string) {
    value != "" && (segment.Var? ==> '/' !in value)
  }

  /** The values of the variables, one for each occurrence, when the segments cover the whole URI. */
  function Values(segments: seq<Segment>, uri: string): (r: Option<seq<string>>)
    ensures r.Some? ==> |r.value| == |Names(segments)|
  {
    if segments == [] then (if uri == "" then Some([]) else None)
    else if segments[0].Literal? then
      if OccursAt(uri, segments[0].value, 0) then Values(segments[1..], uri[|segments[0].value|..]) else None
    else
      match ValueEnd(segments, uri)
      case None => None
      case Some(end) =>
        if !GoodValue(segments[0], uri[..end]) then None
        else WithFirst([uri[..end]], Values(segments[1..], uri[end..]))
  }

  function WithFirst(first: seq<string>, rest: Option<seq<string>>): Option<seq<string>> {
    match rest
    case None => None
    case Some(values) => Some(first + values)
  }

  /** The variable names in the order of their occurrences. */
  function Names(segments: seq<Segment>): seq<string> {
    if segments == [] then []
    else (if segments[0].Literal? then [] else [segments[0].value]) + Names(segments[1..])
  }

  /** The parameter table: the value of the last occurrence of a name stays. */
  function Bind(names: seq<string>, values: seq<string>): map<string, string>
    requires |names| == |values|
  {
    if names == [] then map[]
    else
      var n := |names| - 1;
      Bind(names[..n], values[..n])[names[n] := values[n]]
  }

  function Matched(segments: seq<Segment>, uri: string): Option<map<string, string>> {
    match Values(segments, uri)
    case None => None
    case Some(values) => Some(Bind(Names(segments), values))
  }

  // ----- The loop -----

  datatype Template = Template(original: string, segments: seq<Segment>, hasVars: bool)

  predicate Compiled(t: Template) {
    Compile("", t.original) == Ok(t.segments) && (t.hasVars <==> HasVars(t.segments))
  }

  lemma OccursFrom(text: string, literal: string, from: nat, k: nat)
    requires from <= k <= |text|
    ensures OccursAt(text, literal, k) <==> OccursAt(text[from..], literal, k - from)
  {
    if k + |literal| <= |text| {
      assert text[from..][k - from..k - from + |literal|] == text[k..k + |literal|];
    }
  }

  lemma {:induction false} FindFrom(text: string, literal: string, from: nat, k: nat)
    requires from <= k <= |text|
    ensures Find(text, literal, k) ==
      match Find(text[from..], literal, k - from) case None => None case Some(i) => Some(from + i)
    decreases |text| - k
  {
    OccursFrom(text, literal, from, k);
    if k < |text| {
      FindFrom(text, literal, from, k + 1);
    }
  }

  lemma {:induction false} NamesConcat(a: seq<Segment>, b: seq<Segment>)
    ensures Names(a + b) == Names(a) + Names(b)
    decreases |a|
  {
    if a == [] {
      assert a + b == b;
    } else {
      NamesConcat(a[1..], b);
      assert (a + b)[0] == a[0] && (a + b)[1..] == a[1..] + b;
      var first := if a[0].Literal? then [] else [a[0].value];
      assert first + (Names(a[1..]) + Names(b)) == first + Names(a[1..]) + Names(b);
    }
  }

  lemma WithFirstTwice(a: seq<string>, b: seq<string>, rest: Option<seq<string>>)
    ensures WithFirst(a, WithFirst(b, rest)) == WithFirst(a + b, rest)
  {
    if rest.Some? {
      assert a + (b + rest.value) == a + b + rest.value;
    }
  }

  lemma OneLiteral(text: string, uri: string)
    ensures Matched([Literal(text)], uri) == if uri == text then Some(map[]) else None
  {
    var segments := [Literal(text)];
    assert segments[1..] == [] && Names(segments) == [];
    assert uri == text ==> uri[0..|text|] == text;
    assert OccursAt(uri, text, 0) ==> uri == text + uri[|text|..];
    assert OccursAt(uri, text, 0) && uri[|text|..] == "" ==> uri == text;
    assert Values(segments, uri) == if OccursAt(uri, text, 0) then Values([], uri[|text|..]) else None;
  }

  lemma TwoHaveVars(segments: seq<Segment>)
    requires WellFormed(segments) && |segments| > 1
    ensures HasVars(segments)
  {
    assert !(segments[0].Literal? && segments[1].Literal?);
  }

  lemma NoVarsOneLiteral(t: Template, uri: string)
    requires Compiled(t) && !t.hasVars
    ensures Matched(t.segments, uri) == if uri == t.original then Some(map[]) else None
  {
    var segments := t.segments;
    CompiledPrintsBack("", t.original);
    assert "" + t.original == t.original;
    if segments != [] {
      if |segments| > 1 {
        TwoHaveVars(segments);
      }
      assert Print(segments[1..]) == "" && t.original == segments[0].value + "";
      assert segments[0].value + "" == segments[0].value;
      assert segments == [Literal(t.original)];
      OneLiteral(t.original, uri);
    }
  }

  /** One round of the loop for a variable. */
  lemma ValuesOn(segments: seq<Segment>, uri: string, i: nat, pos: nat, values: seq<string>, end: nat)
    requires i < |segments| && !segments[i].Literal? && pos <= |uri|
    requires ValueEnd(segments[i..], uri[pos..]) == Some(end) && GoodValue(segments[i], uri[pos..pos + end])
    ensures WithFirst(values, Values(segments[i..], uri[pos..]))
      == WithFirst(values + [uri[pos..pos + end]], Values(segments[i + 1..], uri[pos + end..]))
  {
    var rest, text := segments[i..], uri[pos..];
    assert text[..end] == uri[pos..pos + end] && text[end..] == uri[pos + end..] && rest[1..] == segments[i + 1..];
    WithFirstTwice(values, [text[..end]], Values(rest[1..], text[end..]));
  }

  lemma LiteralOn(segments: seq<Segment>, uri: string, i: nat, pos: nat)
    requires i < |segments| && segments[i].Literal? && pos <= |uri|
    ensures Values(segments[i..], uri[pos..]) ==
      if OccursAt(uri, segments[i].value, pos) then Values(segments[i + 1..], uri[pos + |segments[i].value|..]) else None
  {
    var rest, text, literal := segments[i..], uri[pos..], segments[i].value;
    assert rest[1..] == segments[i + 1..];
    assert OccursAt(uri, literal, pos) <==> OccursAt(text, literal, 0);
    assert OccursAt(uri, literal, pos) ==> text[|literal|..] == uri[pos + |literal|..];
  }

  lemma BindOn(names: seq<string>, values: seq<string>, name: string, value: string)
    requires |names| == |values|
    ensures Bind(names + [name], values + [value]) == Bind(names, values)[name := value]
  {
    assert (names + [name])[..|names|] == names && (values + [value])[..|names|] == values;
  }

  lemma NamesOn(segments: seq<Segment>, i: nat)
    requires i < |segments|
    ensures Names(segments[..i + 1])
      == if segments[i].Literal? then Names(segments[..i]) else Names(segments[..i]) + [segments[i].value]
  {
    assert segments[..i + 1] == segments[..i] + [segments[i]];
    NamesConcat(segments[..i], [segments[i]]);
    assert [segments[i]][1..] == [] && Names(segments[..i]) + [] == Names(segments[..i]);
  }

  /** The first `i` segments have taken `uri[..pos]`, with these values bound; the others have to take the rest. */
  predicate MatchedTo(segments: seq<Segment>, uri: string, i: nat, pos: nat, values: seq<string>, params: map<string, string>)
  {
    && i <= |segments| && pos <= |uri|
    && Values(segments, uri) == WithFirst(values, Values(segments[i..], uri[pos..]))
    && |values| == |Names(segments[..i])| && params == Bind(Names(segments[..i]), values)
  }

  lemma MatchBegins(segments: seq<Segment>, uri: string)
    ensures MatchedTo(segments, uri, 0, 0, [], map[])
  {
    assert segments[0..] == segments && uri[0..] == uri;
    FirstOfNone(Values(segments, uri));
  }

  lemma LiteralMatches(segments: seq<Segment>, uri: string, i: nat, pos: nat, values: seq<string>, params: map<string, string>)
    requires MatchedTo(segments, uri, i, pos, values, params) && i < |segments| && segments[i].Literal?
    ensures if OccursAt(uri, segments[i].value, pos) then
        MatchedTo(segments, uri, i + 1, pos + |segments[i].value|, values, params)
      else Matched(segments, uri) == None
  {
    NamesOn(segments, i);
    LiteralOn(segments, uri, i, pos);
  }

  lemma VariableMatches(segments: seq<Segment>, uri: string, i: nat, pos: nat, values: seq<string>,
      params: map<string, string>, end: nat)
    requires MatchedTo(segments, uri, i, pos, values, params) && i < |segments| && !segments[i].Literal?
    requires pos <= end <= |uri| && ValueEnd(segments[i..], uri[pos..]) == Some(end - pos)
    requires GoodValue(segments[i], uri[pos..end])
    ensures var value := uri[pos..end];
      MatchedTo(segments, uri, i + 1, end, values + [value], params[segments[i].value := value])
  {
    NamesOn(segments, i);
    ValuesOn(segments, uri, i, pos, values, end - pos);
    BindOn(Names(segments[..i]), values, segments[i].value, uri[pos..end]);
  }

  lemma NoneMatches(segments: seq<Segment>, uri: string, i: nat, pos: nat, values: seq<string>, params: map<string, string>)
    requires MatchedTo(segments, uri, i, pos, values, params) && Values(segments[i..], uri[pos..]) == None
    ensures Matched(segments, uri) == None
  {
  }

  /** Behind the last segment. */
  lemma MatchEnds(segments: seq<Segment>, uri: string, pos: nat, values: seq<string>, params: map<string, string>)
    requires MatchedTo(segments, uri, |segments|, pos, values, params)
    ensures Matched(segments, uri) == if pos == |uri| then Some(params) else None
  {
    assert segments[..|segments|] == segments && segments[|segments|..] == [];
    assert values + [] == values;
  }

  /** The end of the value of the variable at `i`, if there is one that may be its value. */
  method MatchVariable(segments: seq<Segment>, uri: string, i: nat, pos: nat) returns (r: Option<nat>)
    requires i < |segments| && !segments[i].Literal? && pos <= |uri|
    ensures r.Some? ==> pos <= r.value <= |uri|
    ensures r.Some? ==> ValueEnd(segments[i..], uri[pos..]) == Some(r.value - pos)
    ensures r.Some? ==> GoodValue(segments[i], uri[pos..r.value])
    ensures r.None? ==> Values(segments[i..], uri[pos..]) == None
  {
    var segment := segments[i];
    var valueEnd := |uri|;
    if i + 1 < |segments| && segments[i + 1].Literal? {
      FindFrom(uri, segments[i + 1].value, pos, pos);
      var found := Find(uri, segments[i + 1].value, pos);
      if found.None? {
        return None;
      }
      valueEnd := found.value;
    }
    var value := uri[pos..valueEnd];
    assert uri[pos..][..valueEnd - pos] == value;
    assert ValueEnd(segments[i..], uri[pos..]) == Some(valueEnd - pos);
    if value == "" {
      return None;
    }
    if segment.Var? && '/' in value {
      return None;
    }
    r := Some(valueEnd);
  }

  /** A literal: where the URI goes on behind it, unless it does not match. */
  method MatchLiteral(segments: seq<Segment>, uri: string, i: nat, pos: nat, ghost params: map<string, string>,
      ghost values: seq<string>) returns (ok: bool, pos': nat)
    requires i < |segments| && segments[i].Literal? && MatchedTo(segments, uri, i, pos, values, params)
    ensures if ok then MatchedTo(segments, uri, i + 1, pos', values, params) else Matched(segments, uri) == None
  {
    LiteralMatches(segments, uri, i, pos, values, params);
    ok := OccursAt(uri, segments[i].value, pos);
    pos' := if ok then pos + |segments[i].value| else pos;
  }

  /** A variable: where the URI goes on, and what is bound by then, unless it does not match. */
  method MatchValue(segments: seq<Segment>, uri: string, i: nat, pos: nat, params: map<string, string>,
      ghost values: seq<string>) returns (ok: bool, pos': nat, params': map<string, string>, ghost values': seq<string>)
    requires i < |segments| && !segments[i].Literal? && MatchedTo(segments, uri, i, pos, values, params)
    ensures if ok then MatchedTo(segments, uri, i + 1, pos', values', params') else Matched(segments, uri) == None
  {
    ok, pos', params', values' := false, pos, params, values;
    var valueEnd := MatchVariable(segments, uri, i, pos);
    if valueEnd.None? {
      NoneMatches(segments, uri, i, pos, values, params);
      return;
    }
    var value := uri[pos..valueEnd.value];
    VariableMatches(segments, uri, i, pos, values, params, valueEnd.value);
    ok, pos', params', values' := true, valueEnd.value, params[segments[i].value := value], values + [value];
  }

  method Match(t: Template, uri: string) returns (r: Option<map<string, string>>)
    requires Compiled(t)
    ensures r == Matched(t.segments, uri)
  {
    if !t.hasVars {
      NoVarsOneLiteral(t, uri);
      return if uri == t.original then Some(map[]) else None;
    }
    var params: map<string, string>, pos: nat, i: nat := map[], 0, 0;
    ghost var values: seq<string> := [];
    MatchBegins(t.segments, uri);
    while i < |t.segments|
      invariant i <= |t.segments| && MatchedTo(t.segments, uri, i, pos, values, params)
    {
      var ok;
      if t.segments[i].Literal? {
        ok, pos := MatchLiteral(t.segments, uri, i, pos, params, values);
      } else {
        ok, pos, params, values := MatchValue(t.segments, uri, i, pos, params, values);
      }
      if !ok {
        return None;
      }
      i := i + 1;
    }
    MatchEnds(t.segments, uri, pos, values, params);
    r := if pos == |uri| then Some(params) else None;
  }

  lemma FirstOfNone(rest: Option<seq<string>>)
    ensures WithFirst([], rest) == rest
  {
    assert rest.Some? ==> [] + rest.value == rest.value;
  }

  // ----- Expanding -----

  /** The URI with the given values in place of the variables. */
  function ExpandValues(segments: seq<Segment>, values: seq<string>): string
    requires |values| == |Names(segments)|
  {
    if segments == [] then ""
    else if segments[0].Literal? then segments[0].value + ExpandValues(segments[1..], values)
    else values[0] + ExpandValues(segments[1..], values[1..])
  }

  function Lookup(names: seq<string>, params: map<string, string>): (values: seq<string>)
    requires forall i :: 0 <= i < |names| ==> names[i] in params
  {
    seq(|names|, i requires 0 <= i < |names| => params[names[i]])
  }

  predicate Bound(segments: seq<Segment>, params: map<string, string>) {
    forall i :: 0 <= i < |Names(segments)| ==> Names(segments)[i] in params
  }

  /** The template expanded from a parameter table. */
  function Expand(segments: seq<Segment>, params: map<string, string>): string
    requires Bound(segments, params)
  {
    ExpandValues(segments, Lookup(Names(segments), params))
  }

  /** `literal` first occurs in `value + literal` right after the value. */
  predicate FirstAfter(value: string, literal: string) {
    forall k: nat :: k < |value| ==> !OccursAt(value + literal, literal, k)
  }

  /** Values that matching can give back: each admissible, and ended by a literal that comes first there, or last. */
  predicate Fitting(segments: seq<Segment>, values: seq<string>)
    requires |values| == |Names(segments)|
  {
    if segments == [] then true
    else if segments[0].Literal? then Fitting(segments[1..], values)
    else
      && GoodValue(segments[0], values[0])
      && (|segments| > 1 ==> segments[1].Literal? && FirstAfter(values[0], segments[1].value))
      && Fitting(segments[1..], values[1..])
  }

  lemma OccursBefore(value: string, literal: string, rest: string, k: nat)
    requires k < |value|
    ensures OccursAt(value + literal + rest, literal, k) <==> OccursAt(value + literal, literal, k)
  {
    assert (value + literal + rest)[k..k + |literal|] == (value + literal)[k..k + |literal|];
  }

  lemma FindAfter(value: string, literal: string, rest: string)
    ensures Find(value + literal + rest, literal, 0) == Some(|value|) <==> FirstAfter(value, literal)
  {
    var text := value + literal + rest;
    assert OccursAt(text, literal, |value|) by {
      assert text[|value|..|value| + |literal|] == literal;
    }
    forall k: nat | k < |value| ensures OccursAt(text, literal, k) <==> OccursAt(value + literal, literal, k) {
      OccursBefore(value, literal, rest, k);
    }
  }

  /** What is matched covers the URI: the values, put back in their places, give it again, and they fit. */
  lemma {:induction false} MatchedExpands(segments: seq<Segment>, uri: string)
    requires WellFormed(segments) && Values(segments, uri).Some?
    ensures ExpandValues(segments, Values(segments, uri).value) == uri
    ensures Fitting(segments, Values(segments, uri).value)
    decreases |segments|
  {
    if segments != [] {
      assert WellFormed(segments[1..]) && GoodSegment(segments[0]);
      if segments[0].Literal? {
        var n := |segments[0].value|;
        MatchedExpands(segments[1..], uri[n..]);
        assert uri == uri[..n] + uri[n..];
      } else {
        VariableExpands(segments, uri);
      }
    }
  }

  /** Two variables in a row never match: the first would take everything. */
  lemma NothingLeft(segments: seq<Segment>, uri: string)
    requires |segments| > 1 && !segments[0].Literal? && !segments[1].Literal?
    ensures Values(segments, uri) == None
  {
    assert ValueEnd(segments, uri) == Some(|uri|) && uri[|uri|..] == "";
    assert Values(segments[1..], "") == None;
  }

  lemma LiteralFollows(segments: seq<Segment>, uri: string)
    requires |segments| > 1 && !segments[0].Literal? && Values(segments, uri).Some?
    ensures segments[1].Literal?
  {
    if !segments[1].Literal? {
      NothingLeft(segments, uri);
    }
  }

  lemma ValueFits(segments: seq<Segment>, uri: string)
    requires |segments| > 1 && !segments[0].Literal? && segments[1].Literal? && ValueEnd(segments, uri).Some?
    ensures FirstAfter(uri[..ValueEnd(segments, uri).value], segments[1].value)
  {
    var end, literal := ValueEnd(segments, uri).value, segments[1].value;
    assert uri[end..end + |literal|] == literal;
    assert uri == uri[..end] + literal + uri[end + |literal|..];
    FindAfter(uri[..end], literal, uri[end + |literal|..]);
  }

  lemma {:induction false} VariableExpands(segments: seq<Segment>, uri: string)
    requires WellFormed(segments) && segments != [] && !segments[0].Literal? && Values(segments, uri).Some?
    ensures ExpandValues(segments, Values(segments, uri).value) == uri
    ensures Fitting(segments, Values(segments, uri).value)
    decreases |segments|, 0
  {
    var end := ValueEnd(segments, uri).value;
    var rest, text := segments[1..], uri[end..];
    MatchedExpands(rest, text);
    assert uri == uri[..end] + text;
    var values, more := Values(segments, uri).value, Values(rest, text).value;
    assert values == [uri[..end]] + more && values[1..] == more;
    assert ExpandValues(segments, values) == uri[..end] + ExpandValues(rest, more);
    if |segments| > 1 {
      LiteralFollows(segments, uri);
      ValueFits(segments, uri);
    }
  }

  /** Matching an expansion gives the values back exactly when they fit. */
  lemma {:induction false} FittingComeBack(segments: seq<Segment>, values: seq<string>)
    requires WellFormed(segments) && |values| == |Names(segments)| && Fitting(segments, values)
    ensures Values(segments, ExpandValues(segments, values)) == Some(values)
    decreases |segments|
  {
    if segments != [] {
      var uri, rest := ExpandValues(segments, values), segments[1..];
      assert WellFormed(rest) && GoodSegment(segments[0]);
      if segments[0].Literal? {
        FittingComeBack(rest, values);
        assert uri[..|segments[0].value|] == segments[0].value;
        assert uri[|segments[0].value|..] == ExpandValues(rest, values);
      } else {
        FittingComeBack(rest, values[1..]);
        var text := ExpandValues(rest, values[1..]);
        ExpandedEnd(segments, values);
        assert uri[..|values[0]|] == values[0] && uri[|values[0]|..] == text;
        assert values == [values[0]] + values[1..];
      }
    }
  }

  lemma ExpandedEnd(segments: seq<Segment>, values: seq<string>)
    requires segments != [] && !segments[0].Literal? && |values| == |Names(segments)| && Fitting(segments, values)
    ensures ValueEnd(segments, ExpandValues(segments, values)) == Some(|values[0]|)
  {
    var rest := segments[1..];
    if rest == [] {
      assert ExpandValues(rest, values[1..]) == "";
    } else {
      var literal, more := rest[0].value, ExpandValues(rest[1..], values[1..]);
      assert ExpandValues(segments, values) == values[0] + literal + more;
      FindAfter(values[0], literal, more);
    }
  }

  lemma ComeBackExactlyWhenFitting(segments: seq<Segment>, values: seq<string>)
    requires WellFormed(segments) && |values| == |Names(segments)|
    ensures Values(segments, ExpandValues(segments, values)) == Some(values) <==> Fitting(segments, values)
  {
    if Fitting(segments, values) {
      FittingComeBack(segments, values);
    }
    if Values(segments, ExpandValues(segments, values)) == Some(values) {
      MatchedExpands(segments, ExpandValues(segments, values));
    }
  }

  // ----- Repeated names -----

  predicate Distinct(names: seq<string>) {
    forall i, j :: 0 <= i < j < |names| ==> names[i] != names[j]
  }

  lemma {:induction false} BindKeys(names: seq<string>, values: seq<string>)
    requires |names| == |values|
    ensures forall i :: 0 <= i < |names| ==> names[i] in Bind(names, values)
    ensures forall name :: name in Bind(names, values) ==> name in names
    decreases |names|
  {
    if names != [] {
      var n := |names| - 1;
      BindKeys(names[..n], values[..n]);
      forall i | 0 <= i < n ensures names[i] in Bind(names, values) {
        assert names[..n][i] == names[i];
      }
      assert names[n] in names;
    }
  }

  /** The table has for every name the value of its last occurrence. */
  lemma {:induction false} BindIsLast(names: seq<string>, values: seq<string>, i: nat)
    requires |names| == |values| && i < |names|
    requires forall j :: i < j < |names| ==> names[j] != names[i]
    ensures names[i] in Bind(names, values) && Bind(names, values)[names[i]] == values[i]
    decreases |names|
  {
    var n := |names| - 1;
    if i < n {
      forall j | i < j < n ensures names[..n][j] != names[..n][i] {
        assert names[..n][j] == names[j] && names[..n][i] == names[i];
      }
      BindIsLast(names[..n], values[..n], i);
      assert names[..n][i] == names[i] && values[..n][i] == values[i];
    }
  }

  lemma DistinctBindBack(names: seq<string>, values: seq<string>)
    requires |names| == |values| && Distinct(names)
    ensures forall i :: 0 <= i < |names| ==> names[i] in Bind(names, values)
    ensures Lookup(names, Bind(names, values)) == values
  {
    forall i: nat | i < |names| ensures names[i] in Bind(names, values) && Bind(names, values)[names[i]] == values[i] {
      BindIsLast(names, values, i);
    }
  }

  /**
   With distinct names a match undoes an expansion: the table has exactly the template's variables,
   its values are non-empty, free of slashes unless reserved, and expanding gives the URI back.
   */
  lemma MatchThenExpand(segments: seq<Segment>, uri: string)
    requires WellFormed(segments) && Distinct(Names(segments)) && Matched(segments, uri).Some?
    ensures var params := Matched(segments, uri).value;
      && Bound(segments, params)
      && (forall name :: name in params ==> name in Names(segments))
      && Expand(segments, params) == uri
      && Fitting(segments, Lookup(Names(segments), params))
  {
    var names, values := Names(segments), Values(segments, uri).value;
    MatchedExpands(segments, uri);
    BindKeys(names, values);
    DistinctBindBack(names, values);
  }

  /** And an expansion undoes a match, for fitting values. */
  lemma ExpandThenMatch(segments: seq<Segment>, params: map<string, string>)
    requires WellFormed(segments) && Distinct(Names(segments)) && Bound(segments, params)
    requires forall name :: name in params ==> name in Names(segments)
    requires Fitting(segments, Lookup(Names(segments), params))
    ensures Matched(segments, Expand(segments, params)) == Some(params)
  {
    FittingComeBack(segments, Lookup(Names(segments), params));
    LookupBindBack(Names(segments), params);
  }

  lemma LookupBindBack(names: seq<string>, params: map<string, string>)
    requires Distinct(names) && forall i :: 0 <= i < |names| ==> names[i] in params
    requires forall name :: name in params ==> name in names
    ensures Bind(names, Lookup(names, params)) == params
  {
    var values := Lookup(names, params);
    var bound := Bind(names, values);
    BindKeys(names, values);
    DistinctBindBack(names, values);
    forall i | 0 <= i < |names| ensures bound[names[i]] == params[names[i]] {
      assert Lookup(names, bound)[i] == values[i];
    }
    assert bound.Keys == params.Keys;
  }

  predicate AdjacentVars(segments: seq<Segment>) {
    exists i :: 0 <= i < |segments| - 1 && !segments[i].Literal? && !segments[i + 1].Literal?
  }

  /** Whether every URI a template matches can be had back from the table of its match. */
  ghost predicate AlwaysExpandsBack(segments: seq<Segment>) {
    forall uri :: Matched(segments, uri).Some? ==>
      Bound(segments, Matched(segments, uri).value) && Expand(segments, Matched(segments, uri).value) == uri
  }

  /** One of three letters that is neither of two characters. */
  function Letter(a: char, b: char): (c: char)
    ensures c != a && c != b && c != '/'
  {
    if 'x' != a && 'x' != b then 'x' else if 'y' != a && 'y' != b then 'y' else 'z'
  }

  /** Fitting values of one letter each, the `k`-th of them not `unlike`. */
  function Sample(segments: seq<Segment>, k: int, unlike: char): (values: seq<string>)
    ensures |values| == |Names(segments)|
    ensures forall i :: 0 <= i < |values| ==> |values[i]| == 1
    ensures 0 <= k < |values| ==> values[k] != [unlike]
  {
    if segments == [] then []
    else if segments[0].Literal? then Sample(segments[1..], k, unlike)
    else
      var next := if |segments| > 1 && segments[1].Literal? && segments[1].value != "" then segments[1].value[0] else '/';
      [[Letter(next, if k == 0 then unlike else '/')]] + Sample(segments[1..], k - 1, unlike)
  }

  lemma {:induction false} SampleFits(segments: seq<Segment>, k: int, unlike: char)
    requires WellFormed(segments) && !AdjacentVars(segments)
    ensures Fitting(segments, Sample(segments, k, unlike))
    decreases |segments|
  {
    if segments != [] {
      var rest := segments[1..];
      assert GoodSegment(segments[0]) && WellFormed(rest);
      assert !AdjacentVars(rest) by {
        forall i | 0 <= i < |rest| - 1 ensures rest[i].Literal? || rest[i + 1].Literal? {
          assert segments[i + 1].Literal? || segments[i + 2].Literal?;
        }
      }
      if segments[0].Literal? {
        SampleFits(rest, k, unlike);
      } else {
        SampleFits(rest, k - 1, unlike);
        if rest != [] {
          assert segments[0 + 1].Literal?;
          assert GoodSegment(segments[1]);
        }
      }
    }
  }

  /** Expansions with values of the same lengths differ if the values do. */
  lemma {:induction false} SameExpansion(segments: seq<Segment>, a: seq<string>, b: seq<string>)
    requires |a| == |b| == |Names(segments)|
    requires forall i :: 0 <= i < |a| ==> |a[i]| == |b[i]|
    requires ExpandValues(segments, a) == ExpandValues(segments, b)
    ensures a == b
    decreases |segments|
  {
    if segments != [] {
      var rest := segments[1..];
      if segments[0].Literal? {
        var n := |segments[0].value|;
        assert ExpandValues(segments, a)[n..] == ExpandValues(rest, a);
        assert ExpandValues(segments, b)[n..] == ExpandValues(rest, b);
        SameExpansion(rest, a, b);
      } else {
        var n := |a[0]|;
        assert ExpandValues(segments, a)[..n] == a[0] && ExpandValues(segments, a)[n..] == ExpandValues(rest, a[1..]);
        assert ExpandValues(segments, b)[..n] == b[0] && ExpandValues(segments, b)[n..] == ExpandValues(rest, b[1..]);
        SameExpansion(rest, a[1..], b[1..]);
        assert a == [a[0]] + a[1..] && b == [b[0]] + b[1..];
      }
    }
  }

  lemma {:induction false} LastOccurrence(names: seq<string>, i: nat, j: nat) returns (last: nat)
    requires i < j < |names| && names[i] == names[j]
    ensures j <= last < |names| && names[last] == names[i] && forall k :: last < k < |names| ==> names[k] != names[last]
    decreases |names| - j
  {
    if k: nat :| j < k < |names| && names[k] == names[i] {
      last := LastOccurrence(names, i, k);
    } else {
      last := j;
    }
  }

  /** A repeated name loses its earlier value: some URI matches but does not come back. */
  lemma RepeatedNameLoses(segments: seq<Segment>, i: nat, j: nat) returns (uri: string)
    requires WellFormed(segments) && !AdjacentVars(segments)
    requires i < j < |Names(segments)| && Names(segments)[i] == Names(segments)[j]
    ensures Matched(segments, uri).Some? && Bound(segments, Matched(segments, uri).value)
    ensures Expand(segments, Matched(segments, uri).value) != uri
  {
    var last := LastOccurrence(Names(segments), i, j);
    var plain := Sample(segments, -1, '/');
    var values := Sample(segments, i, plain[last][0]);
    SampleOnly(segments, i, plain[last][0], last);
    SampleFits(segments, i, plain[last][0]);
    FittingComeBack(segments, values);
    uri := ExpandValues(segments, values);
    LosesEarlier(segments, values, i, last);
  }

  lemma LosesEarlier(segments: seq<Segment>, values: seq<string>, i: nat, last: nat)
    requires |values| == |Names(segments)| && forall k :: 0 <= k < |values| ==> |values[k]| == 1
    requires i < last < |values| && Names(segments)[i] == Names(segments)[last] && values[i] != values[last]
    requires forall k :: last < k < |values| ==> Names(segments)[k] != Names(segments)[last]
    ensures Bound(segments, Bind(Names(segments), values))
    ensures Expand(segments, Bind(Names(segments), values)) != ExpandValues(segments, values)
  {
    var names := Names(segments);
    var params := Bind(names, values);
    BindKeys(names, values);
    BindIsLast(names, values, last);
    BindLetters(names, values);
    var back := Lookup(names, params);
    assert back[i] == values[last];
    if ExpandValues(segments, back) == ExpandValues(segments, values) {
      SameExpansion(segments, back, values);
    }
  }

  lemma {:induction false} BindLetters(names: seq<string>, values: seq<string>)
    requires |names| == |values| && forall k :: 0 <= k < |values| ==> |values[k]| == 1
    ensures forall name :: name in Bind(names, values) ==> |Bind(names, values)[name]| == 1
    decreases |names|
  {
    if names != [] {
      BindLetters(names[..|names| - 1], values[..|names| - 1]);
    }
  }

  /** The exception made for the `k`-th value leaves the others as they are. */
  lemma {:induction false} SampleOnly(segments: seq<Segment>, k: int, unlike: char, i: nat)
    requires i < |Names(segments)| && i != k
    ensures Sample(segments, k, unlike)[i] == Sample(segments, -1, '/')[i]
    decreases |segments|
  {
    if segments[0].Literal? {
      SampleOnly(segments[1..], k, unlike, i);
    } else if i > 0 {
      SampleOnly(segments[1..], k - 1, unlike, i - 1);
      SampleOnly(segments[1..], -2, '/', i - 1);
    }
  }

  /**
   When a match can be undone: for all URIs exactly if no variable name is repeated - or if two
   variables stand side by side, for then nothing matches at all.
   */
  lemma ExpandsBackExactlyWhenDistinct(segments: seq<Segment>)
    requires WellFormed(segments)
    ensures AlwaysExpandsBack(segments) <==> Distinct(Names(segments)) || AdjacentVars(segments)
  {
    if Distinct(Names(segments)) {
      forall uri | Matched(segments, uri).Some?
        ensures Bound(segments, Matched(segments, uri).value) && Expand(segments, Matched(segments, uri).value) == uri
      {
        MatchThenExpand(segments, uri);
      }
    } else if AdjacentVars(segments) {
      forall uri ensures Matched(segments, uri).None? {
        AdjacentNeverMatch(segments, uri);
      }
    } else {
      var i: nat, j: nat :| i < j < |Names(segments)| && Names(segments)[i] == Names(segments)[j];
      var uri := RepeatedNameLoses(segments, i, j);
    }
  }

  lemma {:induction false} AdjacentNeverMatch(segments: seq<Segment>, uri: string)
    requires AdjacentVars(segments)
    ensures Values(segments, uri).None?
    decreases |segments|
  {
    var i :| 0 <= i < |segments| - 1 && !segments[i].Literal? && !segments[i + 1].Literal?;
    var rest := segments[1..];
    if i == 0 {
      NothingLeft(segments, uri);
    } else {
      assert !rest[i - 1].Literal? && !rest[i - 1 + 1].Literal?;
      forall text ensures Values(rest, text).None? {
        AdjacentNeverMatch(rest, text);
      }
    }
  }
}
