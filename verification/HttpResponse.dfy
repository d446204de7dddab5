/** An HTTP response and its printed form. */
module HttpResponse {
  import opened Decimals
  import opened HttpClientParser

  /** The headers come in the order of their map, which ignores case: no two names differ in case only. */
  datatype Response = Response(
    version: nat,
    status: nat,
    reason: string,
    close: bool,
    websocket: bool,
    headers: seq<(string, string)>,
    cookies: seq<string>,
    body: string)

  const CRLF := "\r\n"

  function VersionText(version: nat): string {
    "HTTP/" + Decimal(version / 16) + "." + Decimal(version % 16)
  }

  /** The reason shown: that of the response, or the standard text for its status. */
  function ReasonShown(r: Response, standard: string): string {
    if r.reason == "" then standard else r.reason
  }

  function StatusLine(r: Response, standard: string): string {
    VersionText(r.version) + " " + Decimal(r.status) + " " + ReasonShown(r, standard) + CRLF
  }

  function HeaderLine(name: string, value: string): string {
    name + ": " + value + CRLF
  }

  /** The fields printed, in order: those of the response but for `connection`, then the printer's own. */
  function HeadersShown(websocket: bool, headers: seq<(string, string)>): seq<(string, string)> {
    if headers == [] then []
    else
      var first := if !websocket && LowerAll(headers[0].0) == CONNECTION then [] else [headers[0]];
      first + HeadersShown(websocket, headers[1..])
  }

  function CookieFields(cookies: seq<string>): seq<(string, string)> {
    if cookies == [] then [] else [("Set-Cookie", cookies[0])] + CookieFields(cookies[1..])
  }

  function ConnectionFields(r: Response): seq<(string, string)> {
    if r.websocket then [] else [(CONNECTION, if r.close then "close" else "keep-alive")]
  }

  function LengthFields(r: Response): seq<(string, string)> {
    if r.body == "" then [] else [(CONTENT_LENGTH, Decimal(|r.body|))]
  }

  function FieldsShown(r: Response): seq<(string, string)> {
    HeadersShown(r.websocket, r.headers) + CookieFields(r.cookies) + ConnectionFields(r) + LengthFields(r)
  }

  function Lines(fields: seq<(string, string)>): string {
    if fields == [] then "" else HeaderLine(fields[0].0, fields[0].1) + Lines(fields[1..])
  }

  function Print(r: Response, standard: string): string {
    StatusLine(r, standard) + Lines(FieldsShown(r)) + CRLF + r.body
  }

  lemma {:induction false} LinesConcat(a: seq<(string, string)>, b: seq<(string, string)>)
    ensures Lines(a + b) == Lines(a) + Lines(b)
    decreases |a|
  {
    if a == [] {
      assert a + b == b;
    } else {
      var whole, rest := a + b, a[1..];
      assert whole[0] == a[0] && whole[1..] == rest + b;
      LinesConcat(rest, b);
      Assoc(HeaderLine(a[0].0, a[0].1), Lines(rest), Lines(b));
    }
  }

  lemma Assoc(a: string, b: string, c: string)
    ensures a + b + c == a + (b + c)
  {
  }

  /** The lines of one more field. */
  lemma LinesOn(fields: seq<(string, string)>, name: string, value: string)
    ensures Lines(fields + [(name, value)]) == Lines(fields) + HeaderLine(name, value)
  {
    LinesConcat(fields, [(name, value)]);
    assert Lines([(name, value)]) == HeaderLine(name, value) + Lines([]);
  }

  lemma ShownOn(websocket: bool, headers: seq<(string, string)>, i: nat, shown: seq<(string, string)>)
    requires i < |headers|
    ensures var one := if !websocket && LowerAll(headers[i].0) == CONNECTION then [] else [headers[i]];
      shown + HeadersShown(websocket, headers[i..]) == shown + one + HeadersShown(websocket, headers[i + 1..])
  {
    assert headers[i..][1..] == headers[i + 1..];
  }

  method DumpHeaders(r: Response) returns (os: string)
    ensures os == Lines(HeadersShown(r.websocket, r.headers))
  {
    os := "";
    ghost var shown: seq<(string, string)> := [];
    var i := 0;
    assert r.headers[0..] == r.headers;
    while i < |r.headers|
      invariant i <= |r.headers| && os == Lines(shown)
      invariant shown + HeadersShown(r.websocket, r.headers[i..]) == HeadersShown(r.websocket, r.headers)
    {
      var (name, value) := r.headers[i];
      ShownOn(r.websocket, r.headers, i, shown);
      i := i + 1;
      if !r.websocket && LowerAll(name) == CONNECTION {
        assert shown + [] == shown;
        continue;
      }
      LinesOn(shown, name, value);
      os := os + HeaderLine(name, value);
      shown := shown + [(name, value)];
    }
    assert shown + [] == shown;
  }

  method DumpCookies(cookies: seq<string>) returns (os: string)
    ensures os == Lines(CookieFields(cookies))
  {
    os := "";
    ghost var shown: seq<(string, string)> := [];
    var i := 0;
    assert cookies[0..] == cookies;
    while i < |cookies|
      invariant i <= |cookies| && os == Lines(shown)
      invariant shown + CookieFields(cookies[i..]) == CookieFields(cookies)
    {
      assert cookies[i..][1..] == cookies[i + 1..];
      LinesOn(shown, "Set-Cookie", cookies[i]);
      os := os + HeaderLine("Set-Cookie", cookies[i]);
      ghost var more := CookieFields(cookies[i + 1..]);
      assert shown + ([("Set-Cookie", cookies[i])] + more) == shown + [("Set-Cookie", cookies[i])] + more;
      shown := shown + [("Set-Cookie", cookies[i])];
      i := i + 1;
    }
    assert shown + [] == shown;
  }

  lemma LinesShown(r: Response)
    ensures Lines(FieldsShown(r)) == Lines(HeadersShown(r.websocket, r.headers)) + Lines(CookieFields(r.cookies))
      + Lines(ConnectionFields(r)) + Lines(LengthFields(r))
  {
    var shown := HeadersShown(r.websocket, r.headers);
    LinesConcat(shown, CookieFields(r.cookies));
    LinesConcat(shown + CookieFields(r.cookies), ConnectionFields(r));
    LinesConcat(shown + CookieFields(r.cookies) + ConnectionFields(r), LengthFields(r));
  }

  lemma OneLine(name: string, value: string)
    ensures Lines([(name, value)]) == HeaderLine(name, value)
  {
    assert [(name, value)][1..] == [];
    assert HeaderLine(name, value) + "" == HeaderLine(name, value);
  }

  method DumpOwn(r: Response) returns (os: string)
    ensures os == Lines(ConnectionFields(r)) + Lines(LengthFields(r))
  {
    os := "";
    if !r.websocket {
      OneLine(CONNECTION, if r.close then "close" else "keep-alive");
      os := HeaderLine(CONNECTION, if r.close then "close" else "keep-alive");
    }
    if r.body != "" {
      OneLine(CONTENT_LENGTH, Decimal(|r.body|));
      os := os + HeaderLine(CONTENT_LENGTH, Decimal(|r.body|));
    }
  }

  /** `dump`. */
  method Dump(r: Response, standard: string) returns (os: string)
    ensures os == Print(r, standard)
  {
    os := StatusLine(r, standard);
    var headers := DumpHeaders(r);
    var cookies := DumpCookies(r.cookies);
    var own := DumpOwn(r);
    LinesShown(r);
    Assoc(headers + cookies, Lines(ConnectionFields(r)), Lines(LengthFields(r)));
    os := os + (headers + cookies + own) + CRLF + r.body;
  }
}
