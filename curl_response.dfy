/**
 * `convertStdoutToResponse` and `transformHeaders` of src/utils.ts:43-76: read the
 * output of `curl -i` (an HTTP/1.1 message: status line, field lines, an empty line,
 * the body) back into the parts of a `Response`, by splitting on "\r\n\r\n", "\r\n",
 * " " and ": " and picking pieces by position. A missing piece is `undefined` (`None`);
 * nothing is ever rejected.
 */
module CurlResponse {
  import opened Wrappers
  import opened JsText
  import opened RequestModel
  import opened HeaderBuilder

  const HeaderEnd := "\r\n\r\n"
  const LineEnd := "\r\n"
  const FieldSeparator := ": "

  /** `parts[i]` in array destructuring: `None` (`undefined`) past the end. */
  function At(parts: seq<string>, i: nat): (r: Option<string>)
    ensures r.Some? <==> i < |parts|
    ensures r.Some? ==> r.value == parts[i]
  {
    if i < |parts| then Some(parts[i]) else None
  }

  /** `String(x)` of a string or `undefined`. */
  function Stringified(o: Option<string>): string {
    match o
    case None => "undefined"
    case Some(s) => s
  }

  /** One `[key, value]` pair of `transformHeaders`; `value` is `None` when it is `undefined`. */
  datatype HeaderPair = HeaderPair(key: string, value: Option<string>)

  /** `const [key, value] = header.split(': ')`. */
  function LinePair(line: string): HeaderPair {
    var parts := Split(line, FieldSeparator);
    HeaderPair(parts[0], At(parts, 1))
  }

  /** `transformHeaders(headers)`: one pair per line, in order. */
  method TransformHeaders(lines: seq<string>) returns (pairs: seq<HeaderPair>)
    ensures |pairs| == |lines|
    ensures forall i :: 0 <= i < |lines| ==> pairs[i] == LinePair(lines[i])
  {
    pairs := [];
    for i := 0 to |lines|
      invariant |pairs| == i
      invariant forall j :: 0 <= j < i ==> pairs[j] == LinePair(lines[j])
    {
      var parts := Split(lines[i], ": ");
      var key, value := parts[0], At(parts, 1);
      pairs := pairs + [HeaderPair(key, value)];
    }
  }

  /**
   * `parseInt(statusCode) > 101 ? parseInt(statusCode) : 200`, where `statusCode` may be
   * `undefined`: the number read from the token when it exceeds 101, and 200 otherwise
   * (NaN included).
   */
  function StatusFrom(token: Option<string>): (status: int)
    ensures status > 101
    ensures status == 200 || ParseInt(Stringified(token)) == Some(status)
    ensures ParseInt(Stringified(token)).Some? && ParseInt(Stringified(token)).value > 101
            ==> status == ParseInt(Stringified(token)).value
    ensures ParseInt(Stringified(token)).None? ==> status == 200
  {
    var n := ParseInt(Stringified(token));
    if n.Some? && n.value > 101 then n.value else 200
  }

  /** What `convertStdoutToResponse` passes to `new Response(body, init)`. */
  datatype ResponseParts = ResponseParts(
    status: int,
    statusText: Option<string>,
    headers: seq<HeaderPair>,
    body: Option<string>)

  function HeaderPairs(lines: seq<string>): (pairs: seq<HeaderPair>)
    ensures |pairs| == |lines|
  {
    seq(|lines|, i requires 0 <= i < |lines| => LinePair(lines[i]))
  }

  /**
   * The body is the second "\r\n\r\n"-piece, the status line the first "\r\n"-line of
   * the first piece, the other lines are header lines, the status code is the second
   * space-separated token of the status line and the status text the third.
   */
  function Convert(stdout: string): ResponseParts {
    var blocks := Split(stdout, HeaderEnd);
    var lines := Split(blocks[0], LineEnd);
    var tokens := Split(lines[0], " ");
    ResponseParts(StatusFrom(At(tokens, 1)), At(tokens, 2), HeaderPairs(lines[1..]), At(blocks, 1))
  }

  /**
   * The `Response` built from the parts, when its constructor accepts them: an absent
   * status text is "", an `undefined` header value is the text "undefined", names are
   * lower-cased.
   */
  function ToResponse(p: ResponseParts): NativeResponse {
    var fields := seq(|p.headers|, i requires 0 <= i < |p.headers| => (p.headers[i].key, Stringified(p.headers[i].value)));
    NativeResponse(p.status, if p.statusText.Some? then p.statusText.value else "", Normalized(fields), p.body)
  }

  /** `convertStdoutToResponse(stdout)`. */
  method ConvertStdoutToResponse(stdout: string) returns (r: NativeResponse)
    ensures r == ToResponse(Convert(stdout))
  {
    var blocks := Split(stdout, "\r\n\r\n");
    var headers, body := blocks[0], At(blocks, 1);
    var lines := Split(headers, "\r\n");
    var statusLine, headerLines := lines[0], lines[1..];
    var tokens := Split(statusLine, " ");
    var statusCode, statusText := At(tokens, 1), At(tokens, 2);
    var responseHeaders := TransformHeaders(headerLines);
    assert responseHeaders == HeaderPairs(headerLines);
    var parsed := ParseInt(Stringified(statusCode));
    var status := if parsed.Some? && parsed.value > 101 then parsed.value else 200;
    r := ToResponse(ResponseParts(status, statusText, responseHeaders, body));
  }

  // ---------------------------------------------------------------------------
  // Where the body comes from

  /** With no "\r\n\r\n" the body is absent and the whole text is the header block; no error. */
  lemma BodyAbsent(s: string)
    requires !Contains(s, HeaderEnd)
    ensures Convert(s).body == None
    ensures Convert(s).headers == HeaderPairs(Split(s, LineEnd)[1..])
  {
    SplitWithout(s, HeaderEnd);
  }

  /** The body never changes the status, status text or headers: they come from the text before the first "\r\n\r\n". */
  lemma HeadIndependentOfBody(s: string, i: int)
    requires FirstAt(s, HeaderEnd, i)
    ensures Convert(s).status == Convert(s[..i]).status
    ensures Convert(s).statusText == Convert(s[..i]).statusText
    ensures Convert(s).headers == Convert(s[..i]).headers
  {
    SplitAtFirst(s, HeaderEnd, i);
    PrefixBeforeFirst(s, HeaderEnd, i);
    SplitWithout(s[..i], HeaderEnd);
  }

  /** With exactly one "\r\n\r\n" the body is everything after it. */
  lemma BodyToEnd(s: string, i: int)
    requires FirstAt(s, HeaderEnd, i) && !Contains(s[i + 4..], HeaderEnd)
    ensures Convert(s).body == Some(s[i + 4..])
  {
    SplitAtFirst(s, HeaderEnd, i);
    SplitWithout(s[i + 4..], HeaderEnd);
  }

  /**
   * With a second "\r\n\r\n" the body stops there: `split` cuts at every occurrence, so
   * whatever follows the second one (a body after redirect headers, say) is dropped.
   */
  lemma BodyBetween(s: string, i: int, j: int)
    requires FirstAt(s, HeaderEnd, i) && FirstAt(s[i + 4..], HeaderEnd, j)
    ensures Convert(s).body == Some(s[i + 4..i + 4 + j])
  {
    SplitAtFirst(s, HeaderEnd, i);
    SplitAtFirst(s[i + 4..], HeaderEnd, j);
    assert s[i + 4..][..j] == s[i + 4..i + 4 + j];
  }

  // ---------------------------------------------------------------------------
  // Header lines

  lemma FieldSeparatorBorderFree()
    ensures BorderFree(FieldSeparator)
  {
    forall m | 0 < m < 2 ensures FieldSeparator[m..] != FieldSeparator[..2 - m] {
      assert FieldSeparator[m..][0] != FieldSeparator[..2 - m][0];
    }
  }

  /** A line without ": " gives the whole line as key and an `undefined` value. */
  lemma LineWithoutSeparator(line: string)
    requires !Contains(line, FieldSeparator)
    ensures LinePair(line) == HeaderPair(line, None)
  {
    SplitWithout(line, FieldSeparator);
  }

  /** "key: value" gives (key, value) when neither part holds ": ". */
  lemma LineKeyValue(key: string, value: string)
    requires !Contains(key, FieldSeparator) && !Contains(value, FieldSeparator)
    ensures LinePair(key + ": " + value) == HeaderPair(key, Some(value))
  {
    FieldSeparatorBorderFree();
    BorderFreeNoStraddle(key, FieldSeparator);
    SplitFirstPiece(key, FieldSeparator, value);
    SplitWithout(value, FieldSeparator);
  }

  /** A value that itself holds ": " is cut at it: only the text up to the second ": " is kept. */
  lemma LineTruncated(key: string, value: string, rest: string)
    requires !Contains(key, FieldSeparator) && !Contains(value, FieldSeparator)
    ensures LinePair(key + ": " + value + ": " + rest) == HeaderPair(key, Some(value))
  {
    FieldSeparatorBorderFree();
    BorderFreeNoStraddle(key, FieldSeparator);
    BorderFreeNoStraddle(value, FieldSeparator);
    assert key + ": " + value + ": " + rest == key + FieldSeparator + (value + FieldSeparator + rest);
    SplitFirstPiece(key, FieldSeparator, value + FieldSeparator + rest);
    SplitFirstPiece(value, FieldSeparator, rest);
  }

  // ---------------------------------------------------------------------------
  // Reading back a well-formed message

  /** No carriage return and no line feed. */
  predicate OneLine(s: string) {
    '\r' !in s && '\n' !in s
  }

  /** The status line `curl -i` prints: version, code and the words of the reason phrase, space-separated. */
  function StatusLine(version: string, code: int, reason: seq<string>): string {
    Join([version, IntToString(code)] + reason, " ")
  }

  function FieldLine(field: (string, string)): string {
    field.0 + ": " + field.1
  }

  function FieldLines(fields: seq<(string, string)>): seq<string> {
    seq(|fields|, i requires 0 <= i < |fields| => FieldLine(fields[i]))
  }

  /** The message `curl -i` prints for one response: status line, field lines, empty line, body. */
  function Render(version: string, code: int, reason: seq<string>, fields: seq<(string, string)>, body: string): string {
    Join([StatusLine(version, code, reason)] + FieldLines(fields), LineEnd) + HeaderEnd + body
  }

  /** What a well-formed message may hold: tokens without spaces, fields without ": ", no line breaks. */
  ghost predicate Printable(version: string, code: int, reason: seq<string>, fields: seq<(string, string)>, body: string) {
    && code >= 0 && ' ' !in version && OneLine(version)
    && (forall i :: 0 <= i < |reason| ==> ' ' !in reason[i] && OneLine(reason[i]))
    && (forall i :: 0 <= i < |fields| ==>
          !Contains(fields[i].0, FieldSeparator) && !Contains(fields[i].1, FieldSeparator)
          && OneLine(fields[i].0) && OneLine(fields[i].1))
    && !Contains(body, HeaderEnd)
  }

  /** Lines that are non-empty and hold no line break never join into an empty line. */
  lemma {:induction false} NoEmptyLine(lines: seq<string>)
    requires |lines| >= 1
    requires forall i :: 0 <= i < |lines| ==> |lines[i]| > 0 && OneLine(lines[i])
    ensures var j := Join(lines, LineEnd);
      !Contains(j, HeaderEnd) && |j| > 0 && j[|j| - 1] != '\n'
  {
    var j := Join(lines, LineEnd);
    if |lines| == 1 {
      NotContainsFirstChar(lines[0], HeaderEnd);
      assert j[|j| - 1] in lines[0];
    } else {
      var l0, rest := lines[0], Join(lines[1..], LineEnd);
      NoEmptyLine(lines[1..]);
      assert j == l0 + LineEnd + rest;
      assert rest[0] == lines[1][0] by {
        if |lines[1..]| == 1 {
        } else {
          assert rest == lines[1] + LineEnd + Join(lines[2..], LineEnd);
        }
      }
      assert rest[0] in lines[1];
      forall k ensures !OccursAt(j, HeaderEnd, k) {
        if 0 <= k && k + 4 <= |j| {
          var w := j[k..k + 4];
          if k < |l0| {
            assert w[0] == l0[k];
            assert l0[k] in l0;
          } else if k == |l0| {
            assert w[2] == rest[0];
          } else if k == |l0| + 1 {
            assert w[0] == '\n';
          } else {
            assert w == rest[k - |l0| - 2..k - |l0| + 2];
            assert !OccursAt(rest, HeaderEnd, k - |l0| - 2);
          }
        }
      }
      assert j[|j| - 1] == rest[|rest| - 1];
    }
  }

  /** The header block before "\r\n\r\n" cannot end in a way that moves the first "\r\n\r\n" earlier. */
  lemma BlockBoundary(block: string, body: string)
    requires |block| > 0 && !Contains(block, HeaderEnd) && block[|block| - 1] != '\n'
    requires !Contains(body, HeaderEnd)
    ensures Split(block + HeaderEnd + body, HeaderEnd) == [block, body]
  {
    forall m | 0 < m < 4 && m <= |block|
      ensures block[|block| - m..] != HeaderEnd[..m] || HeaderEnd[m..] != HeaderEnd[..4 - m]
    {
      if m == 2 {
        assert block[|block| - m..][1] == block[|block| - 1];
      } else {
        assert HeaderEnd[m..][0] != HeaderEnd[..4 - m][0];
      }
    }
    SplitFirstPiece(block, HeaderEnd, body);
    SplitWithout(body, HeaderEnd);
  }

  /** The status line splits back into its tokens. */
  lemma StatusTokens(version: string, code: int, reason: seq<string>)
    requires code >= 0 && ' ' !in version && OneLine(version)
    requires forall i :: 0 <= i < |reason| ==> ' ' !in reason[i] && OneLine(reason[i])
    ensures Split(StatusLine(version, code, reason), " ") == [version, IntToString(code)] + reason
    ensures OneLine(StatusLine(version, code, reason)) && |StatusLine(version, code, reason)| > 0
  {
    var parts := [version, IntToString(code)] + reason;
    var digits := IntToString(code);
    assert forall i :: 0 <= i < |digits| ==> IsDecDigit(digits[i]);
    assert ' ' !in digits && OneLine(digits);
    forall i | 0 <= i < |parts| ensures !Contains(parts[i], " ") && '\r' !in parts[i] && '\n' !in parts[i] {
      ContainsChar(parts[i], ' ');
      if i >= 2 {
        assert parts[i] == reason[i - 2];
      }
    }
    SingleCharBorderFree(' ');
    SplitJoin(parts, " ");
    JoinChars(parts, " ", '\r');
    JoinChars(parts, " ", '\n');
    assert parts[1..] == [digits] + reason;
    assert |Join(parts, " ")| >= |version| + 1 + |Join(parts[1..], " ")|;
  }

  /** A field line splits back into its key and value. */
  lemma FieldLineParts(field: (string, string))
    requires !Contains(field.0, FieldSeparator) && !Contains(field.1, FieldSeparator)
    requires OneLine(field.0) && OneLine(field.1)
    ensures LinePair(FieldLine(field)) == HeaderPair(field.0, Some(field.1))
    ensures OneLine(FieldLine(field)) && |FieldLine(field)| > 0
  {
    LineKeyValue(field.0, field.1);
  }

  /** The field lines read back as the fields. */
  lemma FieldLinesRead(fields: seq<(string, string)>)
    requires forall i :: 0 <= i < |fields| ==>
      !Contains(fields[i].0, FieldSeparator) && !Contains(fields[i].1, FieldSeparator)
      && OneLine(fields[i].0) && OneLine(fields[i].1)
    ensures HeaderPairs(FieldLines(fields))
         == seq(|fields|, i requires 0 <= i < |fields| => HeaderPair(fields[i].0, Some(fields[i].1)))
    ensures forall i :: 0 <= i < |fields| ==> |FieldLines(fields)[i]| > 0 && OneLine(FieldLines(fields)[i])
  {
    forall i | 0 <= i < |fields|
      ensures LinePair(FieldLines(fields)[i]) == HeaderPair(fields[i].0, Some(fields[i].1))
      ensures OneLine(FieldLines(fields)[i]) && |FieldLines(fields)[i]| > 0
    {
      FieldLineParts(fields[i]);
    }
  }

  /** The message splits into its header block and body, and the block into its lines. */
  lemma RenderSplits(version: string, code: int, reason: seq<string>, fields: seq<(string, string)>, body: string)
    requires Printable(version, code, reason, fields, body)
    ensures var lines := [StatusLine(version, code, reason)] + FieldLines(fields);
      Split(Render(version, code, reason, fields, body), HeaderEnd) == [Join(lines, LineEnd), body]
      && Split(Join(lines, LineEnd), LineEnd) == lines
  {
    var lines := [StatusLine(version, code, reason)] + FieldLines(fields);
    StatusTokens(version, code, reason);
    FieldLinesRead(fields);
    forall i | 0 <= i < |lines| ensures |lines[i]| > 0 && OneLine(lines[i]) && !Contains(lines[i], LineEnd) {
      if i > 0 {
        assert lines[i] == FieldLines(fields)[i - 1];
      }
      NotContainsFirstChar(lines[i], LineEnd);
    }
    NoEmptyLine(lines);
    BlockBoundary(Join(lines, LineEnd), body);
    assert BorderFree(LineEnd) by {
      assert LineEnd[1..][0] != LineEnd[..1][0];
    }
    SplitJoin(lines, LineEnd);
  }

  /**
   * Reading a well-formed `curl -i` message gives back exactly what it was printed from:
   * the code (when above 101), the first word of the reason phrase, every field in
   * order, and the body.
   */
  lemma ConvertRender(version: string, code: int, reason: seq<string>, fields: seq<(string, string)>, body: string)
    requires code > 101 && Printable(version, code, reason, fields, body)
    ensures Convert(Render(version, code, reason, fields, body))
         == ResponseParts(code, At(reason, 0),
                          seq(|fields|, i requires 0 <= i < |fields| => HeaderPair(fields[i].0, Some(fields[i].1))),
                          Some(body))
  {
    var lines := [StatusLine(version, code, reason)] + FieldLines(fields);
    RenderSplits(version, code, reason, fields, body);
    StatusTokens(version, code, reason);
    FieldLinesRead(fields);
    assert lines[1..] == FieldLines(fields);
    var tokens := [version, IntToString(code)] + reason;
    ParseIntRoundTrip(code, "");
    assert IntToString(code) + "" == IntToString(code);
    assert StatusFrom(At(tokens, 1)) == code;
    assert At(tokens, 2) == At(reason, 0);
  }

  /**
   * The response built from a well-formed reply: its status, its first reason word as the
   * status text, its header fields (normalised as a `Headers` object normalises them) and
   * its body.
   */
  lemma ReplyRoundTrip(version: string, code: int, reason: seq<string>, fields: seq<(string, string)>, body: string)
    requires code > 101 && Printable(version, code, reason, fields, body)
    ensures ToResponse(Convert(Render(version, code, reason, fields, body)))
         == NativeResponse(code, if reason == [] then "" else reason[0], Normalized(fields), Some(body))
  {
    ConvertRender(version, code, reason, fields, body);
    var parts := Convert(Render(version, code, reason, fields, body));
    assert At(reason, 0) == (if reason == [] then None else Some(reason[0]));
    var pairs := seq(|parts.headers|, i requires 0 <= i < |parts.headers| => (parts.headers[i].key, Stringified(parts.headers[i].value)));
    assert pairs == fields;
  }

  /** "HTTP/1.1 404 Not Found": the status is 404 and the status text only "Not". */
  lemma ReasonPhraseCut(body: string)
    requires !Contains(body, HeaderEnd)
    ensures Printable("HTTP/1.1", 404, ["Not", "Found"], [], body)
    ensures Convert(Render("HTTP/1.1", 404, ["Not", "Found"], [], body)).status == 404
    ensures Convert(Render("HTTP/1.1", 404, ["Not", "Found"], [], body)).statusText == Some("Not")
  {
    ConvertRender("HTTP/1.1", 404, ["Not", "Found"], [], body);
  }
}
