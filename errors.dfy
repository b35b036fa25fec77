/**
 * The error taxonomy of src/utils.ts:1-13, plus the errors the runtime raises
 * (a URL that does not parse, an aborted transport call, a failed process).
 */
module Errors {
  import opened Wrappers
  import opened JsText

  datatype Error =
    /** `new HttpRequestError(statusCode, message)`: the transport answered, but not ok. */
    | HttpRequestError(statusCode: int, statusText: string)
    /** `new InvalidArgumentError(argumentName, message)`: a caller passed a bad argument. */
    | InvalidArgumentError(argumentName: string, detail: string)
    /** An error raised by the platform: a `TypeError`, an `AbortError`, a process failure. */
    | PlatformError(name: string, message: string)

  /** The error's `name` property. */
  function Name(e: Error): string {
    match e
    case HttpRequestError(_, _) => "[HttpRequestError]"
    case InvalidArgumentError(_, _) => "[InvalidArgumentError]"
    case PlatformError(name, _) => name
  }

  /** The error's `message` property, as the two constructors format it. */
  function Message(e: Error): string {
    match e
    case HttpRequestError(code, text) => "Http Error " + IntToString(code) + ": " + text
    case InvalidArgumentError(name, detail) => "Argument " + name + ": " + detail
    case PlatformError(_, message) => message
  }

  /** The transport gave up because its abort signal fired. */
  predicate IsAbort(e: Error) {
    Name(e) == "AbortError"
  }

  const RequestTimeout: Error := HttpRequestError(408, "Request Timeout")
  const HeadersNotObject: Error := InvalidArgumentError("headers", "headers must be an object")
  const UrlNotUrl: Error := InvalidArgumentError("url", "url must be a string or URL object")
  /** What `new URL(s)` and `new Request(s)` throw for text that is not an absolute URL. */
  const InvalidUrl: Error := PlatformError("TypeError", "Invalid URL")
  /** What the native `Headers` and `Request` constructors throw for an init that is not header-shaped. */
  const NotHeadersInit: Error := PlatformError("TypeError", "not a header list or record")

  /**
   * An `HttpRequestError` message starts with "Http Error " and the status code can be read
   * back from it with `parseInt`.
   */
  lemma HttpErrorMessageCarriesCode(code: int, text: string)
    ensures |Message(HttpRequestError(code, text))| > 11
    ensures Message(HttpRequestError(code, text))[..11] == "Http Error "
    ensures ParseInt(Message(HttpRequestError(code, text))[11..]) == Some(code)
  {
    var m := Message(HttpRequestError(code, text));
    assert m == "Http Error " + (IntToString(code) + (": " + text));
    assert m[11..] == IntToString(code) + (": " + text);
    ParseIntRoundTrip(code, ": " + text);
  }

  /** Two `HttpRequestError`s with the same message have the same code and status text. */
  lemma HttpErrorMessageInjective(c1: int, t1: string, c2: int, t2: string)
    requires Message(HttpRequestError(c1, t1)) == Message(HttpRequestError(c2, t2))
    ensures c1 == c2 && t1 == t2
  {
    HttpErrorMessageCarriesCode(c1, t1);
    HttpErrorMessageCarriesCode(c2, t2);
    var s := IntToString(c1);
    assert Message(HttpRequestError(c1, t1)) == "Http Error " + s + ": " + t1;
    assert Message(HttpRequestError(c2, t2)) == "Http Error " + s + ": " + t2;
    assert t1 == Message(HttpRequestError(c1, t1))[11 + |s| + 2..];
    assert t2 == Message(HttpRequestError(c2, t2))[11 + |s| + 2..];
  }

  /**
   * The argument name is the first ": "-separated field after "Argument ", whenever the
   * name itself holds no colon.
   */
  lemma InvalidArgumentMessageCarriesName(name: string, detail: string)
    requires ':' !in name
    ensures |Message(InvalidArgumentError(name, detail))| >= 9
    ensures Message(InvalidArgumentError(name, detail))[..9] == "Argument "
    ensures Split(Message(InvalidArgumentError(name, detail))[9..], ": ")[0] == name
  {
    var m := Message(InvalidArgumentError(name, detail));
    assert m == "Argument " + (name + ": " + detail);
    assert m[9..] == name + ": " + detail;
    forall k ensures !OccursAt(name, ": ", k) {
      if 0 <= k && k + 2 <= |name| {
        assert name[k] != ':';
        assert name[k..k + 2][0] == name[k];
      }
    }
    assert NoStraddle(name, ": ") by {
      forall m' | 0 < m' < 2 && m' <= |name|
        ensures name[|name| - m'..] != ": "[..m'] || ": "[m'..] != ": "[..2 - m']
      {
        assert name[|name| - 1..][0] == name[|name| - 1] != ':';
      }
    }
    SplitFirstPiece(name, ": ", detail);
  }
}
