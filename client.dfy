/**
 * The public entry of src/index.ts: `fetch` (lines 164-181) hands a request either to the
 * `curl` engine (`fetchWithCUrl`, lines 185-200) or to `send_request`, after passing it
 * through the request interceptors (`handleInterceptors`, lines 142-159).
 *
 * The process runner is a parameter: `exec(command)` is the error the command failed
 * with, if any, and its standard output.
 */
module Client {
  import opened Wrappers
  import opened JsText
  import opened Errors
  import opened RequestModel
  import opened HeaderBuilder
  import opened Sending
  import CurlCommand
  import CurlResponse

  /** A request interceptor, or an array of them. Interceptors that throw are not modelled. */
  datatype Interceptors = Single(f: Request -> Request) | Chain(fs: seq<Request -> Request>)

  /** The interceptors of an array, applied from the first to the last. */
  function Through(fs: seq<Request -> Request>, r: Request): Request {
    if fs == [] then r else fs[|fs| - 1](Through(fs[..|fs| - 1], r))
  }

  function Intercepted(r: Request, interceptors: Interceptors): Request {
    match interceptors
    case Single(f) => f(r)
    case Chain(fs) => Through(fs, r)
  }

  /** `handleInterceptors(request, interceptors)`. */
  method HandleInterceptors(request: Request, interceptors: Interceptors) returns (r: Request)
    ensures r == Intercepted(request, interceptors)
  {
    match interceptors {
      case Chain(fs) =>
        r := request;
        for i := 0 to |fs|
          invariant r == Through(fs[..i], request)
        {
          assert fs[..i + 1][..i] == fs[..i];
          r := fs[i](r);
        }
        assert fs[..|fs|] == fs;
      case Single(f) =>
        r := f(request);
    }
  }

  /** Running two arrays of interceptors one after the other is running their concatenation. */
  lemma {:induction false} ThroughConcat(fs: seq<Request -> Request>, gs: seq<Request -> Request>, r: Request)
    ensures Through(fs + gs, r) == Through(gs, Through(fs, r))
  {
    if gs == [] {
      assert fs + gs == fs;
    } else {
      var last := gs[|gs| - 1];
      assert (fs + gs)[..|fs + gs| - 1] == fs + gs[..|gs| - 1];
      assert (fs + gs)[|fs + gs| - 1] == last;
      ThroughConcat(fs, gs[..|gs| - 1], r);
    }
  }

  /** The first interceptor sees the request `fetch` built, and the rest see what it returned. */
  lemma ThroughFirst(f: Request -> Request, fs: seq<Request -> Request>, r: Request)
    ensures Through([f] + fs, r) == Through(fs, f(r))
  {
    ThroughConcat([f], fs, r);
    assert [f][..0] == [];
  }

  /** An empty array leaves the request as it is; a single interceptor is applied once. */
  lemma InterceptorEdges(r: Request, f: Request -> Request)
    ensures Intercepted(r, Chain([])) == r
    ensures Intercepted(r, Single(f)) == f(r)
    ensures Intercepted(r, Chain([f])) == f(r)
  {
    assert [f][..0] == [];
  }

  /** An interceptor that calls `request.headers.set(name, value)` and returns a copy. */
  function SetHeader(name: string, value: string): Request -> Request {
    (r: Request) => r.(headers := Replaced(r.headers, name, value))
  }

  /**
   * Two interceptors that each set a header: the request `fetch` returns has both, each with
   * exactly the value set, whatever headers the request started with.
   */
  lemma TwoHeaderSetters(r: Request)
    ensures var out := Intercepted(r, Chain([SetHeader("authorization", "Bearer token"), SetHeader("content-type", "application/json")]));
      && Combined(out.headers, "authorization") == Some("Bearer token")
      && Combined(out.headers, "content-type") == Some("application/json")
  {
    var a := SetHeader("authorization", "Bearer token");
    var c := SetHeader("content-type", "application/json");
    ThroughFirst(a, [c], r);
    assert [a, c] == [a] + [c];
    assert Through([c], a(r)) == c(a(r)) by {
      assert [c][..0] == [];
    }
    var mid := Replaced(r.headers, "authorization", "Bearer token");
    var out := Replaced(mid, "content-type", "application/json");
    assert AsciiLower("authorization") != AsciiLower("content-type") by {
      assert AsciiLower("authorization")[0] == 'a';
      assert AsciiLower("content-type")[0] == 'c';
    }
    ValuesAfterSet(r.headers, "authorization", "Bearer token", "authorization");
    ValuesAfterSet(mid, "content-type", "application/json", "authorization");
    ValuesAfterSet(mid, "content-type", "application/json", "content-type");
  }

  // ---------------------------------------------------------------------------
  // The curl engine: src/index.ts:185-200

  /** What running a command gives: the error it failed with, if any, and its standard output. */
  datatype Execution = Execution(error: Option<Error>, stdout: string)

  /** The response `fetchWithCUrl` resolves with, or the error it rejects with. */
  function CurlOutcome(url: Destination, init: RequestInit, codec: UrlCodec, exec: string -> Execution): Result<NativeResponse, Error>
    reads url.Objects()
  {
    match CurlCommand.Href(url, codec)
    case Failure(e) => Failure(e)
    case Success(href) =>
      var run := exec(CurlCommand.Command(href, init));
      if run.error.Some? then Failure(run.error.value)
      else Success(CurlResponse.ToResponse(CurlResponse.Convert(run.stdout)))
  }

  /**
   * `fetchWithCUrl(url, options)`: the command is built (its warnings go to the console),
   * run, and its output converted; a failed run rejects with the run's error.
   */
  method FetchWithCurl(url: Destination, init: RequestInit, codec: UrlCodec, exec: string -> Execution)
    returns (r: Result<NativeResponse, Error>, warnings: seq<string>)
    ensures r == CurlOutcome(url, init, codec, exec)
    ensures warnings == CurlCommand.Warnings(init.fields)
  {
    var command;
    command, warnings := CurlCommand.FetchToCurl(url, init, codec);
    if command.Failure? {
      return Failure(command.error), warnings;
    }
    var run := exec(command.value);
    if run.error.Some? {
      return Failure(run.error.value), warnings;
    }
    var response := CurlResponse.ConvertStdoutToResponse(run.stdout);
    r := Success(response);
  }

  /**
   * When the process prints a well-formed reply to the command, the curl engine resolves
   * with that reply's status, first reason word, header fields and body.
   */
  lemma CurlReply(url: Destination, init: RequestInit, codec: UrlCodec, exec: string -> Execution,
                  version: string, code: int, reason: seq<string>, fields: seq<(string, string)>, body: string)
    requires CurlCommand.Href(url, codec).Success?
    requires exec(CurlCommand.Command(CurlCommand.Href(url, codec).value, init))
             == Execution(None, CurlResponse.Render(version, code, reason, fields, body))
    requires code > 101 && CurlResponse.Printable(version, code, reason, fields, body)
    ensures CurlOutcome(url, init, codec, exec).Success?
    ensures var response := CurlOutcome(url, init, codec, exec).value;
      && response.status == code
      && response.statusText == (if reason == [] then "" else reason[0])
      && response.headers == Normalized(fields)
      && response.body == Some(body)
  {
    CurlResponse.ReplyRoundTrip(version, code, reason, fields, body);
  }

  // ---------------------------------------------------------------------------
  // fetch: src/index.ts:164-181

  /** The `option` argument of `fetch`, split as line 168 splits it; `None` is `undefined`. */
  datatype FetchOptions = FetchOptions(
    retry: Option<RetryConfig>,
    interceptors: Option<Interceptors>,
    engine: Option<string>,
    init: RequestInit)
  {
    function Objects(): set<object> {
      if retry.Some? then {retry.value} else {}
    }
  }

  /** What `fetch` resolves with: the curl engine's plain response, or a response carrying its request. */
  datatype Fetched = FromCurl(response: NativeResponse) | FromFetch(response: NativeResponse, request: Request)

  /** `url.toString()`. */
  function DestinationText(url: Destination, codec: UrlCodec): string
    reads url.Objects()
  {
    match url
    case TextDest(text) => text
    case UrlDest(u) => codec.serialize(u.parts)
    case OtherDest(text) => text
  }

  /** `new Request(url.toString(), requestInit)`: the URL must parse, the headers must be header-shaped. */
  function NewRequest(url: Destination, init: RequestInit, codec: UrlCodec): Result<Request, Error>
    reads url.Objects()
  {
    match codec.parse(DestinationText(url, codec))
    case None => Failure(InvalidUrl)
    case Some(parts) =>
      match InitList(init.headers)
      case Failure(e) => Failure(e)
      case Success(l) => Success(Request(codec.serialize(parts), l, init.fields))
  }

  /** The request the native path sends: the intercepted one, or the one `fetch` built. */
  function Sendable(request: Request, interceptors: Option<Interceptors>): Request {
    if interceptors.Some? then Intercepted(request, interceptors.value) else request
  }

  /**
   * The headers option `send_request` finds: with interceptors its options are the
   * intercepted request itself (line 177), whose `headers` is a `Headers` object.
   */
  function CallHeaders(init: RequestInit, request: Request, interceptors: Option<Interceptors>): HeaderSpec {
    if interceptors.Some? then Instance(Sendable(request, interceptors).headers) else init.headers
  }

  /**
   * The request `fetch` attaches to its response. With interceptors it is the object that
   * `send_request` was given as options, and lines 61 and 76-82 gave that object an own
   * `headers` property holding the `Headers` built from the empty rest of a `Headers`
   * object: the headers the interceptors set are gone.
   */
  function Attached(request: Request, interceptors: Option<Interceptors>): Request {
    if interceptors.Some? then Sendable(request, interceptors).(headers := []) else request
  }

  /** The plain response of a fetched result, or its error. */
  function ResponseOf(r: Result<Fetched, Error>): Result<NativeResponse, Error> {
    match r
    case Failure(e) => Failure(e)
    case Success(f) => Success(f.response)
  }

  /**
   * What `send_request` does with destination `t`, headers option `spec` and options
   * `fields`, starting at `attempt` `start` with budget `count`: an attempt that fails before
   * any call is thrown with the destination unmoved; otherwise the calls, the result and the
   * final `attempt` are those of `Run` over the chain, and the destination keeps the move of
   * the first attempt.
   */
  predicate Delivered(t: Target, spec: HeaderSpec, fields: InitFields, start: int, count: int, codec: UrlCodec,
                      transport: Transport, response: Result<NativeResponse, Error>, log: seq<Sent>, attempt: int, after: Target)
  {
    match Prepare(t, spec, codec)
    case Failure(e) => response == Failure(e) && log == [] && attempt == start && after == t
    case Success(p) =>
      var script := Sending.Chain(t, p, fields, codec);
      && Run(start, count, Outcomes(transport, script), 0) == Ending(response, |log|, attempt)
      && (forall j :: 0 <= j < |log| ==> log[j] == script.At(j))
      && after == Moved(t, p.parts)
  }

  /**
   * Lines 175-180 once the request is built: pass it through the interceptors, if any, and
   * hand it to `send_request` with the caller's retry configuration or the default one.
   * `options` is the object `send_request` was given, as it left it.
   */
  method SendBuilt(url: Destination, request: Request, option: FetchOptions, codec: UrlCodec, transport: Transport)
    returns (response: Result<NativeResponse, Error>, sentAs: Request, options: CallOptions, log: seq<Sent>)
    requires request.fields == option.init.fields
    modifies url.Objects(), option.Objects()
    ensures sentAs == Sendable(request, option.interceptors) && fresh(options)
    ensures option.retry.Some? ==>
      option.retry.value.count == old(option.retry.value.count) && option.retry.value.delay == old(option.retry.value.delay)
    ensures Delivered(old(TargetOf(url)), CallHeaders(option.init, request, option.interceptors), sentAs.fields,
                      old(if option.retry.Some? then option.retry.value.attempt else 0),
                      if option.retry.Some? then option.retry.value.count else 0,
                      codec, transport, response, log,
                      if option.retry.Some? then option.retry.value.attempt else 0, TargetOf(url))
    ensures option.retry.Some? ==>
      var rc := option.retry.value;
      && |log| <= Max(rc.count - old(rc.attempt), 0) + 1
      && rc.attempt == old(rc.attempt) + Max(|log| - 1, 0)
    ensures response.Success? ==> response.value.Ok()
    ensures forall j :: 0 <= j < |log| ==> log[j].fields == sentAs.fields
    ensures option.interceptors.Some? ==> forall j :: 0 <= j < |log| ==> log[j].headers == []
    ensures option.interceptors.Some? && response.Success? ==> options.headers == Instance([])
  {
    ghost var t0 := TargetOf(url);
    var rc: RetryConfig;
    if option.retry.Some? {
      rc := option.retry.value;
    } else {
      rc := new RetryConfig(0, 0, 0);
    }
    sentAs := request;
    if option.interceptors.Some? {
      sentAs := HandleInterceptors(request, option.interceptors.value);
      options := new CallOptions(Instance(sentAs.headers), sentAs.fields);
      InstanceSendsNoHeaders(t0, sentAs.headers, codec);
    } else {
      options := new CallOptions(option.init.headers, option.init.fields);
    }
    response, log := SendRequest(url, options, rc, codec, transport);
  }

  /**
   * `fetch(url, option)`. With the curl engine nothing goes through the transport.
   * Otherwise the request is built first, and then sent as `send_request` sends it
   * (`Delivered`). With interceptors the intercepted request itself is the options of
   * `send_request`, so no call of the chain sends a header, and the request attached to
   * the response has lost its headers (`Attached`).
   */
  method Fetch(url: Destination, option: FetchOptions, codec: UrlCodec, transport: Transport, exec: string -> Execution)
    returns (r: Result<Fetched, Error>, log: seq<Sent>, warnings: seq<string>)
    modifies url.Objects(), option.Objects()
    ensures option.engine == Some("curl") ==>
      && log == [] && warnings == CurlCommand.Warnings(option.init.fields)
      && r == match old(CurlOutcome(url, option.init, codec, exec))
              case Failure(e) => Failure(e)
              case Success(response) => Success(FromCurl(response))
    ensures option.engine == Some("curl") && option.retry.Some? ==>
      option.retry.value.attempt == old(option.retry.value.attempt)
    ensures option.retry.Some? ==>
      option.retry.value.count == old(option.retry.value.count) && option.retry.value.delay == old(option.retry.value.delay)
    ensures option.engine == Some("curl") || old(NewRequest(url, option.init, codec)).Failure? ==>
      TargetOf(url) == old(TargetOf(url))
    ensures option.engine != Some("curl") ==> warnings == []
    ensures option.engine != Some("curl") && option.retry.Some? ==>
      var rc := option.retry.value;
      && |log| <= Max(rc.count - old(rc.attempt), 0) + 1
      && rc.attempt == old(rc.attempt) + Max(|log| - 1, 0)
    ensures option.engine != Some("curl") && old(NewRequest(url, option.init, codec)).Failure? ==>
      r == Failure(old(NewRequest(url, option.init, codec)).error) && log == []
    ensures option.engine != Some("curl") && old(NewRequest(url, option.init, codec)).Success? ==>
      var request := old(NewRequest(url, option.init, codec)).value;
      var sentAs := Sendable(request, option.interceptors);
      && Delivered(old(TargetOf(url)), CallHeaders(option.init, request, option.interceptors), sentAs.fields,
                   old(if option.retry.Some? then option.retry.value.attempt else 0),
                   if option.retry.Some? then option.retry.value.count else 0,
                   codec, transport, ResponseOf(r), log,
                   if option.retry.Some? then option.retry.value.attempt else 0, TargetOf(url))
      && (r.Success? ==> r.value == FromFetch(r.value.response, Attached(request, option.interceptors)) && r.value.response.Ok())
      && (forall j :: 0 <= j < |log| ==> log[j].fields == sentAs.fields)
      && (option.interceptors.Some? ==> forall j :: 0 <= j < |log| ==> log[j].headers == [])
  {
    log, warnings := [], [];
    if option.engine == Some("curl") {
      var response;
      response, warnings := FetchWithCurl(url, option.init, codec, exec);
      r := match response
           case Failure(e) => Failure(e)
           case Success(response) => Success(FromCurl(response));
      return;
    }
    var request := NewRequest(url, option.init, codec);
    if request.Failure? {
      return Failure(request.error), log, warnings;
    }
    var response, sentAs, options;
    response, sentAs, options, log := SendBuilt(url, request.value, option, codec, transport);
    r := match response
         case Failure(e) => Failure(e)
         case Success(answer) =>
           Success(FromFetch(answer, if option.interceptors.Some? then sentAs.(headers := options.headers.list) else request.value));
  }

  /**
   * `fetch` as its tests expect it to behave: the response carries the request the
   * interceptors returned, headers included. The native path sends as `Fetch` does.
   */
  method FetchKeepingRequest(url: Destination, option: FetchOptions, codec: UrlCodec, transport: Transport, exec: string -> Execution)
    returns (r: Result<Fetched, Error>, log: seq<Sent>, warnings: seq<string>)
    modifies url.Objects(), option.Objects()
    ensures option.engine == Some("curl") ==>
      && log == [] && warnings == CurlCommand.Warnings(option.init.fields)
      && r == match old(CurlOutcome(url, option.init, codec, exec))
              case Failure(e) => Failure(e)
              case Success(response) => Success(FromCurl(response))
    ensures option.engine == Some("curl") && option.retry.Some? ==>
      option.retry.value.attempt == old(option.retry.value.attempt)
    ensures option.retry.Some? ==>
      option.retry.value.count == old(option.retry.value.count) && option.retry.value.delay == old(option.retry.value.delay)
    ensures option.engine == Some("curl") || old(NewRequest(url, option.init, codec)).Failure? ==>
      TargetOf(url) == old(TargetOf(url))
    ensures option.engine != Some("curl") ==> warnings == []
    ensures option.engine != Some("curl") && option.retry.Some? ==>
      var rc := option.retry.value;
      && |log| <= Max(rc.count - old(rc.attempt), 0) + 1
      && rc.attempt == old(rc.attempt) + Max(|log| - 1, 0)
    ensures option.engine != Some("curl") && old(NewRequest(url, option.init, codec)).Failure? ==>
      r == Failure(old(NewRequest(url, option.init, codec)).error) && log == []
    ensures option.engine != Some("curl") && old(NewRequest(url, option.init, codec)).Success? ==>
      var request := old(NewRequest(url, option.init, codec)).value;
      var sentAs := Sendable(request, option.interceptors);
      && Delivered(old(TargetOf(url)), CallHeaders(option.init, request, option.interceptors), sentAs.fields,
                   old(if option.retry.Some? then option.retry.value.attempt else 0),
                   if option.retry.Some? then option.retry.value.count else 0,
                   codec, transport, ResponseOf(r), log,
                   if option.retry.Some? then option.retry.value.attempt else 0, TargetOf(url))
      && (r.Success? ==> r.value == FromFetch(r.value.response, sentAs))
  {
    log, warnings := [], [];
    if option.engine == Some("curl") {
      var response;
      response, warnings := FetchWithCurl(url, option.init, codec, exec);
      r := match response
           case Failure(e) => Failure(e)
           case Success(response) => Success(FromCurl(response));
      return;
    }
    var request := NewRequest(url, option.init, codec);
    if request.Failure? {
      return Failure(request.error), log, warnings;
    }
    var response, sentAs, options;
    response, sentAs, options, log := SendBuilt(url, request.value, option, codec, transport);
    r := match response
         case Failure(e) => Failure(e)
         case Success(answer) => Success(FromFetch(answer, sentAs));
  }

  /**
   * The first interceptor test: an interceptor sets `authorization`. The request it returns
   * has the header, but the request `fetch` attaches to its response does not.
   */
  lemma AuthorizationDropped(r: Request)
    ensures var interceptors := Some(Chain([SetHeader("authorization", "Bearer token")]));
      && Combined(Sendable(r, interceptors).headers, "authorization") == Some("Bearer token")
      && Combined(Attached(r, interceptors).headers, "authorization") == None
  {
    var f := SetHeader("authorization", "Bearer token");
    assert Through([f], r) == f(r) by {
      assert [f][..0] == [];
    }
    ValuesAfterSet(r.headers, "authorization", "Bearer token", "authorization");
  }

  /**
   * The second interceptor test: two interceptors set `authorization` and `content-type`,
   * and the request `FetchKeepingRequest` attaches keeps both values.
   */
  lemma BothHeadersKept(r: Request)
    ensures var interceptors := Some(Chain([SetHeader("authorization", "Bearer token"), SetHeader("content-type", "application/json")]));
      && Combined(Sendable(r, interceptors).headers, "authorization") == Some("Bearer token")
      && Combined(Sendable(r, interceptors).headers, "content-type") == Some("application/json")
  {
    TwoHeaderSetters(r);
  }
}
