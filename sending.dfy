/**
 * `send_request` (src/index.ts:41-105): resolve the destination to a URL object, move it
 * by the `params` and `pathname` carried in the headers option, install the remaining
 * headers on the options, call the transport, and on any failure retry while the retry
 * budget lasts, re-entering the same steps with the options as the first call left them.
 *
 * The transport (`globalThis.fetch`) is a parameter: `transport(k, sent)` is what its
 * `k`-th call does when it is given `sent`. The recursion of the source is the loop of
 * `SendRequest`, proved against the function `Run`.
 */
module Sending {
  import opened Wrappers
  import opened JsText
  import opened Errors
  import opened RequestModel
  import opened HeaderBuilder

  /** `TRetryConfig` (src/index.ts:6-10): the caller's object; each retry advances `attempt`. */
  class RetryConfig {
    var count: int
    var delay: int
    var attempt: int

    constructor (count: int, delay: int, attempt: int)
      ensures this.count == count && this.delay == delay && this.attempt == attempt
    {
      this.count := count;
      this.delay := delay;
      this.attempt := attempt;
    }
  }

  /** The options object `send_request` is given; it replaces the `headers` property in place. */
  class CallOptions {
    var headers: HeaderSpec
    const fields: InitFields

    constructor (headers: HeaderSpec, fields: InitFields)
      ensures this.headers == headers && this.fields == fields
    {
      this.headers := headers;
      this.fields := fields;
    }
  }

  /** What one transport call is given: the serialised URL, the header list, the other options. */
  datatype Sent = Sent(url: string, headers: FieldList, fields: InitFields)

  /** What one transport call does: it answers, or it throws. */
  datatype Outcome = Responded(response: NativeResponse) | Threw(error: Error)

  type Transport = (nat, Sent) -> Outcome

  // ---------------------------------------------------------------------------
  // One attempt: src/index.ts:51-82

  /** What the destination is when an attempt starts; a URL object is seen through its parts. */
  datatype Target = TextTarget(text: string) | UrlTarget(parts: UrlParts) | OtherTarget

  function TargetOf(url: Destination): Target
    reads url.Objects()
  {
    match url
    case TextDest(text) => TextTarget(text)
    case UrlDest(u) => UrlTarget(u.parts)
    case OtherDest(_) => OtherTarget
  }

  /** Lines 51-55: a string is parsed into a new URL object, a URL object is used as it is. */
  function Destined(t: Target, codec: UrlCodec): Result<UrlParts, Error> {
    match t
    case TextTarget(text) =>
      (match codec.parse(text)
       case None => Failure(InvalidUrl)
       case Some(p) => Success(p))
    case UrlTarget(p) => Success(p)
    case OtherTarget => Failure(UrlNotUrl)
  }

  /** `Object.entries(params)` with every value passed through `String`. */
  function ParamEntries(f: Field): seq<(string, string)> {
    match f
    case Text(s) => seq(|s|, i requires 0 <= i < |s| => (IntToString(i), [s[i]]))
    case Params(es) => seq(|es|, i requires 0 <= i < |es| => (es[i].0, ParamString(es[i].1)))
  }

  /** A destructured property that is present and truthy. */
  predicate Given(f: Option<Field>) {
    f.Some? && FieldTruthy(f.value)
  }

  /** Line 57: a truthy headers option must be an object. */
  predicate Refused(spec: HeaderSpec) {
    Truthy(spec) && !TypeofObject(spec)
  }

  /** Lines 51-71: the URL after `params` are appended to its query and `pathname` is set. */
  function Rebased(t: Target, spec: HeaderSpec, codec: UrlCodec): Result<UrlParts, Error> {
    match Destined(t, codec)
    case Failure(e) => Failure(e)
    case Success(p) =>
      if Refused(spec) then Failure(HeadersNotObject)
      else
        var params := Property(spec, "params");
        var pathname := Property(spec, "pathname");
        var q := if Given(params) then p.(query := p.query + ParamEntries(params.value)) else p;
        Success(if Given(pathname) then codec.setPath(q, FieldString(pathname.value)) else q)
  }

  /** The URL and the header list of one transport call. */
  datatype Prepared = Prepared(parts: UrlParts, headers: FieldList)

  /** Lines 51-82: the URL, and the header list built from the rest of the headers option. */
  function Prepare(t: Target, spec: HeaderSpec, codec: UrlCodec): Result<Prepared, Error> {
    match Rebased(t, spec, codec)
    case Failure(e) => Failure(e)
    case Success(p) => Success(Prepared(p, Normalized(RestEntries(spec))))
  }

  /** `requestHeaders` as the plain object it is: its entries, each a string. */
  function RestRecord(spec: HeaderSpec): HeaderSpec {
    var es := RestEntries(spec);
    Record(seq(|es|, i requires 0 <= i < |es| => (es[i].0, Text(es[i].1))))
  }

  /** What the destination is after an attempt moved it: a URL object keeps the move. */
  function Moved(t: Target, rebased: UrlParts): Target {
    if t.UrlTarget? then UrlTarget(rebased) else t
  }

  /**
   * Lines 51-82 on the heap: the URL object is changed in place (a string's URL object is
   * new, a caller's is the caller's), and `options.headers` becomes the built `Headers`.
   */
  method PrepareCall(url: Destination, options: CallOptions, codec: UrlCodec) returns (r: Result<Prepared, Error>)
    modifies url.Objects(), options
    ensures r == Prepare(old(TargetOf(url)), old(options.headers), codec)
    ensures TargetOf(url) == if r.Success? then Moved(old(TargetOf(url)), r.value.parts) else old(TargetOf(url))
    ensures options.headers == if r.Success? then Instance(r.value.headers) else old(options.headers)
  {
    var resolved := ResolveDestination(url, codec);
    if resolved.Failure? {
      return Failure(resolved.error);
    }
    var destination := resolved.value;
    var spec := options.headers;
    if Refused(spec) {
      return Failure(HeadersNotObject);
    }
    var params := Property(spec, "params");
    var pathname := Property(spec, "pathname");
    var requestHeaders := RestRecord(spec);
    if Given(params) {
      AppendParams(destination, ParamEntries(params.value));
    }
    if Given(pathname) {
      destination.parts := codec.setPath(destination.parts, FieldString(pathname.value));
    }
    var built := BuildHeaders(requestHeaders);
    RestRecordEntries(spec);
    var h := built.value.ToHeaders();
    options.headers := Instance(h.list);
    r := Success(Prepared(destination.parts, h.list));
  }

  /** Lines 51-55: the URL object an attempt works on, a new one for a string. */
  method ResolveDestination(url: Destination, codec: UrlCodec) returns (d: Result<UrlObject, Error>)
    ensures d.Failure? <==> Destined(TargetOf(url), codec).Failure?
    ensures d.Failure? ==> d.error == Destined(TargetOf(url), codec).error
    ensures d.Success? ==> d.value.parts == Destined(TargetOf(url), codec).value
    ensures d.Success? ==> if url.UrlDest? then d.value == url.url else fresh(d.value)
  {
    match url {
      case TextDest(text) =>
        var parsed := codec.parse(text);
        if parsed.None? {
          return Failure(InvalidUrl);
        }
        var made := new UrlObject(parsed.value);
        d := Success(made);
      case UrlDest(u) =>
        d := Success(u);
      case OtherDest(_) =>
        d := Failure(UrlNotUrl);
    }
  }

  /** Lines 60-67: each entry of `params` is appended to the query, in order. */
  method AppendParams(destination: UrlObject, entries: seq<(string, string)>)
    modifies destination
    ensures destination.parts == old(destination.parts).(query := old(destination.parts.query) + entries)
  {
    ghost var start := destination.parts;
    for i := 0 to |entries|
      invariant destination.parts == start.(query := start.query + entries[..i])
    {
      assert entries[..i + 1] == entries[..i] + [entries[i]];
      destination.parts := destination.parts.(query := destination.parts.query + [entries[i]]);
    }
    assert entries[..|entries|] == entries;
  }

  lemma RestRecordEntries(spec: HeaderSpec)
    ensures OwnEntries(RestRecord(spec)) == RestEntries(spec)
  {
    var es := RestEntries(spec);
    assert forall i :: 0 <= i < |es| ==> OwnEntries(RestRecord(spec))[i] == es[i];
  }

  // ---------------------------------------------------------------------------
  // What one attempt sends

  /**
   * An attempt fails only on a destination that is not a URL or does not parse, or on a
   * truthy headers option that is not an object (a non-empty string, a truthy number or
   * boolean, a function), and the destination is checked first.
   */
  lemma PrepareErrors(t: Target, spec: HeaderSpec, codec: UrlCodec)
    ensures Prepare(t, spec, codec).Failure? <==> Destined(t, codec).Failure? || Refused(spec)
    ensures Destined(t, codec).Failure? ==> Prepare(t, spec, codec) == Failure(Destined(t, codec).error)
    ensures Destined(t, codec).Success? && Refused(spec) ==> Prepare(t, spec, codec) == Failure(HeadersNotObject)
    ensures Refused(spec) <==> (spec.TextSpec? && spec.s != "") || spec == Scalar(true) || spec == Callable
  {
  }

  /** A headers option that carries neither `params` nor `pathname` leaves the URL where it was. */
  lemma UnmovedWithoutExtensions(t: Target, spec: HeaderSpec, codec: UrlCodec)
    requires Destined(t, codec).Success? && !Refused(spec)
    requires Property(spec, "params").None? && Property(spec, "pathname").None?
    ensures Rebased(t, spec, codec) == Destined(t, codec)
  {
  }

  /**
   * Each `params` entry is appended to the query, in order, after the pairs already there,
   * its value passed through `String`; the rest of the URL is untouched when no `pathname`
   * is given.
   */
  lemma ParamsAppended(t: Target, es: seq<(string, Field)>, ps: seq<(string, ParamValue)>, codec: UrlCodec)
    requires Destined(t, codec).Success?
    requires Lookup(es, "params") == Some(Params(ps)) && !Given(Lookup(es, "pathname"))
    ensures var before := Destined(t, codec).value;
      && Rebased(t, Record(es), codec).Success?
      && var after := Rebased(t, Record(es), codec).value;
      && after.origin == before.origin && after.path == before.path && after.fragment == before.fragment
      && |after.query| == |before.query| + |ps|
      && after.query[..|before.query|] == before.query
      && forall i :: 0 <= i < |ps| ==> after.query[|before.query| + i] == (ps[i].0, ParamString(ps[i].1))
  {
    var before := Destined(t, codec).value;
    var added := ParamEntries(Params(ps));
    assert Rebased(t, Record(es), codec) == Success(before.(query := before.query + added));
    assert (before.query + added)[..|before.query|] == before.query;
  }

  /**
   * A number in `params` reaches the query as its decimal text, which reads back as the
   * number. JavaScript writes a safe integer (magnitude below 2^53) as its decimal digits.
   */
  lemma NumberParamReadsBack(n: int)
    requires -MaxSafeInteger <= n <= MaxSafeInteger
    ensures ParseInt(ParamString(ParamNumber(n))) == Some(n)
  {
    assert IntToString(n) + "" == IntToString(n);
    ParseIntRoundTrip(n, "");
  }

  lemma {:induction false} KeptEntry(es: seq<(string, string)>, e: (string, string))
    requires e in es && e.0 != "params" && e.0 != "pathname"
    ensures e in WithoutExtensions(es)
  {
    if es[0] != e {
      KeptEntry(es[1..], e);
    }
  }

  /** Every entry of a header record other than `params` and `pathname` is sent, its name lower-cased. */
  lemma RecordEntrySent(t: Target, es: seq<(string, Field)>, codec: UrlCodec, i: int)
    requires Prepare(t, Record(es), codec).Success?
    requires 0 <= i < |es| && es[i].0 != "params" && es[i].0 != "pathname"
    ensures (AsciiLower(es[i].0), FieldString(es[i].1)) in Prepare(t, Record(es), codec).value.headers
  {
    var own := OwnEntries(Record(es));
    assert own[i] == (es[i].0, FieldString(es[i].1));
    KeptEntry(own, own[i]);
    var rest := WithoutExtensions(own);
    var j :| 0 <= j < |rest| && rest[j] == own[i];
    assert Normalized(rest)[j] == (AsciiLower(es[i].0), FieldString(es[i].1));
  }

  /** Nothing but the record's other entries is sent: `params` and `pathname` never become headers. */
  lemma OnlyRecordEntriesSent(t: Target, es: seq<(string, Field)>, codec: UrlCodec)
    requires Prepare(t, Record(es), codec).Success?
    ensures forall h :: h in Prepare(t, Record(es), codec).value.headers ==>
      exists e :: e in es && e.0 != "params" && e.0 != "pathname" && h == (AsciiLower(e.0), FieldString(e.1))
  {
    var own := OwnEntries(Record(es));
    var rest := WithoutExtensions(own);
    forall h | h in Normalized(rest)
      ensures exists e :: e in es && e.0 != "params" && e.0 != "pathname" && h == (AsciiLower(e.0), FieldString(e.1))
    {
      var j :| 0 <= j < |rest| && Normalized(rest)[j] == h;
      assert rest[j] in own;
      var m :| 0 <= m < |own| && own[m] == rest[j];
      assert es[m] in es;
    }
  }

  // ---------------------------------------------------------------------------
  // The retry loop: src/index.ts:84-104

  /** Lines 84-88: the error a call ends with, `None` for an ok response. */
  function Failed(o: Outcome): Option<Error> {
    match o
    case Responded(r) => if r.Ok() then None else Some(HttpRequestError(r.status, r.statusText))
    case Threw(e) => Some(e)
  }

  /** Lines 98-103: what is thrown once no retry is left. */
  function Surfaced(e: Error): Error {
    if IsAbort(e) then RequestTimeout else e
  }

  /** How a chain of calls ends: its result, how many calls were made, the final `attempt`. */
  datatype Ending = Ending(result: Result<NativeResponse, Error>, calls: nat, attempt: int)

  /**
   * The chain of calls from `attempt` on, the `k`-th call next, where `outcome(j)` is what
   * the `j`-th call does: an ok response ends it, a failure is retried while
   * `attempt < count`, and otherwise surfaces.
   */
  function Run(attempt: int, count: int, outcome: nat -> Outcome, k: nat): Ending
    decreases count - attempt
  {
    match Failed(outcome(k))
    case None => Ending(Success(outcome(k).response), k + 1, attempt)
    case Some(e) =>
      if attempt < count then Run(attempt + 1, count, outcome, k + 1)
      else Ending(Failure(Surfaced(e)), k + 1, attempt)
  }

  function Max(a: int, b: int): int {
    if a < b then b else a
  }

  /**
   * A chain makes at least one call and at most one more than its retry budget; each retry
   * advances `attempt` by one, so `attempt` never passes `count` when it starts at or below
   * it; every call but the last failed.
   */
  lemma {:induction false} RunCalls(attempt: int, count: int, outcome: nat -> Outcome, k: nat)
    ensures var e := Run(attempt, count, outcome, k);
      && k < e.calls <= k + Max(count - attempt, 0) + 1
      && e.attempt == attempt + (e.calls - k - 1)
      && (attempt <= count ==> e.attempt <= count)
      && (forall j :: k <= j < e.calls - 1 ==> Failed(outcome(j)).Some?)
    decreases count - attempt
  {
    if Failed(outcome(k)).Some? && attempt < count {
      RunCalls(attempt + 1, count, outcome, k + 1);
    }
  }

  /**
   * The chain ends at its first ok response and returns it as it is; otherwise it ends with
   * the budget spent and surfaces the last call's error (an abort as a 408 timeout).
   */
  lemma RunEnds(attempt: int, count: int, outcome: nat -> Outcome, k: nat)
    ensures var e := Run(attempt, count, outcome, k);
      && e.calls >= 1
      && (e.result.Success? <==> Failed(outcome(e.calls - 1)).None?)
      && (e.result.Success? ==> e.result.value == outcome(e.calls - 1).response && e.result.value.Ok())
      && (e.result.Failure? ==> e.attempt >= count
                                && e.result.error == Surfaced(Failed(outcome(e.calls - 1)).value))
    decreases count - attempt
  {
    if Failed(outcome(k)).Some? && attempt < count {
      RunEnds(attempt + 1, count, outcome, k + 1);
    }
  }

  /** When every call fails, the whole budget is spent: `count - attempt + 1` calls. */
  lemma {:induction false} RunExhausts(attempt: int, count: int, outcome: nat -> Outcome, k: nat)
    requires forall j :: k <= j ==> Failed(outcome(j)).Some?
    ensures Run(attempt, count, outcome, k).calls == k + Max(count - attempt, 0) + 1
    ensures Run(attempt, count, outcome, k).attempt == Max(attempt, count)
    ensures Run(attempt, count, outcome, k).result.Failure?
    decreases count - attempt
  {
    if attempt < count {
      RunExhausts(attempt + 1, count, outcome, k + 1);
    }
  }

  /**
   * A failed call with budget left is retried and its error dropped, whatever it was (an
   * abort included): the chain goes on from the next call with `attempt` one higher.
   */
  lemma FailureRetried(attempt: int, count: int, outcome: nat -> Outcome, k: nat)
    requires Failed(outcome(k)).Some? && attempt < count
    ensures Run(attempt, count, outcome, k) == Run(attempt + 1, count, outcome, k + 1)
  {
  }

  /** One call of a chain that started at `start`: it ends the chain, or the chain goes on from the next. */
  lemma RunStep(start: int, attempt: int, count: int, outcome: nat -> Outcome, k: nat)
    requires k == 0 ==> attempt == start
    requires k > 0 ==> Run(start, count, outcome, 0) == Run(attempt, count, outcome, k)
    ensures Failed(outcome(k)).None? ==>
      Run(start, count, outcome, 0) == Ending(Success(outcome(k).response), k + 1, attempt)
    ensures Failed(outcome(k)).Some? && attempt >= count ==>
      Run(start, count, outcome, 0) == Ending(Failure(Surfaced(Failed(outcome(k)).value)), k + 1, attempt)
    ensures Failed(outcome(k)).Some? && attempt < count ==>
      Run(start, count, outcome, 0) == Run(attempt + 1, count, outcome, k + 1)
  {
    if k == 0 {
      assert Run(start, count, outcome, 0) == Run(attempt, count, outcome, k);
    }
    if Failed(outcome(k)).Some? && attempt < count {
      FailureRetried(attempt, count, outcome, k);
    }
  }

  /** The calls of one chain: the first sends `first`, every retry sends `retry`. */
  datatype Script = Script(first: Sent, retry: Sent) {
    function At(j: nat): Sent {
      if j == 0 then first else retry
    }
  }

  function Outcomes(transport: Transport, script: Script): nat -> Outcome {
    (j: nat) => transport(j, script.At(j))
  }

  /**
   * What the calls of a chain send once the first attempt has been prepared as `p`: a retry
   * finds `options.headers` already a `Headers` object, so it rebuilds the URL from the
   * destination as the first attempt left it and sends no headers.
   */
  function Chain(t: Target, p: Prepared, fields: InitFields, codec: UrlCodec): Script
    requires Destined(t, codec).Success?
  {
    var again := Destined(Moved(t, p.parts), codec).value;
    Script(Sent(codec.serialize(p.parts), p.headers, fields), Sent(codec.serialize(again), [], fields))
  }

  /**
   * A `Headers` object as the headers option carries no `params`, no `pathname` and no own
   * entries: the URL is not moved and no header is sent.
   */
  lemma InstanceSendsNoHeaders(t: Target, l: FieldList, codec: UrlCodec)
    ensures Prepare(t, Instance(l), codec).Success? <==> Destined(t, codec).Success?
    ensures Destined(t, codec).Success? ==> Prepare(t, Instance(l), codec) == Success(Prepared(Destined(t, codec).value, []))
  {
    assert RestEntries(Instance(l)) == [];
  }

  /**
   * A pair list as headers option is sent by its indices: the pair `[name, value]` at index
   * `i` becomes the header `i: name,value`, and the URL is not moved.
   */
  lemma PairListSentByIndex(t: Target, ps: seq<(string, string)>, codec: UrlCodec)
    requires Destined(t, codec).Success?
    ensures Prepare(t, PairList(ps), codec)
         == Success(Prepared(Destined(t, codec).value,
                             Normalized(seq(|ps|, i requires 0 <= i < |ps| => (IntToString(i), ps[i].0 + "," + ps[i].1)))))
  {
    var es := OwnEntries(PairList(ps));
    forall e | e in es
      ensures e.0 != "params" && e.0 != "pathname"
    {
      var i :| 0 <= i < |ps| && e == es[i];
      assert e.0 == DecimalString(i);
      assert IsDecDigit(e.0[0]);
    }
    NoExtensionKeys(es);
  }

  /** Entries without a `params` or `pathname` key are all kept by the rest of the option. */
  lemma {:induction false} NoExtensionKeys(es: seq<(string, string)>)
    requires forall e :: e in es ==> e.0 != "params" && e.0 != "pathname"
    ensures WithoutExtensions(es) == es
  {
    if es != [] {
      assert es[0] in es;
      assert forall e :: e in es[1..] ==> e in es;
      NoExtensionKeys(es[1..]);
      assert es == [es[0]] + es[1..];
    }
  }

  /** The second attempt prepares what every later one prepares, and its URL does not move. */
  lemma RetryPrepares(t: Target, spec: HeaderSpec, codec: UrlCodec, l: FieldList)
    requires Prepare(t, spec, codec).Success?
    ensures var p := Prepare(t, spec, codec).value;
      && Destined(t, codec).Success?
      && Prepare(Moved(t, p.parts), Instance(l), codec)
         == Success(Prepared(Destined(Moved(t, p.parts), codec).value, []))
      && Moved(Moved(t, p.parts), Destined(Moved(t, p.parts), codec).value) == Moved(t, p.parts)
  {
    var p := Prepare(t, spec, codec).value;
    InstanceSendsNoHeaders(Moved(t, p.parts), l, codec);
  }

  /**
   * A retry sends the same options without a header; for a URL object it goes to the URL
   * the first attempt moved it to, for a string to the string's URL without `params` and
   * `pathname`.
   */
  lemma RetryTarget(t: Target, spec: HeaderSpec, fields: InitFields, codec: UrlCodec)
    requires Prepare(t, spec, codec).Success?
    ensures Destined(t, codec).Success?
    ensures var script := Chain(t, Prepare(t, spec, codec).value, fields, codec);
      && script.retry.headers == [] && script.retry.fields == script.first.fields
      && script.retry.url == if t.UrlTarget? then script.first.url else codec.serialize(Destined(t, codec).value)
  {
  }

  /**
   * One pass through `send_request` up to the `fetch` call (lines 51-84): prepare the URL
   * and the headers, then make the `k`-th call of the transport with them.
   */
  method Attempt(url: Destination, options: CallOptions, codec: UrlCodec, transport: Transport, k: nat)
    returns (call: Result<(Sent, Outcome), Error>)
    modifies url.Objects(), options
    ensures call.Failure? <==> Prepare(old(TargetOf(url)), old(options.headers), codec).Failure?
    ensures call.Failure? ==>
      && call.error == Prepare(old(TargetOf(url)), old(options.headers), codec).error
      && TargetOf(url) == old(TargetOf(url)) && options.headers == old(options.headers)
    ensures call.Success? ==>
      var p := Prepare(old(TargetOf(url)), old(options.headers), codec).value;
      && call.value.0 == Sent(codec.serialize(p.parts), p.headers, options.fields)
      && call.value.1 == transport(k, call.value.0)
      && TargetOf(url) == Moved(old(TargetOf(url)), p.parts)
      && options.headers == Instance(p.headers)
  {
    var p := PrepareCall(url, options, codec);
    if p.Failure? {
      return Failure(p.error);
    }
    var sent := Sent(codec.serialize(p.value.parts), p.value.headers, options.fields);
    call := Success((sent, transport(k, sent)));
  }

  /**
   * Lines 84-104 once a call is made: an ok response is returned; a failure is retried
   * (`attempt` goes up by one) while `attempt < count`, and thrown otherwise, an abort as
   * a 408 timeout. `None` stands for "retry".
   */
  method Settle(outcome: Outcome, rc: RetryConfig) returns (done: Option<Result<NativeResponse, Error>>)
    modifies rc
    ensures rc.count == old(rc.count) && rc.delay == old(rc.delay)
    ensures Failed(outcome).None? ==> done == Some(Success(outcome.response)) && rc.attempt == old(rc.attempt)
    ensures Failed(outcome).Some? && old(rc.attempt) < rc.count ==> done == None && rc.attempt == old(rc.attempt) + 1
    ensures Failed(outcome).Some? && old(rc.attempt) >= rc.count ==>
      done == Some(Failure(Surfaced(Failed(outcome).value))) && rc.attempt == old(rc.attempt)
  {
    var failure := Failed(outcome);
    if failure.None? {
      return Some(Success(outcome.response));
    }
    if rc.attempt < rc.count {
      rc.attempt := rc.attempt + 1;
      return None;
    }
    done := Some(Failure(Surfaced(failure.value)));
  }

  /**
   * A pass of a retry: the options already hold a `Headers` object and the destination
   * `moved` is where the first pass left it, so the call goes to that URL with no header
   * and nothing moves.
   */
  method Retry(url: Destination, options: CallOptions, codec: UrlCodec, transport: Transport, k: nat, ghost moved: Target)
    returns (sent: Sent, outcome: Outcome)
    requires TargetOf(url) == moved && options.headers.Instance? && Destined(moved, codec).Success?
    requires Moved(moved, Destined(moved, codec).value) == moved
    modifies url.Objects(), options
    ensures TargetOf(url) == moved && options.headers == Instance([])
    ensures sent == Sent(codec.serialize(Destined(moved, codec).value), [], options.fields)
    ensures outcome == transport(k, sent)
  {
    InstanceSendsNoHeaders(moved, options.headers.list, codec);
    var call := Attempt(url, options, codec, transport, k);
    sent, outcome := call.value.0, call.value.1;
  }

  /**
   * Lines 84-104 from the first call on: settle each call's outcome and, while the budget
   * lasts, retry (the recursive call on line 95). Every retry sends the retry of `script`,
   * and together the calls end the chain as `Run` says.
   */
  method Retrying(url: Destination, options: CallOptions, rc: RetryConfig, codec: UrlCodec, transport: Transport,
                  ghost script: Script, ghost moved: Target, first: Sent, firstOutcome: Outcome)
    returns (r: Result<NativeResponse, Error>, log: seq<Sent>)
    requires TargetOf(url) == moved && options.headers.Instance? && Destined(moved, codec).Success?
    requires Moved(moved, Destined(moved, codec).value) == moved
    requires first == script.first && firstOutcome == transport(0, first)
    requires script.retry == Sent(codec.serialize(Destined(moved, codec).value), [], options.fields)
    modifies url.Objects(), options, rc
    ensures rc.count == old(rc.count) && rc.delay == old(rc.delay)
    ensures Run(old(rc.attempt), rc.count, Outcomes(transport, script), 0) == Ending(r, |log|, rc.attempt)
    ensures |log| > 0 && log[0] == first
    ensures forall j :: 1 <= j < |log| ==> log[j] == script.retry
    ensures TargetOf(url) == moved
    ensures options.headers == if |log| == 1 then old(options.headers) else Instance([])
  {
    ghost var start := rc.attempt;
    ghost var outs := Outcomes(transport, script);
    assert script.At(0) == first;
    log := [first];
    var outcome := firstOutcome;
    while true
      invariant rc.count == old(rc.count) && rc.delay == old(rc.delay)
      invariant TargetOf(url) == moved && options.headers.Instance?
      invariant options.headers == if |log| == 1 then old(options.headers) else Instance([])
      invariant |log| > 0 && log[0] == first
      invariant forall j :: 1 <= j < |log| ==> log[j] == script.retry
      invariant outs(|log| - 1) == outcome
      invariant |log| == 1 ==> rc.attempt == start
      invariant |log| > 1 ==> Run(start, rc.count, outs, 0) == Run(rc.attempt, rc.count, outs, |log| - 1)
      decreases rc.count - rc.attempt
    {
      RunStep(start, rc.attempt, rc.count, outs, |log| - 1);
      var done := Settle(outcome, rc);
      if done.Some? {
        r := done.value;
        break;
      }
      var sent;
      sent, outcome := Retry(url, options, codec, transport, |log|, moved);
      assert script.At(|log|) == sent;
      log := log + [sent];
    }
  }

  /**
   * What every chain of calls keeps to: at most one call more than the retry budget, one
   * increment of `attempt` per retry, and a successful ending only with an ok response.
   */
  lemma ChainBounds(attempt: int, count: int, outcome: nat -> Outcome, e: Ending)
    requires Run(attempt, count, outcome, 0) == e
    ensures e.calls <= Max(count - attempt, 0) + 1
    ensures attempt <= count ==> e.attempt <= count
    ensures e.attempt == attempt + Max(e.calls - 1, 0)
    ensures e.result.Success? ==> e.result.value.Ok()
  {
    RunCalls(attempt, count, outcome, 0);
    RunEnds(attempt, count, outcome, 0);
  }

  /**
   * A log that starts with the first call of a chain and goes on with its retries: every
   * retry sends the same thing, with no header, and every call the same options.
   */
  lemma ChainLog(script: Script, log: seq<Sent>, fields: InitFields)
    requires |log| > 0 && log[0] == script.first
    requires forall j :: 1 <= j < |log| ==> log[j] == script.retry
    requires script.first.fields == fields && script.retry.fields == fields && script.retry.headers == []
    ensures forall j :: 0 <= j < |log| ==> log[j] == script.At(j)
    ensures forall j :: 0 < j < |log| ==> log[j].headers == [] && log[j] == log[1]
    ensures forall j :: 0 <= j < |log| ==> log[j].fields == fields
    ensures script.first.headers == [] ==> forall j :: 0 <= j < |log| ==> log[j].headers == []
  {
  }

  /**
   * `send_request(url, options, retryConfig)`. A failure before the first call (a bad URL,
   * a headers option that is not an object) is thrown without a retry; after that every
   * call of the chain is what `Run` says, the first sending the prepared URL and headers and
   * every retry the URL the destination then gives and no headers.
   */
  method SendRequest(url: Destination, options: CallOptions, rc: RetryConfig, codec: UrlCodec, transport: Transport)
    returns (r: Result<NativeResponse, Error>, log: seq<Sent>)
    modifies url.Objects(), options, rc
    ensures rc.count == old(rc.count) && rc.delay == old(rc.delay)
    ensures Prepare(old(TargetOf(url)), old(options.headers), codec).Failure? ==>
      && r == Failure(Prepare(old(TargetOf(url)), old(options.headers), codec).error)
      && log == [] && rc.attempt == old(rc.attempt)
      && TargetOf(url) == old(TargetOf(url)) && options.headers == old(options.headers)
    ensures Prepare(old(TargetOf(url)), old(options.headers), codec).Success? ==>
      var p := Prepare(old(TargetOf(url)), old(options.headers), codec).value;
      var script := Chain(old(TargetOf(url)), p, options.fields, codec);
      && Run(old(rc.attempt), rc.count, Outcomes(transport, script), 0) == Ending(r, |log|, rc.attempt)
      && (forall j :: 0 <= j < |log| ==> log[j] == script.At(j))
      && TargetOf(url) == Moved(old(TargetOf(url)), p.parts)
      && options.headers == Instance(if |log| == 1 then p.headers else [])
    ensures |log| <= Max(rc.count - old(rc.attempt), 0) + 1
    ensures old(rc.attempt) <= rc.count ==> rc.attempt <= rc.count
    ensures rc.attempt == old(rc.attempt) + Max(|log| - 1, 0)
    ensures r.Success? ==> r.value.Ok()
    ensures forall j :: 0 < j < |log| ==> log[j].headers == [] && log[j] == log[1]
    ensures old(options.headers).Instance? ==> forall j :: 0 <= j < |log| ==> log[j].headers == []
    ensures forall j :: 0 <= j < |log| ==> log[j].fields == options.fields
  {
    ghost var t0 := TargetOf(url);
    ghost var spec0 := options.headers;
    ghost var a0 := rc.attempt;
    ghost var first := Prepare(t0, spec0, codec);
    var call := Attempt(url, options, codec, transport, 0);
    if call.Failure? {
      return Failure(call.error), [];
    }
    ghost var moved := Moved(t0, first.value.parts);
    ghost var script := Chain(t0, first.value, options.fields, codec);
    ghost var outs := Outcomes(transport, script);
    RetryPrepares(t0, spec0, codec, options.headers.list);
    r, log := Retrying(url, options, rc, codec, transport, script, moved, call.value.0, call.value.1);
    ChainBounds(a0, rc.count, outs, Ending(r, |log|, rc.attempt));
    if spec0.Instance? {
      InstanceSendsNoHeaders(t0, spec0.list, codec);
    }
    ChainLog(script, log, options.fields);
  }
}
