/**
 * The values that flow through the pipeline of src/index.ts: the loose header
 * specification a caller may pass (`THeadersInit`, src/index.ts:21-24), the request
 * options (`TRequestInit`, src/index.ts:14-19), destinations (src/index.ts:4) and the
 * native `URL` and `Request` objects, reduced to the parts the pipeline reads or writes.
 *
 * What JavaScript does when it destructures or enumerates these values
 * (`Object.entries`, `{...rest}`, template-literal conversion) is written out here,
 * because the pipeline's behaviour depends on it.
 */
module RequestModel {
  import opened Wrappers
  import opened JsText

  /**
   * A value in the `params` record: a string or a number (integers only in this model,
   * written in decimal as JavaScript writes a safe integer).
   */
  datatype ParamValue = ParamText(text: string) | ParamNumber(n: int)

  /** `Number.MAX_SAFE_INTEGER`, 2^53 - 1: every integer up to it in magnitude is a JavaScript number. */
  const MaxSafeInteger: int := 0x1F_FFFF_FFFF_FFFF

  /** `String(value)`. */
  function ParamString(v: ParamValue): string {
    match v
    case ParamText(t) => t
    case ParamNumber(n) => IntToString(n)
  }

  /** The value of one key of a header record: a string, or (under `params`) a nested record. */
  datatype Field = Text(text: string) | Params(entries: seq<(string, ParamValue)>)

  /** `${value}`: a nested record prints as "[object Object]". */
  function FieldString(f: Field): string {
    match f
    case Text(t) => t
    case Params(_) => "[object Object]"
  }

  /** A field value is truthy unless it is the empty string. */
  predicate FieldTruthy(f: Field) {
    !(f.Text? && f.text == "")
  }

  /**
   * What a caller may pass as `headers`. `Record` lists a plain object's own enumerable
   * entries in property order; `PairList` is an array of [name, value] pairs; `Instance`
   * is a native `Headers` object, given by its header list.
   */
  datatype HeaderSpec =
    | Undefined
    | Null
    | TextSpec(s: string)
    | Scalar(truthy: bool)   // a number, boolean, symbol or bigint
    | Callable               // a function
    | Record(entries: seq<(string, Field)>)
    | PairList(pairs: seq<(string, string)>)
    | Instance(list: seq<(string, string)>)

  predicate Truthy(h: HeaderSpec) {
    match h
    case Undefined => false
    case Null => false
    case TextSpec(s) => s != ""
    case Scalar(t) => t
    case _ => true
  }

  /** `typeof h === 'object'` (true of `null`, false of a function). */
  predicate TypeofObject(h: HeaderSpec) {
    h.Null? || h.Record? || h.PairList? || h.Instance?
  }

  /**
   * `Object.entries(h)` with each value converted to text as a template literal does:
   * a string yields its characters under the keys "0", "1", ...; an array its pairs
   * joined with "," under the same keys; a `Headers` object, a number, a boolean and a
   * function have no own enumerable entries.
   */
  function OwnEntries(h: HeaderSpec): seq<(string, string)> {
    match h
    case TextSpec(s) => seq(|s|, i requires 0 <= i < |s| => (IntToString(i), [s[i]]))
    case Record(es) => seq(|es|, i requires 0 <= i < |es| => (es[i].0, FieldString(es[i].1)))
    case PairList(ps) => seq(|ps|, i requires 0 <= i < |ps| => (IntToString(i), ps[i].0 + "," + ps[i].1))
    case _ => []
  }

  /** The value under `key` in a record, if the record has that key. */
  function Lookup(es: seq<(string, Field)>, key: string): Option<Field> {
    if es == [] then None
    else if es[0].0 == key then Some(es[0].1)
    else Lookup(es[1..], key)
  }

  /** `h.params`, `h.pathname`: only a plain record can carry these keys. */
  function Property(h: HeaderSpec, key: string): Option<Field> {
    if h.Record? then Lookup(h.entries, key) else None
  }

  /** The entries whose key is neither "params" nor "pathname". */
  function WithoutExtensions(es: seq<(string, string)>): (r: seq<(string, string)>)
    ensures forall p :: p in r ==> p in es && p.0 != "params" && p.0 != "pathname"
  {
    if es == [] then []
    else if es[0].0 == "params" || es[0].0 == "pathname" then WithoutExtensions(es[1..])
    else [es[0]] + WithoutExtensions(es[1..])
  }

  /** The `requestHeaders` of `const { params, pathname, ...requestHeaders } = h || {}`. */
  function RestEntries(h: HeaderSpec): seq<(string, string)> {
    if Truthy(h) then WithoutExtensions(OwnEntries(h)) else []
  }

  /** The parts of a parsed URL that the pipeline reads or writes. */
  datatype UrlParts = UrlParts(origin: string, path: string, query: seq<(string, string)>, fragment: string)

  /**
   * The WHATWG URL parser, serialiser and `pathname` setter, not modelled: `parse` is
   * `new URL(text)` (`None` where it throws), `serialize` is `url.toString()` and
   * `setPath(parts, p)` is what `url.pathname = p` leaves in the URL.
   */
  datatype UrlCodec = UrlCodec(
    parse: string -> Option<UrlParts>,
    serialize: UrlParts -> string,
    setPath: (UrlParts, string) -> UrlParts)

  /** A native `URL` object: the pipeline changes its path and query in place. */
  class UrlObject {
    var parts: UrlParts

    constructor (parts: UrlParts)
      ensures this.parts == parts
    {
      this.parts := parts;
    }
  }

  /** `Destination = string | URL`, plus any other value a JavaScript caller may pass. */
  datatype Destination =
    | TextDest(text: string)
    | UrlDest(url: UrlObject)
    | OtherDest(asText: string)   // neither; `asText` is its `String()` conversion
  {
    function Objects(): set<object> {
      if UrlDest? then {url} else {}
    }
  }

  /** A request body; `text` is its `String()` form and `json` its `JSON.stringify` form. */
  datatype Body =
    | NoBody
    | StringBody(text: string)
    | ViewBody(text: string)      // an ArrayBuffer view (typed array or DataView)
    | ObjectBody(json: string)    // any other object

  /** `Boolean(body)`. */
  predicate BodyPresent(b: Body) {
    !(b.NoBody? || (b.StringBody? && b.text == ""))
  }

  /** The request options other than `headers`; `None` is `undefined`. */
  datatype InitFields = InitFields(
    requestMethod: Option<string>,   // `method`
    body: Body,
    mode: Option<string>,
    credentials: Option<string>,
    cache: Option<string>,
    redirect: Option<string>,
    referrer: Option<string>,
    referrerPolicy: Option<string>,
    integrity: Option<string>,
    keepalive: bool)

  /** A `RequestInit`: the header specification and the other options. */
  datatype RequestInit = RequestInit(headers: HeaderSpec, fields: InitFields)

  /** A native `Request`: its serialised URL, its header list and its other options. */
  datatype Request = Request(url: string, headers: seq<(string, string)>, fields: InitFields)

  /** A native `Response`: status, status text, header list and body text (`None`: no body). */
  datatype NativeResponse = NativeResponse(status: int, statusText: string, headers: seq<(string, string)>, body: Option<string>)
  {
    /** `response.ok`. */
    predicate Ok() {
      200 <= status <= 299
    }
  }

  /** A string option is set when it is present and not empty. */
  predicate IsSet(o: Option<string>) {
    o.Some? && o.value != ""
  }
}
