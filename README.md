# typed-fetch, modelled in Dafny

typed-fetch is a thin TypeScript wrapper around `fetch`. Its `fetch(url, option)` does
three things:

- it builds a native `Request`;
- it passes the request through optional request interceptors;
- it sends the request through `send_request`, which:
  - moves the destination URL by the `params` and `pathname` given in the headers option;
  - installs the remaining headers;
  - retries failed calls while a caller-owned retry budget (`retryConfig`) lasts;
  - turns a final abort into a `408 Request Timeout` error.

With `engine: "curl"`, the request is instead compiled into a `curl -i` command line. The command's standard output is then read back into a `Response`.

This project models the core of `src/utils.ts` and `src/index.ts` and proves properties
of the model. The modules are:

- `Wrappers`: `Option` and `Result`.
- `JsText`: the JavaScript built-ins the code relies on.
  - `String.prototype.split` with a literal separator, and its inverse, join.
  - `parseInt`, following section 19.2.5 of ECMA-262.
  - `String(n)` of an integer.
  - ASCII lower-casing of header names.
  - The split/join round trip and the `parseInt(String(n))` round trip are proved here.
- `Errors`: `HttpRequestError` and `InvalidArgumentError` with their message formats, plus the platform errors the pipeline meets (`TypeError: Invalid URL`, `AbortError`).
- `RequestModel`: the values that flow through the pipeline.
  - The loose `headers` option (record, pair list, `Headers` object, or a non-object).
  - Request options and bodies.
  - URL objects, a class whose parts are changed in place.
  - Requests and responses.
  - JavaScript destructuring (`{ params, pathname, ...rest }`) and `Object.entries`, written out.
- `HeaderBuilder`: the `headers(init)` builder.
  - A `Builder` class closes over one `Headers` container.
  - The container is modelled as an ordered list of (lower-cased name, value) pairs, as in section 5.1 of the WHATWG Fetch Standard.
- `CurlCommand`: `fetchToCurl`, a method that appends fragments to the command text.
  - It is proved equal to a fragment-by-fragment specification, `Command`.
  - Properties are then proved about that specification.
- `CurlResponse`: `convertStdoutToResponse` and `transformHeaders`.
  - The split-and-pick parse is written as a function.
  - It is proved to read back a well-formed `curl -i` message that was printed from a status code, a reason phrase, fields and a body.
- `Sending`: `send_request`.
  - One attempt is the method `PrepareCall`, which changes the URL object and the options object in place, followed by one call of the transport (`Attempt`).
  - `SendRequest` makes the first call. The retry recursion is the loop of `Retrying`: it settles each outcome (`Settle`) and retries (`Retry`) while the budget lasts. Both are proved against the function `Run`.
- `Client`: `handleInterceptors` (a loop), `fetchWithCUrl` and `fetch`.
  - `fetch` as written, and `FetchKeepingRequest`, the corrected `fetch` of the finding below.

The following are parameters:

- The transport (`globalThis.fetch`) is a function `(k, sent) -> outcome`: what the `k`-th call does with what it is sent.
- The URL parser, serialiser and `pathname` setter form a `UrlCodec` of uninterpreted functions.
- The process runner of `fetchWithCUrl` is a function from the command to its error and standard output.

Console warnings are collected in a list.

Where the code and its documentation disagree, the model follows the code:

- A missing `"\r\n\r\n"` in the curl output is not an error. The body is then absent.
- The status text is only the third space-separated token of the status line.
- Nothing in the curl command is escaped.
- `get` of a name with several values joins them with `", "`.
- A status code of 101 or less, or one that is not a number, becomes 200.
- A header value in the curl output is cut at a second `": "`.
- Text after a second `"\r\n\r\n"` in the curl output is dropped.
- A retry does not repeat the first call's request: it sends no header, and for a string URL no `params` and no `pathname` either, because the first attempt left a `Headers` object as the headers option.
- An abort becomes `408 Request Timeout` only once the retries are spent; an abort with budget left is retried like any other failure.
- The forms of the headers option are not equivalent on the first call: a record sends its entries, a pair list `[["a", "b"]]` sends the header `0: a,b` (its index as name), and a `Headers` object sends no header at all.

## Model

| member | source | states |
|---|---|---|
| JsText.Split | src/utils.ts:73-76 | `split` with a literal separator gives at least one piece; the pieces joined with the separator give back the text, and no piece holds the separator |
| JsText.SplitJoin | src/utils.ts:73-76 | for a separator whose occurrences cannot overlap (": ", "\r\n", " "), splitting the join of pieces that hold no separator gives back the pieces |
| JsText.ParseIntRoundTrip | src/utils.ts:54 | `parseInt` reads back the decimal text of any integer when what follows it is empty or starts with neither a digit nor `x`/`X` (after "0" an `x` would start a hexadecimal number) |
| JsText.AsciiLowerIdempotent | src/utils.ts:20 | lower-casing a header name twice is lower-casing it once, so names already stored match again |
| Errors.HttpErrorMessageCarriesCode | src/utils.ts:1-6 | an `HttpRequestError` message starts "Http Error " and `parseInt` of the rest gives back the status code |
| Errors.HttpErrorMessageInjective | src/utils.ts:1-6 | two `HttpRequestError`s with the same message have the same status code and status text |
| Errors.InvalidArgumentMessageCarriesName | src/utils.ts:8-13 | an `InvalidArgumentError` message starts "Argument " and, for an argument name without a colon (as "url" and "headers" are), its first ": "-field is the argument name |
| RequestModel.WithoutExtensions | src/index.ts:61 | the rest of a destructured headers option keeps only entries of the option and none named `params` or `pathname` |
| HeaderBuilder.Deleted | src/utils.ts:27-30 | `delete` keeps only pairs of the list, none under the deleted name |
| HeaderBuilder.ValuesAfterAppend | src/utils.ts:22-25 | `append` adds its value after the values already under the name, whatever its case, and changes no other name |
| HeaderBuilder.ValuesAfterDelete | src/utils.ts:27-30 | `delete` removes every value under the name, whatever its case, and changes no other name |
| HeaderBuilder.GetAfterAppend | src/utils.ts:22-34 | `get` after `set` returns the new value after the old ones, joined with ", ": `set` never overwrites |
| HeaderBuilder.GetAfterDelete | src/utils.ts:27-34 | `get` of any spelling of a removed name is `null` |
| HeaderBuilder.ValuesAfterSet | fetch.test.ts:34-36 | the native `headers.set` used by interceptors leaves exactly the one value under the name and changes no other name |
| HeaderBuilder.Builder.Set | src/utils.ts:22-25 | `set` appends the pair to the shared container and returns the builder itself |
| HeaderBuilder.Builder.Remove | src/utils.ts:27-30 | `remove` deletes every value under the name from the shared container and returns the builder itself |
| HeaderBuilder.Builder.Get | src/utils.ts:32-34 | `get` is `null` exactly when no value is stored under the name, and otherwise the values joined with ", " |
| HeaderBuilder.Builder.ToHeaders | src/utils.ts:36-38 | `toHeaders` returns the very container `set` and `remove` change |
| HeaderBuilder.BuildHeaders | src/utils.ts:15-20 | a non-object is refused with `InvalidArgumentError('headers', …)`, `null` by the `Headers` constructor; success exactly for `undefined` and non-null objects, with a new container holding the init's pairs |
| CurlCommand.FetchToCurl | src/utils.ts:78-159 | the appended command equals `Command(href, init)` for the serialised URL; a URL that does not parse throws; the warnings are those of the options curl cannot express, in source order |
| CurlCommand.AddHeaders | src/utils.ts:82-86 | the header section appends one ` -H "key: value"` fragment per own entry of a truthy `headers`, in entry order, and nothing for a falsy one |
| CurlCommand.AppendHeaderFragments | src/utils.ts:83-85 | the loop appends the fragments of the entries, in entry order |
| CurlCommand.AddFlags | src/utils.ts:88-137 | the body and flag fragments are appended in source order, and the no-cors and same-origin warnings are printed in that order |
| CurlCommand.ResolveHref | src/utils.ts:156 | a `URL` object is serialised as it is; any other destination goes through `new URL`, which throws `Invalid URL` when it does not parse |
| CurlCommand.HeaderFragmentsConcat | src/utils.ts:82-86 | the header fragments of two runs of entries are the fragments of each, one after the other |
| CurlCommand.CommandFrame | src/utils.ts:78-159 | the command starts "curl -i -X " and the method (GET when unset) and ends with ` "` + the serialised URL + `"` |
| CurlCommand.HeaderVerbatim | src/utils.ts:82-86 | the command is the method and the fragments of the entries before a header entry, then that entry verbatim and unescaped as ` -H "key: value"`, then the rest of the command |
| CurlCommand.ParamsBecomeHeader | src/utils.ts:82-86 | on the curl path a `params` record is not applied to the URL: it stands in the command, in its entry's place, as ` -H "params: [object Object]"` |
| CurlCommand.WarnedOptionsLeaveCommand | src/utils.ts:98-153 | mode, referrer policy, integrity and keep-alive never change the command, whatever the other options, and same-origin credentials give the command of no credentials |
| CurlCommand.NoWarningsIff | src/utils.ts:98-153 | no warning is printed exactly when no no-cors mode, same-origin credentials, referrer policy, integrity or keep-alive is given |
| CurlCommand.CommandExample | src/utils.ts:79-156 | a request with a header, a body and the include, reload, manual and referrer flags gives the fragments in the order method, headers, body, credentials, cache, redirect, referrer, URL |
| CurlResponse.At | src/utils.ts:44-47 | array destructuring gives the piece at an index, or `undefined` past the end |
| CurlResponse.TransformHeaders | src/utils.ts:62-71 | the loop gives exactly one pair per header line, in line order, split at ": " |
| CurlResponse.StatusFrom | src/utils.ts:54 | the status is the parsed code when it exceeds 101 and 200 otherwise, NaN included; it always exceeds 101 |
| CurlResponse.ConvertStdoutToResponse | src/utils.ts:43-60 | the response is built from the split-and-pick parse `Convert` of the output |
| CurlResponse.BodyAbsent | src/utils.ts:44 | without "\r\n\r\n" the body is `undefined`, the whole text is the header block, and nothing is thrown |
| CurlResponse.HeadIndependentOfBody | src/utils.ts:44-47 | the status, status text and headers come only from the text before the first "\r\n\r\n" |
| CurlResponse.BodyToEnd | src/utils.ts:44 | with a single "\r\n\r\n" the body is everything after it |
| CurlResponse.BodyBetween | src/utils.ts:44 | with a second "\r\n\r\n" the body stops there and the rest is dropped |
| CurlResponse.LineWithoutSeparator | src/utils.ts:66 | a header line without ": " gives the whole line as key and an `undefined` value |
| CurlResponse.LineKeyValue | src/utils.ts:66 | "key: value" gives the pair (key, value) |
| CurlResponse.LineTruncated | src/utils.ts:66 | a value holding ": " is cut at it |
| CurlResponse.ConvertRender | src/utils.ts:43-60 | reading a well-formed `curl -i` message gives back its code (above 101), the first word of its reason phrase, its fields in order and its body |
| CurlResponse.ReplyRoundTrip | src/utils.ts:43-60 | the response built from a well-formed reply has its code as status, its first reason word as status text, its fields as headers and its body |
| CurlResponse.ReasonPhraseCut | src/utils.ts:47-55 | "HTTP/1.1 404 Not Found" gives status 404 and status text "Not" |
| Sending.PrepareCall | src/index.ts:51-82 | one attempt returns `Prepare` of the destination and options it found, moves a caller's URL object in place, and installs the built `Headers` as `options.headers` |
| Sending.ResolveDestination | src/index.ts:51-55 | a string is parsed into a new URL object (a parse failure throws `Invalid URL`), a URL object is the caller's own, anything else is refused |
| Sending.AppendParams | src/index.ts:63-67 | the loop appends the entries to the query of the URL object in place, in order, after the existing pairs |
| Sending.PrepareErrors | src/index.ts:51-59 | an attempt fails only for a destination that is not a URL or does not parse, or a truthy non-object headers option (non-empty string, truthy scalar, function), the destination being checked first |
| Sending.UnmovedWithoutExtensions | src/index.ts:63-71 | without `params` and `pathname` the URL is the destination as it was |
| Sending.ParamsAppended | src/index.ts:63-67 | each `params` entry is appended to the query as `String(value)`, in order, after the existing pairs, and nothing else in the URL changes |
| Sending.NumberParamReadsBack | src/index.ts:65 | a safe integer in `params` (magnitude at most 2^53 - 1) reaches the query as decimal text that `parseInt` reads back |
| Sending.RecordEntrySent | src/index.ts:61-82 | every entry of a header record other than `params` and `pathname` is sent, its name lower-cased |
| Sending.OnlyRecordEntriesSent | src/index.ts:61-82 | every header sent comes from an entry of the record other than `params` and `pathname` |
| Sending.FailureRetried | src/index.ts:89-95 | a failed call with budget left, an abort included, is retried from the next call with `attempt` one higher |
| Sending.RunStep | src/index.ts:84-103 | after one call a chain ends with an ok response, ends with the error once the budget is spent, or goes on from the next call with `attempt` one higher |
| Sending.ChainBounds | src/index.ts:83-96 | a chain makes at most one call more than its budget, `attempt` grows by one per retry and stays within `count`, and it succeeds only with an ok response |
| Sending.RunCalls | src/index.ts:83-96 | a chain makes at least one call and at most one more than its retry budget, each retry advances `attempt` by one, `attempt` never passes `count` when it starts at or below it, and every call but the last failed |
| Sending.RunEnds | src/index.ts:84-103 | a chain ends at its first ok response and returns it unchanged; otherwise it ends with the budget spent and throws the last error, an abort as `HttpRequestError(408, 'Request Timeout')` |
| Sending.RunExhausts | src/index.ts:44-96 | when every call fails (throws or is not ok), exactly `count - attempt + 1` calls are made (one for the default config) and `attempt` ends at `count` |
| Sending.PairListSentByIndex | src/index.ts:61-82 | a pair list as headers option moves no URL and sends each pair `[name, value]` as the header named by its index, with value `name,value` |
| Sending.InstanceSendsNoHeaders | src/index.ts:57-82 | a `Headers` object as headers option moves no URL and sends no header |
| Sending.RetryPrepares | src/index.ts:91-95 | every retry prepares the same call as the second attempt, without headers and without moving the URL again |
| Sending.RetryTarget | src/index.ts:51-95 | a retry sends the same options without headers, to the moved URL object, or for a string to the string's URL without `params` and `pathname` |
| Sending.ChainLog | src/index.ts:51-95 | after the first call every retry sends the same thing, with no header, and every call sends the same options |
| Sending.Attempt | src/index.ts:51-84 | one pass prepares the call as `Prepare` says, sends the prepared URL and headers with the options, and leaves the URL object moved and `options.headers` the built `Headers`; an attempt that fails changes neither |
| Sending.Settle | src/index.ts:84-103 | an ok response is returned; a failure is retried with `attempt` one higher while `attempt < count`, and thrown otherwise, an abort as a 408 |
| Sending.Retry | src/index.ts:51-95 | a retry finds a `Headers` object as headers option, so it sends the URL the destination then gives, with no header, moves nothing, and leaves `options.headers` an empty `Headers` |
| Sending.Retrying | src/index.ts:84-96 | the loop settles each call and retries; the calls, the result and the final `attempt` are those of `Run`, every retry sends the same thing, the URL object stays where the first call left it, and after a retry `options.headers` is an empty `Headers` |
| Sending.SendRequest | src/index.ts:41-105 | the first call is `Attempt` and the rest are the loop of `Retrying`: a failure before the first call is thrown with no call and leaves the URL object and `options.headers` as they were; otherwise the calls, the result and the final `attempt` are those of `Run`, the caller's URL object keeps the move of the first attempt, and `options.headers` is the `Headers` built by the last attempt; every retry sends no header; an ok result is returned; `attempt` grows by the number of retries |
| Client.HandleInterceptors | src/index.ts:142-159 | the loop applies an array of interceptors from first to last, or calls a single one |
| Client.InterceptorEdges | src/index.ts:146-158 | an empty array leaves the request as it is; a single interceptor, alone or in an array, is applied once |
| Client.ThroughConcat | src/index.ts:146-155 | running two arrays of interceptors in turn is running their concatenation |
| Client.ThroughFirst | src/index.ts:146-155 | the first interceptor sees the built request and the rest see what it returned |
| Client.TwoHeaderSetters | src/index.ts:146-155 | the output of a chain of two interceptors that set `authorization` and `content-type` has both headers with exactly the values set |
| Client.FetchWithCurl | src/index.ts:185-200 | the curl engine resolves with the converted output of the command for the request, and rejects when the URL does not parse or the process fails |
| Client.CurlReply | src/index.ts:185-200 | when the process prints a well-formed reply, the response carries its status, first reason word, fields and body |
| Client.SendBuilt | src/index.ts:175-180 | the built request, intercepted or not, is sent as `send_request` sends it (`Delivered`: the error of a failed first attempt, or `Run` over the chain, and the caller's URL object moved), with the caller's retry configuration or the default one, whose `count` and `delay` stay as they were |
| Client.Fetch | src/index.ts:164-181 | the curl engine calls no transport and runs no retry; otherwise a request that cannot be built is thrown with no call, and a built one is sent as `send_request` sends it (`Delivered`); the response carries the built request, or with interceptors the intercepted request stripped of its headers; with interceptors no call sends a header; `attempt` grows by the number of retries, and `count` and `delay` stay as they were; the curl engine and a request that cannot be built leave the URL object and `attempt` as they were |
| Client.FetchKeepingRequest | src/index.ts:164-181 | as `Fetch` (the same calls, result, retry bounds and unchanged state), except that the response carries the intercepted request with the headers the interceptors set |
| Client.AuthorizationDropped | fetch.test.ts:31-45 | an interceptor that sets `authorization` returns a request with it, but the request `fetch` attaches to its response has no `authorization` |
| Client.BothHeadersKept | fetch.test.ts:48-70 | the request the corrected `fetch` attaches after two header-setting interceptors has both headers with the values set |

## Left out

- Native `Response` construction is not modelled: its `RangeError` for a status outside 200-599, its check of the status text, and its `TypeError` for a body with a 204 status. `ToResponse` builds the response from whatever status the selection gives.
- Native `Headers` validation of names and values is not modelled, nor the trimming of values. Headers are modelled as their header list only.
- The `Response<T>` subclass and its clone-before-read decoders are not modelled. They depend on native body streams.
- `child_process.exec` is a parameter. Its `stderr` is only logged. After `reject`, the callback still runs `convertStdoutToResponse(stdout)` and `resolve`; that call may throw uncaught, which is not modelled.
- The retry delay (`setTimeout`) is not modelled: `delay` is kept but time is not.
- URL parsing, serialisation, the `pathname` setter and query encoding are uninterpreted functions of a `UrlCodec`. `JSON.stringify` of a body is the text the body carries.
- Console output is not printed: the warnings of the curl command are returned as a list.
- Promises and `await` are not modelled. The pipeline is sequential code over a transport given as a function of the call number and what is sent.
- Interceptors that throw or return a promise are not modelled. An interceptor is a total function on requests.
- `params` values are strings or integers. Fractional numbers and `String` of a float are not modelled.
- ParamString: an integer is written as its decimal digits, which is what JavaScript does for a safe integer. Past 2^53 - 1 in magnitude JavaScript rounds the number, and from 10^21 on `String` writes exponent notation (`1e+21`, which `parseInt` reads as 1); neither is modelled, and `Sending.NumberParamReadsBack` requires a safe integer.
- HeaderBuilder.InitList: `new Headers(h)` for a `Headers` object `h` copies its header list as it is, while the native constructor copies its sorted and combined view. The two give the same `get` for every name; the order of the list is not modelled.
- `new Request(url, init)` checks only that the URL parses and that `headers` is header-shaped. Method, mode and body validation are not modelled.
- With interceptors, `send_request` receives a `Request` as its options. The model passes the request's header list and other options, and gives the request back with the headers `send_request` left in it (none). Reading the body stream of that request, and any other change `send_request` makes to it, are not modelled.
- Client.Fetch: an `option` of `null` or `undefined` is modelled as options with every field absent, and an `interceptors` value that is falsy but not `undefined` is not modelled.

## Findings

| source | as written | input that shows it | evidently intended | confidence | as-written member | corrected member |
|---|---|---|---|---|---|---|
| src/index.ts:175-177 | with interceptors, the intercepted request is both the options of `send_request` and the request attached to the response; `send_request` replaces its `headers` by the `Headers` built from the empty rest of a `Headers` object (lines 61, 76-82), so the attached request has no headers | the interceptor of fetch.test.ts:31-45, which sets `authorization: Bearer token`: the attached request has no `authorization` (`Client.AuthorizationDropped`) | the response carries the request the interceptors returned, headers included, as fetch.test.ts:44 and 68-69 expect (`Client.BothHeadersKept`) | not executed; high | Client.Fetch | Client.FetchKeepingRequest |
