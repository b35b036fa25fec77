/**
 * `fetchToCurl` of src/utils.ts:78-159: compiles a destination and a `RequestInit` into
 * the text of a `curl` command line, by appending fragments in a fixed order (method,
 * headers, body, credentials, cache, redirect, referrer, URL). Nothing is escaped: every
 * value lands between the literal quotes exactly as given. Options `curl` has no flag
 * for only produce warnings, which the model collects in a list instead of printing.
 */
module CurlCommand {
  import opened Wrappers
  import opened JsText
  import opened Errors
  import opened RequestModel

  // ---------------------------------------------------------------------------
  // The fragments, in command order

  /** "curl -i -X " and the method, or "GET" when the method is absent or empty. */
  function MethodFragment(requestMethod: Option<string>): string {
    "curl -i -X " + (if IsSet(requestMethod) then requestMethod.value else "GET")
  }

  function HeaderFragment(entry: (string, string)): string {
    " -H \"" + entry.0 + ": " + entry.1 + "\""
  }

  /** One header fragment per entry, in entry order. */
  function HeaderFragments(entries: seq<(string, string)>): string {
    if entries == [] then ""
    else HeaderFragments(entries[..|entries| - 1]) + HeaderFragment(entries[|entries| - 1])
  }

  /** The entries `Object.entries(requestInit.headers)` lists, when `headers` is truthy. */
  function HeaderEntries(h: HeaderSpec): seq<(string, string)> {
    if Truthy(h) then OwnEntries(h) else []
  }

  /** A non-view object is sent as its JSON text, anything else as its `String()` form. */
  function BodyFragment(b: Body): string {
    if !BodyPresent(b) then ""
    else match b
      case ObjectBody(json) => " -d '" + json + "'"
      case StringBody(text) => " -d '" + text + "'"
      case ViewBody(text) => " -d '" + text + "'"
  }

  function CredentialsFragment(credentials: Option<string>): string {
    if credentials == Some("include") then " --include" else ""
  }

  function CacheFragment(cache: Option<string>): string {
    if cache == Some("no-cache") then " -H \"Cache-Control: no-cache\""
    else if cache == Some("reload") then " --no-cache"
    else ""
  }

  function RedirectFragment(redirect: Option<string>): string {
    if redirect == Some("follow") then " -L"
    else if redirect == Some("manual") then " -w \"%{redirect_url}\" -o /dev/null"
    else if redirect == Some("error") then " --fail"
    else ""
  }

  function ReferrerFragment(referrer: Option<string>): string {
    if IsSet(referrer) then " -e \"" + referrer.value + "\"" else ""
  }

  function UrlFragment(href: string): string {
    " \"" + href + "\""
  }

  /** The method and header fragments. */
  function Head(init: RequestInit): string {
    MethodFragment(init.fields.requestMethod) + HeaderFragments(HeaderEntries(init.headers))
  }

  /** The body and flag fragments, in the order they are appended. */
  function Flags(f: InitFields): string {
    BodyFragment(f.body) + CredentialsFragment(f.credentials) + CacheFragment(f.cache)
      + RedirectFragment(f.redirect) + ReferrerFragment(f.referrer)
  }

  /** The command without its URL fragment. */
  function Options(init: RequestInit): string {
    Head(init) + Flags(init.fields)
  }

  /** The command for a destination whose serialised form is `href`. */
  function Command(href: string, init: RequestInit): string {
    Options(init) + UrlFragment(href)
  }

  /** The serialised destination: a `URL` object as it is, any other value after `new URL(...)`. */
  function Href(url: Destination, codec: UrlCodec): Result<string, Error>
    reads url.Objects()
  {
    match url
    case UrlDest(u) => Success(codec.serialize(u.parts))
    case TextDest(text) => Parsed(text, codec)
    case OtherDest(text) => Parsed(text, codec)
  }

  function Parsed(text: string, codec: UrlCodec): Result<string, Error> {
    match codec.parse(text)
    case None => Failure(InvalidUrl)
    case Some(parts) => Success(codec.serialize(parts))
  }

  const NoCorsWarning := "cURL does not support no-cors mode."
  const SameOriginWarning := "cURL does not support same-origin credentials."
  const ReferrerPolicyWarning := "cURL does not support referrerPolicy directly."
  const IntegrityWarning := "cURL does not support integrity directly."
  const KeepaliveWarning := "cURL does not support keepalive directly."

  function ModeWarnings(f: InitFields): seq<string> {
    if f.mode == Some("no-cors") then [NoCorsWarning] else []
  }

  function CredentialsWarnings(f: InitFields): seq<string> {
    if f.credentials == Some("same-origin") then [SameOriginWarning] else []
  }

  /** The warnings printed for options `curl` cannot express, in the order they are printed. */
  function Warnings(f: InitFields): seq<string> {
    ModeWarnings(f) + CredentialsWarnings(f) + UnsupportedWarnings(f)
  }

  function UnsupportedWarnings(f: InitFields): seq<string> {
    (if IsSet(f.referrerPolicy) then [ReferrerPolicyWarning] else [])
    + (if IsSet(f.integrity) then [IntegrityWarning] else [])
    + (if f.keepalive then [KeepaliveWarning] else [])
  }

  // ---------------------------------------------------------------------------
  // fetchToCurl

  /**
   * `fetchToCurl(url, requestInit)`: builds the command by appending to it; the URL is
   * parsed last, so the warnings are printed even when the URL then fails to parse.
   */
  method FetchToCurl(url: Destination, init: RequestInit, codec: UrlCodec)
    returns (r: Result<string, Error>, warnings: seq<string>)
    ensures warnings == Warnings(init.fields)
    ensures Href(url, codec).Failure? ==> r == Failure(Href(url, codec).error)
    ensures Href(url, codec).Success? ==> r == Success(Command(Href(url, codec).value, init))
  {
    var f := init.fields;
    var cmd := "curl -i -X " + (if IsSet(f.requestMethod) then f.requestMethod.value else "GET");
    cmd := AddHeaders(cmd, init.headers);
    cmd, warnings := AddFlags(cmd, f);
    assert cmd == Options(init);
    var unsupported := WarnUnsupported(f);
    warnings := warnings + unsupported;
    var href := ResolveHref(url, codec);
    if href.Failure? {
      return Failure(href.error), warnings;
    }
    cmd := cmd + (" \"" + href.value + "\"");
    r := Success(cmd);
  }

  /**
   * The body and the flags, appended in order, with the warnings for a `no-cors` mode and
   * `same-origin` credentials printed on the way.
   */
  method AddFlags(cmd: string, f: InitFields) returns (next: string, warnings: seq<string>)
    ensures next == cmd + Flags(f)
    ensures warnings == ModeWarnings(f) + CredentialsWarnings(f)
  {
    warnings := [];
    next := AddBody(cmd, f.body);
    if f.mode.Some? && f.mode.value != "" {
      if f.mode.value == "no-cors" {
        warnings := warnings + [NoCorsWarning];
      }
    }
    assert warnings == ModeWarnings(f);
    var credentialsWarnings;
    next, credentialsWarnings := AddCredentials(next, f.credentials);
    warnings := warnings + credentialsWarnings;
    Regroup(cmd, BodyFragment(f.body), CredentialsFragment(f.credentials));
    next := AddCache(next, f.cache);
    Regroup(cmd, BodyFragment(f.body) + CredentialsFragment(f.credentials), CacheFragment(f.cache));
    next := AddRedirect(next, f.redirect);
    Regroup(cmd, BodyFragment(f.body) + CredentialsFragment(f.credentials) + CacheFragment(f.cache),
            RedirectFragment(f.redirect));
    next := AddReferrer(next, f.referrer);
    Regroup(cmd, BodyFragment(f.body) + CredentialsFragment(f.credentials) + CacheFragment(f.cache)
              + RedirectFragment(f.redirect), ReferrerFragment(f.referrer));
  }

  /** `url.href` for a `URL` object, `new URL(url).href` for anything else. */
  method ResolveHref(url: Destination, codec: UrlCodec) returns (href: Result<string, Error>)
    ensures href == Href(url, codec)
  {
    match url {
      case UrlDest(u) =>
        href := Success(codec.serialize(u.parts));
      case TextDest(text) =>
        var parsed := codec.parse(text);
        if parsed.None? {
          return Failure(InvalidUrl);
        }
        href := Success(codec.serialize(parsed.value));
      case OtherDest(text) =>
        var parsed := codec.parse(text);
        if parsed.None? {
          return Failure(InvalidUrl);
        }
        href := Success(codec.serialize(parsed.value));
    }
  }

  /** The header section: one fragment per own enumerable entry, when `headers` is truthy. */
  method AddHeaders(cmd: string, h: HeaderSpec) returns (next: string)
    ensures next == cmd + HeaderFragments(HeaderEntries(h))
  {
    next := cmd;
    if Truthy(h) {
      next := AppendHeaderFragments(cmd, OwnEntries(h));
    }
  }

  /** The loop over the entries: ` -H "key: value"` for each, in order. */
  method AppendHeaderFragments(cmd: string, entries: seq<(string, string)>) returns (next: string)
    ensures next == cmd + HeaderFragments(entries)
  {
    next := cmd;
    var i := 0;
    while i < |entries|
      invariant 0 <= i <= |entries|
      invariant next == cmd + HeaderFragments(entries[..i])
    {
      var entry := entries[i];
      assert entries[..i + 1][..i] == entries[..i] && entries[..i + 1][i] == entry;
      Regroup(cmd, HeaderFragments(entries[..i]), HeaderFragment(entry));
      next := next + (" -H \"" + entry.0 + ": " + entry.1 + "\"");
      i := i + 1;
    }
    assert entries[..i] == entries;
  }

  /** The body section: JSON text for a non-view object, the `String()` form otherwise. */
  method AddBody(cmd: string, body: Body) returns (next: string)
    ensures next == cmd + BodyFragment(body)
  {
    next := cmd;
    if BodyPresent(body) {
      if body.ObjectBody? {
        next := next + (" -d '" + body.json + "'");
      } else {
        next := next + (" -d '" + body.text + "'");
      }
    }
  }

  /** The credentials section: "include" adds a flag, "same-origin" only warns. */
  method AddCredentials(cmd: string, credentials: Option<string>) returns (next: string, warnings: seq<string>)
    ensures next == cmd + CredentialsFragment(credentials)
    ensures warnings == (if credentials == Some("same-origin") then [SameOriginWarning] else [])
  {
    next, warnings := cmd, [];
    if credentials.Some? && credentials.value != "" {
      if credentials.value == "include" {
        next := next + " --include";
      } else if credentials.value == "same-origin" {
        warnings := warnings + [SameOriginWarning];
      }
    }
  }

  /** The cache section. */
  method AddCache(cmd: string, cache: Option<string>) returns (next: string)
    ensures next == cmd + CacheFragment(cache)
  {
    next := cmd;
    if cache.Some? && cache.value != "" {
      if cache.value == "no-cache" {
        next := next + " -H \"Cache-Control: no-cache\"";
      } else if cache.value == "reload" {
        next := next + " --no-cache";
      }
    }
  }

  /** The redirect section. */
  method AddRedirect(cmd: string, redirect: Option<string>) returns (next: string)
    ensures next == cmd + RedirectFragment(redirect)
  {
    next := cmd;
    if redirect.Some? && redirect.value != "" {
      if redirect.value == "follow" {
        next := next + " -L";
      } else if redirect.value == "manual" {
        next := next + " -w \"%{redirect_url}\" -o /dev/null";
      } else if redirect.value == "error" {
        next := next + " --fail";
      }
    }
  }

  /** The referrer section. */
  method AddReferrer(cmd: string, referrer: Option<string>) returns (next: string)
    ensures next == cmd + ReferrerFragment(referrer)
  {
    next := cmd;
    if IsSet(referrer) {
      next := next + (" -e \"" + referrer.value + "\"");
    }
  }

  /** The last three checks of `fetchToCurl`, which only warn. */
  method WarnUnsupported(f: InitFields) returns (warnings: seq<string>)
    ensures warnings == UnsupportedWarnings(f)
  {
    warnings := [];
    if IsSet(f.referrerPolicy) {
      warnings := warnings + [ReferrerPolicyWarning];
    }
    if IsSet(f.integrity) {
      warnings := warnings + [IntegrityWarning];
    }
    if f.keepalive {
      warnings := warnings + [KeepaliveWarning];
    }
  }

  // ---------------------------------------------------------------------------
  // What the command says

  lemma {:induction false} HeaderFragmentsConcat(a: seq<(string, string)>, b: seq<(string, string)>)
    ensures HeaderFragments(a + b) == HeaderFragments(a) + HeaderFragments(b)
    decreases |b|
  {
    if b == [] {
      assert a + b == a;
    } else {
      var last := b[|b| - 1];
      assert (a + b)[..|a + b| - 1] == a + b[..|b| - 1];
      assert (a + b)[|a + b| - 1] == last;
      HeaderFragmentsConcat(a, b[..|b| - 1]);
    }
  }

  lemma Regroup(a: string, b: string, c: string)
    ensures (a + b) + c == a + (b + c)
  {
  }

  lemma CommandShape(m: string, hf: string, flags: string, u: string)
    ensures var c := ((m + hf) + flags) + u;
      |c| == |m| + |hf| + |flags| + |u| && c[..|m|] == m && c[|c| - |u|..] == u
  {
    var c := ((m + hf) + flags) + u;
    assert c == m + (hf + flags + u);
  }

  lemma Associate(m: string, a: string, frag: string, r: string, flags: string, u: string)
    ensures ((m + (a + frag + r)) + flags) + u == (m + a) + frag + (r + flags + u)
  {
  }

  /**
   * The command starts with "curl -i -X " and the method (or GET), and ends with the
   * serialised URL between double quotes.
   */
  lemma CommandFrame(href: string, init: RequestInit)
    ensures var c := Command(href, init); var m := MethodFragment(init.fields.requestMethod);
      |c| >= |m| + |href| + 3
      && c[..11] == "curl -i -X "
      && c[..|m|] == m
      && c[|c| - |href| - 3..] == " \"" + href + "\""
      && (!IsSet(init.fields.requestMethod) ==> c[..14] == "curl -i -X GET")
  {
    var m := MethodFragment(init.fields.requestMethod);
    var hf := HeaderFragments(HeaderEntries(init.headers));
    var u := UrlFragment(href);
    CommandShape(m, hf, Flags(init.fields), u);
    var c := Command(href, init);
    assert c == ((m + hf) + Flags(init.fields)) + u;
    assert c[..11] == m[..11];
  }

  /**
   * Every header entry appears in the command verbatim, as ` -H "key: value"`, between
   * the fragments of the entries before it and those of the entries after it: no quote or
   * shell character in a key or value is escaped.
   */
  lemma HeaderVerbatim(href: string, init: RequestInit, i: int)
    requires Truthy(init.headers) && 0 <= i < |OwnEntries(init.headers)|
    ensures var es := OwnEntries(init.headers);
      Command(href, init)
      == (MethodFragment(init.fields.requestMethod) + HeaderFragments(es[..i]))
         + (" -H \"" + es[i].0 + ": " + es[i].1 + "\"")
         + (HeaderFragments(es[i + 1..]) + Flags(init.fields) + UrlFragment(href))
  {
    var es := OwnEntries(init.headers);
    assert HeaderEntries(init.headers) == es;
    CommandPieces(href, init);
    FragmentsAround(es, i);
    Associate(MethodFragment(init.fields.requestMethod), HeaderFragments(es[..i]), HeaderFragment(es[i]),
              HeaderFragments(es[i + 1..]), Flags(init.fields), UrlFragment(href));
  }

  /** A command is its method, header, flag and URL fragments, concatenated in that order. */
  lemma CommandPieces(href: string, init: RequestInit)
    ensures Command(href, init)
      == ((MethodFragment(init.fields.requestMethod) + HeaderFragments(HeaderEntries(init.headers)))
          + Flags(init.fields)) + UrlFragment(href)
  {
  }

  /** The fragments of a list are those before an entry, the entry's, and those after it. */
  lemma FragmentsAround(es: seq<(string, string)>, i: int)
    requires 0 <= i < |es|
    ensures HeaderFragments(es) == HeaderFragments(es[..i]) + HeaderFragment(es[i]) + HeaderFragments(es[i + 1..])
  {
    SplitAt(es, i);
    HeaderFragmentsConcat(es[..i] + [es[i]], es[i + 1..]);
    HeaderFragmentsConcat(es[..i], [es[i]]);
    assert HeaderFragments([es[i]]) == HeaderFragment(es[i]) by {
      assert [es[i]][..0] == [];
    }
  }

  lemma SplitAt<T>(s: seq<T>, i: int)
    requires 0 <= i < |s|
    ensures s == s[..i] + [s[i]] + s[i + 1..]
  {
  }

  /**
   * In the curl path a `params` record under `headers` is not applied to the URL: it
   * becomes the header fragment ` -H "params: [object Object]"`.
   */
  lemma ParamsBecomeHeader(href: string, es: seq<(string, Field)>, fields: InitFields, i: int)
    requires 0 <= i < |es| && es[i].0 == "params" && es[i].1.Params?
    ensures var init := RequestInit(Record(es), fields);
      var entries := OwnEntries(Record(es));
      Command(href, init)
      == (MethodFragment(fields.requestMethod) + HeaderFragments(entries[..i]))
         + (" -H \"" + "params" + ": " + "[object Object]" + "\"")
         + (HeaderFragments(entries[i + 1..]) + Flags(fields) + UrlFragment(href))
  {
    var init := RequestInit(Record(es), fields);
    var entries := OwnEntries(init.headers);
    assert entries[i] == ("params", "[object Object]");
    HeaderVerbatim(href, init, i);
  }

  /**
   * Mode, referrer policy, integrity, keep-alive and same-origin credentials only warn:
   * they never change the command.
   */
  lemma WarnedOptionsLeaveCommand(href: string, h: HeaderSpec, f: InitFields,
                                  mode: Option<string>, policy: Option<string>, integrity: Option<string>, keepalive: bool)
    ensures var g := f.(mode := mode, referrerPolicy := policy, integrity := integrity, keepalive := keepalive);
      Command(href, RequestInit(h, g)) == Command(href, RequestInit(h, f))
    ensures Command(href, RequestInit(h, f.(credentials := Some("same-origin"))))
         == Command(href, RequestInit(h, f.(credentials := None)))
  {
  }

  /** No warning is printed exactly when no option outside curl's reach is set. */
  lemma NoWarningsIff(f: InitFields)
    ensures Warnings(f) == [] <==>
      f.mode != Some("no-cors") && f.credentials != Some("same-origin")
      && !IsSet(f.referrerPolicy) && !IsSet(f.integrity) && !f.keepalive
  {
  }

  /** A request with every supported flag, written out fragment by fragment. */
  lemma CommandExample()
    ensures Command("https://example.com/a?b=1",
                    RequestInit(Record([("Accept", Text("text/plain"))]),
                                InitFields(Some("POST"), StringBody("x=1"), None, Some("include"),
                                           Some("reload"), Some("manual"), Some("https://r/"), None, None, false)))
         == (("curl -i -X " + "POST") + (" -H \"" + "Accept" + ": " + "text/plain" + "\""))
            + ((" -d '" + "x=1" + "'") + " --include" + " --no-cache" + " -w \"%{redirect_url}\" -o /dev/null"
               + (" -e \"" + "https://r/" + "\""))
            + (" \"" + "https://example.com/a?b=1" + "\"")
  {
    var es := OwnEntries(Record([("Accept", Text("text/plain"))]));
    assert es == [("Accept", "text/plain")];
    assert es[..0] == [];
  }
}
