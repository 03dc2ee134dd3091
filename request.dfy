/**
 * src/request.ts: `buildRequest`, `setCookie`, and the redirect loop of
 * `requestInternal` / `_resolve`. Sockets, TLS, clocks and the foreign
 * libraries are the parameters gathered in `Foreign`; the promise machinery
 * becomes a loop over hops whose outcome is resolved, rejected, or never
 * settled.
 */
module Requests {
  import opened Wrappers
  import opened Text
  import opened Framing
  import opened Urls
  import opened Pick
  import opened Headers
  import opened Descriptor
  import opened Responses

  // ---------------------------------------------------------------- options

  /** The kinds of `options.data` the core distinguishes (`typeof null` is `'object'`). */
  datatype Data = NoData | NullData | BufferData(bytes: Bytes) | ObjectData | ScalarData

  /** `typeof options.data === 'object' && !(options.data instanceof Buffer)` */
  predicate IsJsonLike(d: Data)
  {
    d.NullData? || d.ObjectData?
  }

  /** `options.headers`: a list of pairs, or an object listed in key-iteration order. */
  datatype CallerHeaders = PairList(pairs: seq<(string, string)>) | HeaderDict(entries: seq<(string, HeaderValue)>)

  /** An authorisation type other than `'basic'`, which `buildRequest` rejects. */
  type OtherKind = k: string | k != "basic" witness "digest"

  datatype Authorisation = Basic(username: string, password: string) | OtherAuth(kind: OtherKind)

  /** The `Options` of `request`; `None` is an absent option. The `setCookie` callback is recorded, not called. */
  datatype Options = Options(
    data: Data,
    followLocation: bool,
    getCookie: Option<string -> HeaderValue>,
    setCookie: bool,
    headers: Option<CallerHeaders>,
    inflate: Option<bool>,
    maxRedirect: Option<int>,
    proxy: Option<string>,
    setHost: Option<bool>,
    timeout: Option<int>,
    httpMethod: Option<string>,
    authorisation: Option<Authorisation>)

  /** The network exchange of one hop (`execute`): the message and its body, or the error it rejects with. */
  datatype Reply = Reply(statusCode: Option<int>, headers: HeaderMap, httpVersion: string, body: Bytes)
  datatype Exchange = Answered(reply: Reply) | Failed(error: string)

  /** Everything foreign: Node's `url.parse` and `url.resolve`, base64, zlib's inflate, the package version, the network and the clock. */
  datatype Foreign = Foreign(
    parse: Parser,
    base64: string -> string,
    version: string,
    exchange: (map<string, Value>, seq<Header<HeaderValue>>, Data) -> Exchange,
    resolve: (string, string) -> string,
    inflate: (Bytes, string) -> Bytes,
    fetchStart: int,
    fetchEnd: int)

  // ---------------------------------------------------------------- buildRequest: properties

  predicate StrTruthy(o: Option<string>)
  {
    o.Some? && o.value != ""
  }

  /** A template literal `${x}` of an optional string. */
  function Show(o: Option<string>): string
  {
    if o.Some? then o.value else "undefined"
  }

  predicate HeaderTruthy(v: HeaderValue)
  {
    match v
    case HStr(s) => s != ""
    case HNum(n) => n != 0
    case HList(_) => true
    case HUndefined => false
    case HNull => false
  }

  const UrlKeys: seq<string> := ["protocol", "hostname", "path"]
  const OptionKeys: seq<string> := ["method", "timeout"]

  /** The parsed URL as an object: `protocol`, `hostname` and `path` are always present (possibly `null`). */
  function UrlProps(url: ParsedUrl): map<string, Value>
  {
    map["protocol" := OfOption(url.protocol), "hostname" := OfOption(url.hostname), "path" := OfOption(url.path)]
  }

  /** The options object as far as `pickAssign` looks at it. */
  function OptionProps(o: Options): map<string, Value>
  {
    var m := if o.httpMethod.Some? then map["method" := Str(o.httpMethod.value)] else map[];
    if o.timeout.Some? then m["timeout" := Num(o.timeout.value)] else m
  }

  function DefaultMethod(d: Data): string
  {
    if d.NoData? then "GET" else "POST"
  }

  /** Properties taken from the URL: the picked fields, then `port` and `auth` when present. */
  function UrlStep(url: ParsedUrl): map<string, Value>
  {
    var p0 := Picked(map[], UrlProps(url), UrlKeys);
    var p1 := if StrTruthy(url.port) then p0["port" := ParseInt(url.port.value)] else p0;
    if StrTruthy(url.username) || StrTruthy(url.password) then p1["auth" := Str(Show(url.username) + ":" + Show(url.password))]
    else p1
  }

  /** `if (!request.method) request.method = ...` */
  function MethodStep(p: map<string, Value>, d: Data): map<string, Value>
  {
    var m := Get(p, "method");
    if m.Some? && Descriptor.Truthy(m.value) then p else p["method" := Str(DefaultMethod(d))]
  }

  /** The properties before the proxy step. */
  function BaseProps(url: ParsedUrl, o: Options): map<string, Value>
  {
    MethodStep(Picked(UrlStep(url), OptionProps(o), OptionKeys), o.data)
  }

  /** The properties of the descriptor `buildRequest` returns. */
  function RequestProps(url: ParsedUrl, o: Options, parse: Parser): map<string, Value>
  {
    var b := BaseProps(url, o);
    if StrTruthy(o.proxy) then Proxied(b, parse(Rewrite(o.proxy.value)), url, false) else b
  }

  // ---------------------------------------------------------------- buildRequest: headers

  function DefaultHeaders(version: string): seq<Header<HeaderValue>>
  {
    [ Header("Accept-Encoding", HStr("gzip, deflate")),
      Header("Accept-Language", HStr("en-AU,en;q=0.9")),
      Header("Connection", HStr("keep-alive")),
      Header("User-Agent", HStr("Mozilla/5.0 Yareq/" + version)) ]
  }

  function CopyPairs(ps: seq<(string, string)>): (hs: seq<Header<HeaderValue>>)
    ensures |hs| == |ps|
    ensures forall i :: 0 <= i < |ps| ==> hs[i] == Header(ps[i].0, HStr(ps[i].1))
  {
    if ps == [] then [] else CopyPairs(ps[..|ps| - 1]) + [Header(ps[|ps| - 1].0, HStr(ps[|ps| - 1].1))]
  }

  function CopyEntries(es: seq<(string, HeaderValue)>): (hs: seq<Header<HeaderValue>>)
    ensures |hs| == |es|
    ensures forall i :: 0 <= i < |es| ==> hs[i] == Header(es[i].0, es[i].1)
  {
    if es == [] then [] else CopyEntries(es[..|es| - 1]) + [Header(es[|es| - 1].0, es[|es| - 1].1)]
  }

  /** The header list before any `setHeader`: the caller's, copied in order and with duplicates, or the defaults. */
  function InitialHeaders(h: Option<CallerHeaders>, version: string): seq<Header<HeaderValue>>
  {
    match h
    case None => DefaultHeaders(version)
    case Some(PairList(ps)) => CopyPairs(ps)
    case Some(HeaderDict(es)) => CopyEntries(es)
  }

  function HostValue(url: ParsedUrl): HeaderValue
  {
    if url.host.Some? then HStr(url.host.value) else HNull
  }

  function BasicValue(username: string, password: string, base64: string -> string): HeaderValue
  {
    HStr("Basic " + base64(username + ":" + password))
  }

  predicate Unsupported(o: Options)
  {
    o.authorisation.Some? && o.authorisation.value.OtherAuth?
  }

  function WithContentType(hs: seq<Header<HeaderValue>>, o: Options): seq<Header<HeaderValue>>
  {
    if IsJsonLike(o.data) then Upsert(hs, "Content-Type", HStr("application/json")) else hs
  }

  function WithHost(hs: seq<Header<HeaderValue>>, url: ParsedUrl, o: Options): seq<Header<HeaderValue>>
  {
    if o.setHost != Some(false) then Upsert(hs, "Host", HostValue(url)) else hs
  }

  function WithAuthorization(hs: seq<Header<HeaderValue>>, o: Options, base64: string -> string): seq<Header<HeaderValue>>
  {
    match o.authorisation
    case Some(Basic(u, p)) => Upsert(hs, "Authorization", BasicValue(u, p, base64))
    case _ => hs
  }

  /** What `getCookie(url.href)` returns, when there is a callback. */
  function CookieOf(url: ParsedUrl, o: Options): Option<HeaderValue>
  {
    if o.getCookie.Some? then Some(o.getCookie.value(url.href)) else None
  }

  function WithCookie(hs: seq<Header<HeaderValue>>, url: ParsedUrl, o: Options): seq<Header<HeaderValue>>
  {
    var c := CookieOf(url, o);
    if c.Some? && HeaderTruthy(c.value) then Upsert(hs, "Cookie", c.value) else hs
  }

  /** The header list of the descriptor `buildRequest` returns. */
  function RequestHeaders(url: ParsedUrl, o: Options, f: Foreign): seq<Header<HeaderValue>>
  {
    var h0 := InitialHeaders(o.headers, f.version);
    WithCookie(WithAuthorization(WithHost(WithContentType(h0, o), url, o), o, f.base64), url, o)
  }

  function AuthError(kind: string): string
  {
    "Unsupported authorisation type: " + kind
  }

  // ---------------------------------------------------------------- buildRequest: the method

  /** The `options.headers !== undefined` branch: a fresh array filled by `push` in order. */
  method CopyHeaders(h: CallerHeaders) returns (list: HeaderList<HeaderValue>)
    ensures fresh(list)
    ensures list.entries == InitialHeaders(Some(h), "")
  {
    list := new HeaderList([]);
    match h
    case PairList(ps) =>
      var i := 0;
      while i < |ps|
        invariant 0 <= i <= |ps|
        invariant list.entries == CopyPairs(ps[..i])
      {
        assert ps[..i + 1][..i] == ps[..i];
        list.Push(Header(ps[i].0, HStr(ps[i].1)));
        i := i + 1;
      }
      assert ps[..|ps|] == ps;
    case HeaderDict(es) =>
      var i := 0;
      while i < |es|
        invariant 0 <= i <= |es|
        invariant list.entries == CopyEntries(es[..i])
      {
        assert es[..i + 1][..i] == es[..i];
        list.Push(Header(es[i].0, es[i].1));
        i := i + 1;
      }
      assert es[..|es|] == es;
  }

  /**
   * The first half of `buildRequest`: the properties taken from the URL and
   * the options, the default method, and the initial header list.
   */
  method BaseDescriptor(url: ParsedUrl, o: Options, version: string) returns (request: RequestOptions)
    ensures fresh(request) && fresh(request.props) && fresh(request.headers)
    ensures request.props.fields == BaseProps(url, o)
    ensures request.headers.entries == InitialHeaders(o.headers, version)
  {
    request := new RequestOptions();
    AssignProps(request.props, url, o);
    if o.headers.Some? {
      request.headers := CopyHeaders(o.headers.value);
    } else {
      request.headers := new HeaderList(DefaultHeaders(version));
    }
  }

  /** The property assignments of `buildRequest` on a fresh, empty descriptor. */
  method AssignProps(props: Record<Value>, url: ParsedUrl, o: Options)
    requires props.fields == map[]
    modifies props
    ensures props.fields == BaseProps(url, o)
  {
    var _ := PickAssign(props, Some(UrlProps(url)), UrlKeys);
    if StrTruthy(url.port) {
      props.fields := props.fields["port" := ParseInt(url.port.value)];
    }
    if StrTruthy(url.username) || StrTruthy(url.password) {
      props.fields := props.fields["auth" := Str(Show(url.username) + ":" + Show(url.password))];
    }
    assert props.fields == UrlStep(url);
    var _ := PickAssign(props, Some(OptionProps(o)), OptionKeys);
    var m := Get(props.fields, "method");
    if !(m.Some? && Descriptor.Truthy(m.value)) {
      props.fields := props.fields["method" := Str(DefaultMethod(o.data))];
    }
  }

  /** `if (typeof options.data === 'object' && ...) setHeader(headers, 'Content-Type', ...)` */
  method AddContentType(list: HeaderList<HeaderValue>, o: Options)
    modifies list
    ensures list.entries == WithContentType(old(list.entries), o)
  {
    if IsJsonLike(o.data) {
      list.SetHeader("Content-Type", HStr("application/json"));
    }
  }

  /** `if (options.setHost !== false) setHeader(headers, 'Host', url.host)` */
  method AddHost(list: HeaderList<HeaderValue>, url: ParsedUrl, o: Options)
    modifies list
    ensures list.entries == WithHost(old(list.entries), url, o)
  {
    if o.setHost != Some(false) {
      list.SetHeader("Host", HostValue(url));
    }
  }

  /** The authorisation step; `false` where `buildRequest` throws, with the list untouched. */
  method AddAuthorization(list: HeaderList<HeaderValue>, o: Options, base64: string -> string) returns (supported: bool)
    modifies list
    ensures supported <==> !Unsupported(o)
    ensures list.entries == if supported then WithAuthorization(old(list.entries), o, base64) else old(list.entries)
  {
    supported := true;
    if o.authorisation.Some? {
      match o.authorisation.value
      case Basic(username, password) =>
        list.SetHeader("Authorization", BasicValue(username, password, base64));
      case OtherAuth(_) =>
        supported := false;
    }
  }

  /** `const cookie = options.getCookie(url.href); if (cookie) setHeader(headers, 'Cookie', cookie)` */
  method AddCookie(list: HeaderList<HeaderValue>, url: ParsedUrl, o: Options)
    modifies list
    ensures list.entries == WithCookie(old(list.entries), url, o)
  {
    if o.getCookie.Some? {
      var cookie := o.getCookie.value(url.href);
      if HeaderTruthy(cookie) {
        list.SetHeader("Cookie", cookie);
      }
    }
  }

  /**
   * `buildRequest(url, options)`. An unsupported authorisation type throws,
   * and no descriptor comes back.
   */
  method BuildRequest(url: ParsedUrl, o: Options, f: Foreign) returns (r: Result<RequestOptions, string>)
    ensures r.Err? <==> Unsupported(o)
    ensures r.Err? ==> r.error == AuthError(o.authorisation.value.kind)
    ensures r.Ok? ==> fresh(r.value) && fresh(r.value.props) && fresh(r.value.headers)
    ensures r.Ok? ==> r.value.props.fields == RequestProps(url, o, f.parse)
    ensures r.Ok? ==> r.value.headers.entries == RequestHeaders(url, o, f)
  {
    var request := BaseDescriptor(url, o, f.version);
    AddContentType(request.headers, o);
    AddHost(request.headers, url, o);
    var supported := AddAuthorization(request.headers, o, f.base64);
    if !supported {
      return Err(AuthError(o.authorisation.value.kind));
    }
    if StrTruthy(o.proxy) {
      SetProxy(request, o.proxy.value, url, f.parse, false);
    }
    AddCookie(request.headers, url, o);
    return Ok(request);
  }

  // ---------------------------------------------------------------- buildRequest: properties proved

  /** The method is the caller's when non-empty, else GET without data and POST with data; a proxy does not change it. */
  lemma MethodChosen(url: ParsedUrl, o: Options, parse: Parser)
    ensures var p := RequestProps(url, o, parse);
      "method" in p &&
      p["method"] == Str(if o.httpMethod.Some? && o.httpMethod.value != "" then o.httpMethod.value else DefaultMethod(o.data))
  {
    var q := Picked(UrlStep(url), OptionProps(o), OptionKeys);
    PickedAt(UrlStep(url), OptionProps(o), OptionKeys, "method");
    PickedAt(map[], UrlProps(url), UrlKeys, "method");
    assert "method" !in UrlKeys;
    assert "method" !in UrlStep(url);
    assert "method" in OptionKeys;
    var b := BaseProps(url, o);
    assert "method" in b;
    if StrTruthy(o.proxy) {
      var proxy := parse(Rewrite(o.proxy.value));
      match RouteOf(b, proxy)
      case ViaSocks => ProxiedSocks(b, proxy, url, false);
      case ViaHttpProxy => ProxiedHttp(b, proxy, url, false);
      case ViaTunnel => ProxiedTunnel(b, proxy, url, false);
    }
  }

  /**
   * Without a proxy, `port` is set exactly when the URL has a port (to its
   * `parseInt`), and `auth` exactly when it has a user name or password.
   */
  lemma PortAndAuth(url: ParsedUrl, o: Options, parse: Parser)
    requires !StrTruthy(o.proxy)
    ensures var p := RequestProps(url, o, parse);
      && ("port" in p <==> StrTruthy(url.port))
      && (StrTruthy(url.port) ==> p["port"] == ParseInt(url.port.value))
      && ("auth" in p <==> StrTruthy(url.username) || StrTruthy(url.password))
      && ("auth" in p ==> p["auth"] == Str(Show(url.username) + ":" + Show(url.password)))
  {
    var u := UrlStep(url);
    PickedAt(map[], UrlProps(url), UrlKeys, "port");
    PickedAt(map[], UrlProps(url), UrlKeys, "auth");
    PickedAt(u, OptionProps(o), OptionKeys, "port");
    PickedAt(u, OptionProps(o), OptionKeys, "auth");
    assert "port" !in OptionKeys && "auth" !in OptionKeys;
    assert "port" !in UrlKeys && "auth" !in UrlKeys;
  }

  /** Whatever the proxy, `auth` is set exactly when the parsed URL has a non-empty user name or password. */
  lemma AuthFromCredentials(url: ParsedUrl, o: Options, parse: Parser)
    ensures "auth" in RequestProps(url, o, parse) <==> StrTruthy(url.username) || StrTruthy(url.password)
  {
    PickedAt(map[], UrlProps(url), UrlKeys, "auth");
    PickedAt(UrlStep(url), OptionProps(o), OptionKeys, "auth");
    assert "auth" !in OptionKeys && "auth" !in UrlKeys;
    var b := BaseProps(url, o);
    assert "auth" in b <==> StrTruthy(url.username) || StrTruthy(url.password);
    if StrTruthy(o.proxy) {
      var proxy := parse(Rewrite(o.proxy.value));
      match RouteOf(b, proxy)
      case ViaSocks => ProxiedSocks(b, proxy, url, false);
      case ViaHttpProxy => ProxiedHttp(b, proxy, url, false);
      case ViaTunnel => ProxiedTunnel(b, proxy, url, false);
    }
  }

  /**
   * Node's legacy `url.parse` puts credentials in an `auth` field and never
   * fills `username` or `password`.
   */
  ghost predicate CredentialFree(parse: Parser)
  {
    forall s :: parse(s).username.None? && parse(s).password.None?
  }

  /** With such a parser, credentials in the target URL never reach the request's `auth`. */
  lemma CredentialsDropped(t: Target, o: Options, parse: Parser)
    requires CredentialFree(parse)
    ensures "auth" !in RequestProps(ParseUrl(t, parse), o, parse)
  {
    var url := ParseUrl(t, parse);
    assert url == parse(Rewrite(t.Href()));
    AuthFromCredentials(url, o, parse);
  }

  /** The names `buildRequest` may upsert, lower-cased. */
  function ManagedNames(): set<string>
  {
    {Lower("Content-Type"), Lower("Host"), Lower("Authorization"), Lower("Cookie")}
  }

  /** Apart from the four managed headers, the caller's (or the default) list passes through unchanged and in order. */
  lemma CallerHeadersKept(url: ParsedUrl, o: Options, f: Foreign)
    ensures Without(RequestHeaders(url, o, f), ManagedNames()) == Without(InitialHeaders(o.headers, f.version), ManagedNames())
  {
    var names := ManagedNames();
    var h0 := InitialHeaders(o.headers, f.version);
    var h1 := WithContentType(h0, o);
    var h2 := WithHost(h1, url, o);
    var h3 := WithAuthorization(h2, o, f.base64);
    if IsJsonLike(o.data) {
      UpsertKeepsOthers(h0, "Content-Type", HStr("application/json"), names);
    }
    if o.setHost != Some(false) {
      UpsertKeepsOthers(h1, "Host", HostValue(url), names);
    }
    if o.authorisation.Some? && o.authorisation.value.Basic? {
      var a := o.authorisation.value;
      UpsertKeepsOthers(h2, "Authorization", BasicValue(a.username, a.password, f.base64), names);
    }
    var c := CookieOf(url, o);
    if c.Some? && HeaderTruthy(c.value) {
      UpsertKeepsOthers(h3, "Cookie", c.value, names);
    }
  }

  /** The header an upsert writes is in the result. */
  lemma UpsertHas<V>(hs: seq<Header<V>>, key: string, value: V)
    ensures Header(key, value) in Upsert(hs, key, value)
  {
    var i := Position(hs, Lower(key));
    assert Upsert(hs, key, value)[i] == Header(key, value);
  }

  /** Names of different lengths stay different after lower-casing. */
  lemma LowerDiffers(a: string, b: string)
    requires |a| != |b|
    ensures Lower(a) != Lower(b)
  {
  }

  /** Data that is a non-Buffer object (or `null`) yields a JSON content type, which survives the later steps. */
  lemma ContentTypeSet(url: ParsedUrl, o: Options, f: Foreign)
    requires IsJsonLike(o.data)
    ensures Header("Content-Type", HStr("application/json")) in RequestHeaders(url, o, f)
  {
    var e := Header("Content-Type", HStr("application/json"));
    var h1 := WithContentType(InitialHeaders(o.headers, f.version), o);
    UpsertHas(InitialHeaders(o.headers, f.version), "Content-Type", HStr("application/json"));
    LowerDiffers("Content-Type", "Host");
    LowerDiffers("Content-Type", "Authorization");
    LowerDiffers("Content-Type", "Cookie");
    var h2 := WithHost(h1, url, o);
    if o.setHost != Some(false) {
      UpsertKeepsEntry(h1, "Host", HostValue(url), e);
    }
    var h3 := WithAuthorization(h2, o, f.base64);
    if o.authorisation.Some? && o.authorisation.value.Basic? {
      var a := o.authorisation.value;
      UpsertKeepsEntry(h2, "Authorization", BasicValue(a.username, a.password, f.base64), e);
    }
    var c := CookieOf(url, o);
    if c.Some? && HeaderTruthy(c.value) {
      UpsertKeepsEntry(h3, "Cookie", c.value, e);
    }
  }

  /** Unless `setHost` is given and false, the Host header holds the URL's host. */
  lemma HostSet(url: ParsedUrl, o: Options, f: Foreign)
    requires o.setHost != Some(false)
    ensures Header("Host", HostValue(url)) in RequestHeaders(url, o, f)
  {
    var e := Header("Host", HostValue(url));
    var h1 := WithContentType(InitialHeaders(o.headers, f.version), o);
    var h2 := WithHost(h1, url, o);
    UpsertHas(h1, "Host", HostValue(url));
    LowerDiffers("Host", "Authorization");
    LowerDiffers("Host", "Cookie");
    var h3 := WithAuthorization(h2, o, f.base64);
    if o.authorisation.Some? && o.authorisation.value.Basic? {
      var a := o.authorisation.value;
      UpsertKeepsEntry(h2, "Authorization", BasicValue(a.username, a.password, f.base64), e);
    }
    var c := CookieOf(url, o);
    if c.Some? && HeaderTruthy(c.value) {
      UpsertKeepsEntry(h3, "Cookie", c.value, e);
    }
  }

  /** Basic authorisation yields `Authorization: Basic <base64(user:pass)>`. */
  lemma AuthorizationSet(url: ParsedUrl, o: Options, f: Foreign, username: string, password: string)
    requires o.authorisation == Some(Basic(username, password))
    ensures Header("Authorization", BasicValue(username, password, f.base64)) in RequestHeaders(url, o, f)
  {
    var e := Header("Authorization", BasicValue(username, password, f.base64));
    var h2 := WithHost(WithContentType(InitialHeaders(o.headers, f.version), o), url, o);
    var h3 := WithAuthorization(h2, o, f.base64);
    UpsertHas(h2, "Authorization", BasicValue(username, password, f.base64));
    LowerDiffers("Authorization", "Cookie");
    var c := CookieOf(url, o);
    if c.Some? && HeaderTruthy(c.value) {
      UpsertKeepsEntry(h3, "Cookie", c.value, e);
    }
  }

  /** A truthy cookie from `getCookie(url.href)` is upserted; a falsy one leaves the list as if there were no callback. */
  lemma CookieSet(url: ParsedUrl, o: Options, f: Foreign)
    requires o.getCookie.Some?
    ensures var c := o.getCookie.value(url.href);
      && (HeaderTruthy(c) ==> Header("Cookie", c) in RequestHeaders(url, o, f))
      && (!HeaderTruthy(c) ==> RequestHeaders(url, o, f) == RequestHeaders(url, o.(getCookie := None), f))
  {
    var c := o.getCookie.value(url.href);
    var h3 := WithAuthorization(WithHost(WithContentType(InitialHeaders(o.headers, f.version), o), url, o), o, f.base64);
    if HeaderTruthy(c) {
      UpsertHas(h3, "Cookie", c);
    }
  }

  /** Letters compare as their lower-case forms once the names agree on a prefix. */
  lemma {:induction false} LowerLess(a: string, b: string, i: nat)
    requires i < |a| && i < |b| && a[..i] == b[..i] && LowerChar(a[i]) < LowerChar(b[i])
    ensures Less(Lower(a), Lower(b))
  {
    if i > 0 {
      assert a[0] == b[0];
      assert Lower(a)[1..] == Lower(a[1..]) && Lower(b)[1..] == Lower(b[1..]);
      assert a[1..][..i - 1] == b[1..][..i - 1];
      LowerLess(a[1..], b[1..], i - 1);
    }
  }

  /** The default list is sorted and free of duplicates by lower-cased name. */
  lemma DefaultHeadersSorted(version: string)
    ensures StrictlySorted(DefaultHeaders(version))
  {
    var hs := DefaultHeaders(version);
    var lo := seq(4, i requires 0 <= i < 4 => Lower(hs[i].name));
    LowerLess("Accept-Encoding", "Accept-Language", 7);
    LowerLess("Accept-Language", "Connection", 0);
    LowerLess("Connection", "User-Agent", 0);
    assert Less(lo[0], lo[1]) && Less(lo[1], lo[2]) && Less(lo[2], lo[3]);
    LessTransitive(lo[0], lo[1], lo[2]);
    LessTransitive(lo[1], lo[2], lo[3]);
    LessTransitive(lo[0], lo[2], lo[3]);
  }

  /**
   * With the default headers, every upsert lands in order: the final list
   * is still sorted and free of duplicates by lower-cased name.
   */
  lemma DefaultRequestSorted(url: ParsedUrl, o: Options, f: Foreign)
    requires o.headers.None?
    ensures StrictlySorted(RequestHeaders(url, o, f))
  {
    var h0 := InitialHeaders(o.headers, f.version);
    DefaultHeadersSorted(f.version);
    var h1 := WithContentType(h0, o);
    if IsJsonLike(o.data) {
      UpsertSorted(h0, "Content-Type", HStr("application/json"));
    }
    var h2 := WithHost(h1, url, o);
    if o.setHost != Some(false) {
      UpsertSorted(h1, "Host", HostValue(url));
    }
    var h3 := WithAuthorization(h2, o, f.base64);
    if o.authorisation.Some? && o.authorisation.value.Basic? {
      var a := o.authorisation.value;
      UpsertSorted(h2, "Authorization", BasicValue(a.username, a.password, f.base64));
    }
    var c := CookieOf(url, o);
    if c.Some? && HeaderTruthy(c.value) {
      UpsertSorted(h3, "Cookie", c.value);
    }
  }

  // ---------------------------------------------------------------- setCookie

  /** The `(cookie, url)` calls `setCookie` makes: one per value, in order, when there are cookies and a callback. */
  function CookieCalls(o: Options, cookie: Option<Incoming>, url: string): (calls: seq<(string, string)>)
    ensures !o.setCookie || cookie.None? ==> calls == []
    ensures o.setCookie && cookie.Some? && cookie.value.Single? ==>
      calls == if cookie.value.s == "" then [] else [(cookie.value.s, url)]
    ensures o.setCookie && cookie.Some? && cookie.value.Multi? ==>
      |calls| == |cookie.value.items| && forall i :: 0 <= i < |calls| ==> calls[i] == (cookie.value.items[i], url)
  {
    if !o.setCookie || cookie.None? then []
    else match cookie.value
      case Single(s) => if s == "" then [] else [(s, url)]
      case Multi(items) => Calls(items, url)
  }

  function Calls(items: seq<string>, url: string): (calls: seq<(string, string)>)
    ensures |calls| == |items| && forall i :: 0 <= i < |calls| ==> calls[i] == (items[i], url)
  {
    if items == [] then [] else Calls(items[..|items| - 1], url) + [(items[|items| - 1], url)]
  }

  /** `setCookie(options, cookie, url)`: returns the calls made to the callback, in order. */
  method SetCookie(o: Options, cookie: Option<Incoming>, url: Target) returns (calls: seq<(string, string)>)
    ensures calls == CookieCalls(o, cookie, url.Href())
  {
    calls := [];
    if cookie.Some? && o.setCookie {
      match cookie.value
      case Single(s) =>
        if s != "" {
          calls := calls + [(s, url.Href())];
        }
      case Multi(items) =>
        var i := 0;
        while i < |items|
          invariant 0 <= i <= |items|
          invariant calls == Calls(items[..i], url.Href())
        {
          assert items[..i + 1][..i] == items[..i];
          calls := calls + [(items[i], url.Href())];
          i := i + 1;
        }
        assert items[..|items|] == items;
    }
  }

  // ---------------------------------------------------------------- the redirect loop

  /** `maxRedirect || 50` */
  function Limit(o: Options): int
  {
    if o.maxRedirect.Some? && o.maxRedirect.value != 0 then o.maxRedirect.value else 50
  }

  /** `header || ''` as a string (an array is joined with commas). */
  function HeaderText(headers: HeaderMap, name: string): string
  {
    match Lookup(headers, name)
    case None => ""
    case Some(Single(s)) => s
    case Some(Multi(items)) => Join(items, ",")
  }

  /** `options.inflate !== false && /gzip|deflate/.test(encoding)` */
  predicate ShouldInflate(o: Options, headers: HeaderMap)
  {
    var enc := HeaderText(headers, "content-encoding");
    o.inflate != Some(false) && (Contains(enc, "gzip") || Contains(enc, "deflate"))
  }

  /** The response of one hop, as `new Response(url, res, content)` builds it. */
  function HopFields(t: Target, reply: Reply, o: Options, f: Foreign): Fields
  {
    var content := if ShouldInflate(o, reply.headers) then f.inflate(reply.body, HeaderText(reply.headers, "content-encoding")) else reply.body;
    Fields(t, StatusOr(reply.statusCode), reply.headers, reply.httpVersion, None, None, None, content)
  }

  /**
   * The response of a hop keeps the hop's target, status (or -1), headers
   * and version; its body is inflated exactly when `inflate` is not `false`
   * and the encoding mentions gzip or deflate.
   */
  lemma HopResponse(t: Target, reply: Reply, o: Options, f: Foreign)
    ensures var r := HopFields(t, reply, o, f);
      && r.url == t && r.statusCode == StatusOr(reply.statusCode) && r.headers == reply.headers
      && r.httpVersion == reply.httpVersion
      && r.fetchStart.None? && r.fetchEnd.None? && r.effectiveUrl.None?
      && (ShouldInflate(o, reply.headers) ==> r.body == f.inflate(reply.body, HeaderText(reply.headers, "content-encoding")))
      && (!ShouldInflate(o, reply.headers) ==> r.body == reply.body)
      && (o.inflate == Some(false) ==> r.body == reply.body)
  {
  }

  predicate IncomingTruthy(v: Incoming)
  {
    v.Multi? || v.s != ""
  }

  /** The condition under which `_resolve` follows a redirect. */
  predicate Redirects(o: Options, r: Fields)
  {
    o.followLocation && 300 <= r.statusCode <= 399 && "location" in r.headers && IncomingTruthy(r.headers["location"])
  }

  /** After at least one redirect the response reports the original target and, as `effectiveUrl`, the last one; both timestamps are set. */
  function FinalFields(r: Fields, count: int, original: Target, f: Foreign): Fields
  {
    var g := if count > 0 then r.(effectiveUrl := Some(r.url.Href()), url := original) else r;
    g.(fetchStart := Some(f.fetchStart), fetchEnd := Some(f.fetchEnd))
  }

  datatype Failure = TooManyRedirects | NetworkError(message: string)

  datatype Outcome = ResolvedWith(fields: Fields) | RejectedWith(failure: Failure) | Unsettled

  /**
   * What a request from hop target `t` with counter `count` comes to: the
   * outcome, the `setCookie` calls, the URLs requested, and the number of
   * redirects followed.
   */
  datatype Trace = Trace(outcome: Outcome, cookies: seq<(string, string)>, visited: seq<string>, hops: nat)

  /** The exchange of one hop to target `t`: the descriptor `buildRequest` makes of its parsed URL, sent. */
  function Attempt(t: Target, o: Options, f: Foreign): Exchange
  {
    var url := ParseUrl(t, f.parse);
    f.exchange(RequestProps(url, o, f.parse), RequestHeaders(url, o, f), o.data)
  }

  /** `Attempt` as a function of the target, for a fixed request. */
  function Exchanges(o: Options, f: Foreign): Target -> Exchange
  {
    t => Attempt(t, o, f)
  }

  /** `resolveUrl(res.url, res.headers.location)` */
  function NextTarget(t: Target, headers: HeaderMap, f: Foreign): Target
  {
    Direct(f.resolve(t.Href(), HeaderText(headers, "location")))
  }

  /**
   * `_request(t)` followed by `_resolve`, with the counter incremented by
   * the test and again before the next hop. The exchange of each hop is
   * `attempt`; `Exchanges(o, f)` is the one the source makes.
   */
  function Run(t: Target, count: int, original: Target, o: Options, f: Foreign, attempt: Target -> Exchange): Trace
    decreases if count < Limit(o) then Limit(o) - count else 0
  {
    if Unsupported(o) then Trace(Unsettled, [], [], 0)
    else
      match attempt(t)
      case Failed(e) => Trace(RejectedWith(NetworkError(e)), [], [t.Href()], 0)
      case Answered(reply) =>
        var cookies := CookieCalls(o, Lookup(reply.headers, "set-cookie"), t.Href());
        var res := HopFields(t, reply, o, f);
        if !Redirects(o, res) then Trace(ResolvedWith(FinalFields(res, count, original, f)), cookies, [t.Href()], 0)
        else if count >= Limit(o) then Trace(RejectedWith(TooManyRedirects), cookies, [t.Href()], 0)
        else
          var next := Run(NextTarget(t, reply.headers, f), count + 2, original, o, f, attempt);
          Trace(next.outcome, cookies + next.cookies, [t.Href()] + next.visited, next.hops + 1)
  }

  /** Whether the hop to `t` with counter `count` is followed by another. */
  predicate Follows(t: Target, count: int, o: Options, f: Foreign, attempt: Target -> Exchange)
  {
    && !Unsupported(o)
    && attempt(t).Answered?
    && Redirects(o, HopFields(t, attempt(t).reply, o, f))
    && count < Limit(o)
  }

  /** A followed hop: the trace is this hop's cookies and URL before the trace of the next. */
  lemma RunFollows(t: Target, count: int, original: Target, o: Options, f: Foreign, attempt: Target -> Exchange)
    requires Follows(t, count, o, f, attempt)
    ensures var reply := attempt(t).reply;
      var next := Run(NextTarget(t, reply.headers, f), count + 2, original, o, f, attempt);
      Run(t, count, original, o, f, attempt) ==
        Trace(next.outcome, CookieCalls(o, Lookup(reply.headers, "set-cookie"), t.Href()) + next.cookies,
              [t.Href()] + next.visited, next.hops + 1)
  {
  }

  /** A hop that is not followed ends the trace there. */
  lemma RunStops(t: Target, count: int, original: Target, o: Options, f: Foreign, attempt: Target -> Exchange)
    requires !Follows(t, count, o, f, attempt)
    ensures Run(t, count, original, o, f, attempt).hops == 0
    ensures Unsupported(o) ==> Run(t, count, original, o, f, attempt) == Trace(Unsettled, [], [], 0)
    ensures !Unsupported(o) ==> Run(t, count, original, o, f, attempt).visited == [t.Href()]
    ensures !Unsupported(o) && attempt(t).Failed? ==>
      Run(t, count, original, o, f, attempt).outcome == RejectedWith(NetworkError(attempt(t).error))
    ensures !Unsupported(o) && attempt(t).Answered? ==>
      var reply := attempt(t).reply;
      var res := HopFields(t, reply, o, f);
      && Run(t, count, original, o, f, attempt).cookies == CookieCalls(o, Lookup(reply.headers, "set-cookie"), t.Href())
      && Run(t, count, original, o, f, attempt).outcome ==
           if Redirects(o, res) then RejectedWith(TooManyRedirects) else ResolvedWith(FinalFields(res, count, original, f))
  {
  }

  /** `ceil(x / 2)` for positive `x`, else 0. */
  function HalfUp(x: int): nat
  {
    if x <= 0 then 0 else (x + 1) / 2
  }

  /**
   * From counter `count`, at most `ceil((limit - count) / 2)` redirects are
   * followed, and exactly that many when the request fails with too many
   * redirects.
   */
  lemma {:induction false} HopBound(t: Target, count: int, original: Target, o: Options, f: Foreign, attempt: Target -> Exchange)
    ensures Run(t, count, original, o, f, attempt).hops <= HalfUp(Limit(o) - count)
    ensures Run(t, count, original, o, f, attempt).outcome == RejectedWith(TooManyRedirects) ==>
      Run(t, count, original, o, f, attempt).hops == HalfUp(Limit(o) - count)
    decreases if count < Limit(o) then Limit(o) - count else 0
  {
    if Follows(t, count, o, f, attempt) {
      var nt := NextTarget(t, attempt(t).reply.headers, f);
      RunFollows(t, count, original, o, f, attempt);
      HopBound(nt, count + 2, original, o, f, attempt);
    } else {
      RunStops(t, count, original, o, f, attempt);
    }
  }

  /**
   * The source's redirect bound: starting from 0, at most `ceil(L / 2)`
   * redirects are followed where `L = maxRedirect || 50`, that is 25 by
   * default, and exactly that many before "Too many redirects".
   */
  lemma RedirectBound(t: Target, o: Options, f: Foreign, attempt: Target -> Exchange)
    ensures Run(t, 0, t, o, f, attempt).hops <= HalfUp(Limit(o))
    ensures Limit(o) == 50 ==> Run(t, 0, t, o, f, attempt).hops <= 25
    ensures Run(t, 0, t, o, f, attempt).outcome == RejectedWith(TooManyRedirects) ==> Run(t, 0, t, o, f, attempt).hops == HalfUp(Limit(o))
  {
    HopBound(t, 0, t, o, f, attempt);
  }

  /** The promise never settles exactly when `buildRequest` throws, which only an unsupported authorisation does. */
  lemma {:induction false} UnsettledIff(t: Target, count: int, original: Target, o: Options, f: Foreign, attempt: Target -> Exchange)
    ensures Run(t, count, original, o, f, attempt).outcome.Unsettled? <==> Unsupported(o)
    ensures Unsupported(o) ==> Run(t, count, original, o, f, attempt).visited == []
    decreases if count < Limit(o) then Limit(o) - count else 0
  {
    if Follows(t, count, o, f, attempt) {
      RunFollows(t, count, original, o, f, attempt);
      UnsettledIff(NextTarget(t, attempt(t).reply.headers, f), count + 2, original, o, f, attempt);
    } else {
      RunStops(t, count, original, o, f, attempt);
    }
  }

  /** One URL is requested per hop, the first being the target. */
  lemma {:induction false} VisitedShape(t: Target, count: int, original: Target, o: Options, f: Foreign, attempt: Target -> Exchange)
    requires !Unsupported(o)
    ensures var tr := Run(t, count, original, o, f, attempt);
      |tr.visited| == tr.hops + 1 && tr.visited[0] == t.Href()
    decreases if count < Limit(o) then Limit(o) - count else 0
  {
    if Follows(t, count, o, f, attempt) {
      RunFollows(t, count, original, o, f, attempt);
      VisitedShape(NextTarget(t, attempt(t).reply.headers, f), count + 2, original, o, f, attempt);
    } else {
      RunStops(t, count, original, o, f, attempt);
    }
  }

  /**
   * A resolved response carries the fetch times, is not itself a redirect to
   * follow, and after a redirect reports the original target, with the last
   * URL requested as `effectiveUrl`.
   */
  lemma {:induction false} ResolvedShape(t: Target, count: int, original: Target, o: Options, f: Foreign, attempt: Target -> Exchange)
    requires !Unsupported(o) && count >= 0
    requires Run(t, count, original, o, f, attempt).outcome.ResolvedWith?
    ensures var tr := Run(t, count, original, o, f, attempt);
      var g := tr.outcome.fields;
      && g.fetchStart == Some(f.fetchStart) && g.fetchEnd == Some(f.fetchEnd)
      && !Redirects(o, g)
      && (count > 0 || tr.hops > 0 ==> g.url == original && g.effectiveUrl == Some(tr.visited[|tr.visited| - 1]))
      && (count == 0 && tr.hops == 0 ==> g.url == t && g.effectiveUrl.None?)
    decreases if count < Limit(o) then Limit(o) - count else 0
  {
    VisitedShape(t, count, original, o, f, attempt);
    if Follows(t, count, o, f, attempt) {
      var nt := NextTarget(t, attempt(t).reply.headers, f);
      RunFollows(t, count, original, o, f, attempt);
      ResolvedShape(nt, count + 2, original, o, f, attempt);
      VisitedShape(nt, count + 2, original, o, f, attempt);
      var next := Run(nt, count + 2, original, o, f, attempt);
      assert ([t.Href()] + next.visited)[|next.visited|] == next.visited[|next.visited| - 1];
    } else {
      RunStops(t, count, original, o, f, attempt);
      var res := HopFields(t, attempt(t).reply, o, f);
      assert res.url == t;
    }
  }

  /** Without `followLocation` no redirect is ever followed. */
  lemma NoFollowNoHops(t: Target, count: int, original: Target, o: Options, f: Foreign, attempt: Target -> Exchange)
    requires !o.followLocation
    ensures Run(t, count, original, o, f, attempt).hops == 0
  {
    RunStops(t, count, original, o, f, attempt);
  }

  /** A followed redirect had a 3xx status and a location, and the counter was below the limit. */
  lemma FollowedWasRedirect(t: Target, count: int, original: Target, o: Options, f: Foreign, attempt: Target -> Exchange)
    requires Run(t, count, original, o, f, attempt).hops > 0
    ensures !Unsupported(o) && attempt(t).Answered?
    ensures var res := HopFields(t, attempt(t).reply, o, f);
      o.followLocation && 300 <= res.statusCode <= 399 && "location" in res.headers && count < Limit(o)
  {
    if !Follows(t, count, o, f, attempt) {
      RunStops(t, count, original, o, f, attempt);
    }
  }

  /** `count`, `cookies`, `visited` and `hops` so far, prepended to the trace of the rest. */
  function Prefix(rest: Trace, cookies: seq<(string, string)>, visited: seq<string>, hops: nat): Trace
  {
    Trace(rest.outcome, cookies + rest.cookies, visited + rest.visited, hops + rest.hops)
  }

  /** What `_request(t)` comes to: a throw in `buildRequest`, a rejection of `execute`, or a response. */
  datatype HopResult = NotBuilt | NoAnswer(error: string) | Answer(reply: Reply, calls: seq<(string, string)>, response: Response)

  /**
   * `_request(t)`: build the request, run the exchange, forward the cookies,
   * inflate when asked to, and wrap the result in a `Response`.
   */
  method Request(t: Target, o: Options, f: Foreign) returns (h: HopResult)
    ensures h.NotBuilt? <==> Unsupported(o)
    ensures h.NoAnswer? ==> Attempt(t, o, f) == Failed(h.error)
    ensures h.Answer? ==> && Attempt(t, o, f) == Answered(h.reply)
                          && h.calls == CookieCalls(o, Lookup(h.reply.headers, "set-cookie"), t.Href())
                          && fresh(h.response)
                          && h.response.Snapshot() == HopFields(t, h.reply, o, f)
  {
    var built := BuildRequest(ParseUrl(t, f.parse), o, f);
    if built.Err? {
      return NotBuilt;
    }
    var request := built.value;
    var exchange := f.exchange(request.props.fields, request.headers.entries, o.data);
    if exchange.Failed? {
      return NoAnswer(exchange.error);
    }
    var reply := exchange.reply;
    var calls := SetCookie(o, Lookup(reply.headers, "set-cookie"), t);
    var encoding := HeaderText(reply.headers, "content-encoding");
    var content := if ShouldInflate(o, reply.headers) then f.inflate(reply.body, encoding) else reply.body;
    var res := new Response(t, MessageInfo(reply.httpVersion, reply.statusCode, HeaderObject(reply.headers)), content);
    return Answer(reply, calls, res);
  }

  datatype Settled = Resolved(response: Response) | Rejected(failure: Failure) | NeverSettles

  /** A settled promise agrees with the outcome of the model. */
  predicate SettledAs(s: Settled, outcome: Outcome)
    reads if s.Resolved? then {s.response} else {}
  {
    match s
    case Resolved(r) => outcome.ResolvedWith? && r.Snapshot() == outcome.fields
    case Rejected(e) => outcome == RejectedWith(e)
    case NeverSettles => outcome.Unsettled?
  }

  /** What `_resolve` does with one hop: settle the promise, or request the next target. */
  datatype Step = Settle(settled: Settled) | Redirect(next: Target)

  /**
   * The body of `_resolve` for the hop to `t`, given what `_request(t)` came
   * to: the redirect test with its post-increment, the second increment,
   * and the final-state update. The calls to `setCookie` and the URL
   * requested in this hop come back too.
   */
  method Resolve(t: Target, count: int, original: Target, o: Options, f: Foreign, ghost attempt: Target -> Exchange, h: HopResult)
    returns (step: Step, newCount: int, calls: seq<(string, string)>, seen: seq<string>)
    requires h.NotBuilt? <==> Unsupported(o)
    requires h.NoAnswer? ==> attempt(t) == Failed(h.error)
    requires h.Answer? ==> && attempt(t) == Answered(h.reply)
                           && h.calls == CookieCalls(o, Lookup(h.reply.headers, "set-cookie"), t.Href())
                           && h.response.Snapshot() == HopFields(t, h.reply, o, f)
    modifies if h.Answer? then {h.response} else {}
    ensures var here := Run(t, count, original, o, f, attempt);
      && (step.Redirect? ==> && count < Limit(o) && newCount == count + 2
                             && here == Prefix(Run(step.next, newCount, original, o, f, attempt), calls, seen, 1))
      && (step.Settle? ==> && SettledAs(step.settled, here.outcome)
                           && here.cookies == calls && here.visited == seen && here.hops == 0)
    ensures step.Settle? && step.settled.Resolved? ==> h.Answer? && step.settled.response == h.response
  {
    newCount := count;
    match h
    case NotBuilt =>
      RunStops(t, count, original, o, f, attempt);
      return Settle(NeverSettles), newCount, [], [];
    case NoAnswer(error) =>
      RunStops(t, count, original, o, f, attempt);
      return Settle(Rejected(NetworkError(error))), newCount, [], [t.Href()];
    case Answer(reply, cookieCalls, res) =>
      calls, seen := cookieCalls, [t.Href()];
      assert res.url == t && res.headers == reply.headers;
      if Redirects(o, res.Snapshot()) {
        var tested := newCount;
        newCount := newCount + 1;
        if tested >= Limit(o) {
          RunStops(t, count, original, o, f, attempt);
          return Settle(Rejected(TooManyRedirects)), newCount, calls, seen;
        }
        var nextUrl := f.resolve(res.url.Href(), HeaderText(res.headers, "location"));
        newCount := newCount + 1;
        RunFollows(t, count, original, o, f, attempt);
        return Redirect(Direct(nextUrl)), newCount, calls, seen;
      } else {
        RunStops(t, count, original, o, f, attempt);
        if newCount > 0 {
          res.effectiveUrl := Some(res.url.Href());
          res.url := original;
        }
        res.fetchStart := Some(f.fetchStart);
        res.fetchEnd := Some(f.fetchEnd);
        return Settle(Resolved(res)), newCount, calls, seen;
      }
  }

  /** One hop of `requestInternal`: `_request(t)`, then `_resolve` on its outcome. */
  method Hop(t: Target, count: int, original: Target, o: Options, f: Foreign)
    returns (step: Step, newCount: int, calls: seq<(string, string)>, seen: seq<string>)
    ensures var here := Run(t, count, original, o, f, Exchanges(o, f));
      && (step.Redirect? ==> && count < Limit(o) && newCount == count + 2
                             && here == Prefix(Run(step.next, newCount, original, o, f, Exchanges(o, f)), calls, seen, 1))
      && (step.Settle? ==> && SettledAs(step.settled, here.outcome)
                           && here.cookies == calls && here.visited == seen && here.hops == 0)
    ensures step.Settle? && step.settled.Resolved? ==> fresh(step.settled.response)
  {
    var h := Request(t, o, f);
    assert Exchanges(o, f)(t) == Attempt(t, o, f);
    step, newCount, calls, seen := Resolve(t, count, original, o, f, Exchanges(o, f), h);
  }

  /**
   * `requestInternal(url, options)`: request hop after hop, with `_resolve`
   * deciding on each response and counting redirects as the source does.
   */
  method RequestInternal(url: Target, o: Options, f: Foreign)
    returns (s: Settled, cookies: seq<(string, string)>, visited: seq<string>, hops: nat)
    ensures s.Resolved? ==> fresh(s.response)
    ensures SettledAs(s, Run(url, 0, url, o, f, Exchanges(o, f)).outcome)
    ensures var tr := Run(url, 0, url, o, f, Exchanges(o, f));
      cookies == tr.cookies && visited == tr.visited && hops == tr.hops
  {
    var t := url;
    var redirectCount := 0;
    cookies, visited, hops := [], [], 0;
    while true
      invariant Run(url, 0, url, o, f, Exchanges(o, f)) == Prefix(Run(t, redirectCount, url, o, f, Exchanges(o, f)), cookies, visited, hops)
      decreases if redirectCount < Limit(o) then Limit(o) - redirectCount else 0
    {
      var step, nextCount, calls, seen := Hop(t, redirectCount, url, o, f);
      if step.Settle? {
        return step.settled, cookies + calls, visited + seen, hops;
      }
      PrefixAppend(Run(step.next, nextCount, url, o, f, Exchanges(o, f)), calls, seen, cookies, visited, hops);
      cookies, visited := cookies + calls, visited + seen;
      t, redirectCount, hops := step.next, nextCount, hops + 1;
    }
  }

  /** Moving one followed hop from the trace of the rest into what has been done so far. */
  lemma PrefixAppend(rest: Trace, calls: seq<(string, string)>, seen: seq<string>,
                     cookies: seq<(string, string)>, visited: seq<string>, hops: nat)
    ensures Prefix(Prefix(rest, calls, seen, 1), cookies, visited, hops)
         == Prefix(rest, cookies + calls, visited + seen, hops + 1)
  {
    assert cookies + (calls + rest.cookies) == (cookies + calls) + rest.cookies;
    assert visited + (seen + rest.visited) == (visited + seen) + rest.visited;
  }
}
