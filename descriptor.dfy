/**
 * The request descriptor that `buildRequest` fills in and hands to Node's
 * `http.request` (its `RequestOptions`), the `parseInt` it uses for the
 * port, and the proxy rewrite `setProxy` of src/utils.ts and src/utils.js.
 */
module Descriptor {
  import opened Wrappers
  import opened Urls
  import opened Pick
  import opened Headers

  /** The agents the descriptor can carry; their constructors are foreign. */
  datatype Agent =
    | SocksHttp(port: Option<string>, hostname: Option<string>)    // socks.HttpAgent
    | SocksHttps(port: Option<string>, hostname: Option<string>)   // socks.HttpsAgent
    | Tunnel(proxy: ParsedUrl, servername: Option<string>)         // HttpsAgent of src/https-agent.ts
    | TunnelLegacy(proxy: ParsedUrl)                               // HttpsAgent of src/https-agent.js

  /** A property value of the descriptor. */
  datatype Value = Str(s: string) | Num(n: int) | NaN | Null | AgentValue(agent: Agent)

  /** A header value: a string or number, a list of strings, or an absent host. */
  datatype HeaderValue = HStr(s: string) | HNum(n: int) | HList(items: seq<string>) | HUndefined | HNull

  predicate Truthy(v: Value)
  {
    match v
    case Str(s) => s != ""
    case Num(n) => n != 0
    case NaN => false
    case Null => false
    case AgentValue(_) => true
  }

  /** An optional string of a parsed URL as a property value (`null` when absent). */
  function OfOption(o: Option<string>): (v: Value)
    ensures o.Some? ==> v == Str(o.value)
    ensures o.None? ==> v == Null
  {
    if o.Some? then Str(o.value) else Null
  }

  /** Reading an object property: an absent one is `undefined`. */
  function Get(props: map<string, Value>, key: string): Option<Value>
  {
    if key in props then Some(props[key]) else None
  }

  /** `request.protocol === 'http:'` */
  predicate IsHttp(props: map<string, Value>)
  {
    Get(props, "protocol") == Some(Str("http:"))
  }

  // ---------------------------------------------------------------- parseInt

  /** The white space and line terminators `parseInt` trims: ASCII, no-break, BOM and the Unicode space separators. */
  predicate IsSpace(c: char)
  {
    || c == ' ' || c == '\t' || c == '\n' || c == '\r' || c == '\U{B}' || c == '\U{C}'
    || c == '\U{A0}' || c == '\U{1680}' || ('\U{2000}' <= c <= '\U{200A}')
    || c == '\U{2028}' || c == '\U{2029}' || c == '\U{202F}' || c == '\U{205F}'
    || c == '\U{3000}' || c == '\U{FEFF}'
  }

  /** The value of `c` as a digit in base 10 or 16, or -1. */
  function DigitValue(c: char, base: nat): (d: int)
    requires base == 10 || base == 16
    ensures -1 <= d < base
  {
    if '0' <= c <= '9' then c as int - '0' as int
    else if base == 16 && 'a' <= c <= 'f' then c as int - 'a' as int + 10
    else if base == 16 && 'A' <= c <= 'F' then c as int - 'A' as int + 10
    else -1
  }

  /** The length of the run of digits at the start of `s`. */
  function DigitRun(s: string, base: nat): (n: nat)
    requires base == 10 || base == 16
    ensures n <= |s|
    ensures forall k :: 0 <= k < n ==> DigitValue(s[k], base) >= 0
    ensures n == |s| || DigitValue(s[n], base) < 0
  {
    if s != [] && DigitValue(s[0], base) >= 0 then 1 + DigitRun(s[1..], base) else 0
  }

  /** The number the digits `ds` denote, most significant first. */
  function Magnitude(ds: string, base: nat): (v: nat)
    requires base == 10 || base == 16
    requires forall k :: 0 <= k < |ds| ==> DigitValue(ds[k], base) >= 0
  {
    if ds == [] then 0
    else Magnitude(ds[..|ds| - 1], base) * base + DigitValue(ds[|ds| - 1], base)
  }

  function TrimStart(s: string): (t: string)
    ensures |t| <= |s| && t == s[|s| - |t|..]
    ensures t == [] || !IsSpace(t[0])
  {
    if s != [] && IsSpace(s[0]) then TrimStart(s[1..]) else s
  }

  /** The longest run of digits at the start of `w`, read in `base`; `None` when there is none. */
  function Digits(w: string, base: nat): (r: Option<nat>)
    requires base == 10 || base == 16
    ensures r.None? <==> w == [] || DigitValue(w[0], base) < 0
  {
    var n := DigitRun(w, base);
    if n == 0 then None else Some(Magnitude(w[..n], base))
  }

  /** `u` starts with `0x` or `0X`. */
  predicate HexPrefixed(u: string)
  {
    |u| >= 2 && u[0] == '0' && (u[1] == 'x' || u[1] == 'X')
  }

  /** The unsigned part: a `0x` or `0X` prefix selects hexadecimal. */
  function Unsigned(u: string): Option<nat>
  {
    if HexPrefixed(u) then Digits(u[2..], 16)
    else Digits(u, 10)
  }

  /**
   * JavaScript's `parseInt(s)` with no radix: leading white space, an
   * optional sign, then a `0x` prefix selects hexadecimal; the longest run of
   * digits is read and the rest ignored; no digit at all gives `NaN`.
   */
  function ParseInt(s: string): (v: Value)
    ensures v.Num? || v.NaN?
  {
    var t := TrimStart(s);
    var negative := t != [] && t[0] == '-';
    var u := if t != [] && (t[0] == '-' || t[0] == '+') then t[1..] else t;
    match Unsigned(u)
    case None => NaN
    case Some(m) => var n: int := m; Num(if negative then -n else n)
  }

  /** A string that starts with a decimal digit other than a hex prefix is read in base 10 from the start. */
  lemma UnsignedDecimal(s: string, n: nat)
    requires s != [] && '0' <= s[0] <= '9' && !HexPrefixed(s)
    requires 0 < n <= |s| && DigitRun(s, 10) == n
    ensures ParseInt(s) == Num(Magnitude(s[..n], 10))
  {
    assert !IsSpace(s[0]);
    assert TrimStart(s) == s;
    assert Unsigned(s) == Digits(s, 10);
  }

  /** A port made of decimal digits parses to its decimal value. */
  lemma ParseIntDecimal(s: string)
    requires s != [] && forall k :: 0 <= k < |s| ==> '0' <= s[k] <= '9'
    ensures ParseInt(s) == Num(Magnitude(s, 10))
  {
    DigitRunAll(s, 10);
    UnsignedDecimal(s, |s|);
    assert s[..|s|] == s;
  }

  lemma {:induction false} DigitRunAll(s: string, base: nat)
    requires base == 10 || base == 16
    requires forall k :: 0 <= k < |s| ==> DigitValue(s[k], base) >= 0
    ensures DigitRun(s, base) == |s|
  {
    if s != [] {
      DigitRunAll(s[1..], base);
    }
  }

  /** Only the digit run counts: whatever follows it is ignored (`"8080/x"` reads as 8080). */
  lemma ParseIntStopsAtNonDigit(digits: string, rest: string)
    requires digits != [] && forall k :: 0 <= k < |digits| ==> '0' <= digits[k] <= '9'
    requires rest != [] && !('0' <= rest[0] <= '9')
    requires !HexPrefixed(digits + rest)
    ensures ParseInt(digits + rest) == Num(Magnitude(digits, 10))
  {
    var s := digits + rest;
    assert forall k :: 0 <= k < |digits| ==> DigitValue(digits[k], 10) >= 0;
    assert DigitValue(rest[0], 10) < 0;
    DigitRunPrefix(digits, rest, 10);
    assert s[..|digits|] == digits;
    assert s[0] == digits[0];
    UnsignedDecimal(s, |digits|);
  }

  lemma {:induction false} DigitRunPrefix(digits: string, rest: string, base: nat)
    requires base == 10 || base == 16
    requires forall k :: 0 <= k < |digits| ==> DigitValue(digits[k], base) >= 0
    requires rest != [] && DigitValue(rest[0], base) < 0
    ensures DigitRun(digits + rest, base) == |digits|
  {
    if digits == [] {
      assert digits + rest == rest;
    } else {
      assert (digits + rest)[1..] == digits[1..] + rest;
      DigitRunPrefix(digits[1..], rest, base);
    }
  }

  lemma ParseIntEmpty()
    ensures ParseInt("") == NaN
  {
  }

  // ---------------------------------------------------------------- descriptor

  /**
   * Node's `RequestOptions` object under construction: its plain properties
   * and the header array it owns.
   */
  class RequestOptions {
    const props: Record<Value>
    var headers: HeaderList<HeaderValue>

    constructor ()
      ensures fresh(props) && fresh(headers)
      ensures props.fields == map[] && headers.entries == []
    {
      props := new Record(map[]);
      headers := new HeaderList([]);
    }
  }

  // ---------------------------------------------------------------- setProxy

  /** `/^socks/.test(proxy.protocol)`: a `null` protocol is tested as the string "null". */
  predicate IsSocks(protocol: Option<string>)
  {
    protocol.Some? && |protocol.value| >= 5 && protocol.value[..5] == "socks"
  }

  /** The three ways a proxy reroutes a request. */
  datatype Route = ViaSocks | ViaHttpProxy | ViaTunnel

  function RouteOf(props: map<string, Value>, proxy: ParsedUrl): Route
  {
    if IsSocks(proxy.protocol) then ViaSocks
    else if IsHttp(props) then ViaHttpProxy
    else ViaTunnel
  }

  /**
   * The descriptor's properties after `setProxy`, for the https-agent of
   * src/utils.ts (`legacy == false`, which passes the target host as the
   * TLS server name) or of src/utils.js (`legacy == true`).
   */
  function Proxied(props: map<string, Value>, proxy: ParsedUrl, url: ParsedUrl, legacy: bool): map<string, Value>
  {
    match RouteOf(props, proxy)
    case ViaSocks =>
      var agent := if IsHttp(props) then SocksHttp(proxy.port, proxy.hostname) else SocksHttps(proxy.port, proxy.hostname);
      props["agent" := AgentValue(agent)]
    case ViaHttpProxy =>
      props["protocol" := OfOption(proxy.protocol)]["hostname" := OfOption(proxy.hostname)]
           ["port" := OfOption(proxy.port)]["path" := Str(url.href)]
    case ViaTunnel =>
      var agent := if legacy then TunnelLegacy(proxy) else Tunnel(proxy, url.host);
      var port := Get(props, "port");
      props["port" := if port.Some? && Truthy(port.value) then port.value else Num(443)]["agent" := AgentValue(agent)]
  }

  /** A socks proxy only sets the agent, chosen by the target protocol; nothing else changes. */
  lemma ProxiedSocks(props: map<string, Value>, proxy: ParsedUrl, url: ParsedUrl, legacy: bool)
    requires IsSocks(proxy.protocol)
    ensures var p := Proxied(props, proxy, url, legacy);
      && p.Keys == props.Keys + {"agent"}
      && (forall k :: k in props && k != "agent" ==> p[k] == props[k])
      && p["agent"] == AgentValue(if IsHttp(props) then SocksHttp(proxy.port, proxy.hostname)
                                  else SocksHttps(proxy.port, proxy.hostname))
  {
  }

  /**
   * Another proxy for an `http:` target: the request goes to the proxy,
   * asking for the full target URL; the agent and all else are untouched.
   */
  lemma ProxiedHttp(props: map<string, Value>, proxy: ParsedUrl, url: ParsedUrl, legacy: bool)
    requires !IsSocks(proxy.protocol) && IsHttp(props)
    ensures var p := Proxied(props, proxy, url, legacy);
      && p.Keys == props.Keys + {"protocol", "hostname", "port", "path"}
      && p["protocol"] == OfOption(proxy.protocol)
      && p["hostname"] == OfOption(proxy.hostname)
      && p["port"] == OfOption(proxy.port)
      && p["path"] == Str(url.href)
      && forall k :: k in props && k !in {"protocol", "hostname", "port", "path"} ==> p[k] == props[k]
  {
  }

  /**
   * Another proxy for any other target: protocol, hostname and path stay,
   * the port defaults to 443 when unset or falsy, and the tunnelling agent is set.
   */
  lemma ProxiedTunnel(props: map<string, Value>, proxy: ParsedUrl, url: ParsedUrl, legacy: bool)
    requires !IsSocks(proxy.protocol) && !IsHttp(props)
    ensures var p := Proxied(props, proxy, url, legacy);
      && p.Keys == props.Keys + {"port", "agent"}
      && (forall k :: k in props && k != "port" && k != "agent" ==> p[k] == props[k])
      && (Get(props, "port").Some? && Truthy(props["port"]) ==> p["port"] == props["port"])
      && (!(Get(props, "port").Some? && Truthy(props["port"])) ==> p["port"] == Num(443))
      && p["agent"] == AgentValue(if legacy then TunnelLegacy(proxy) else Tunnel(proxy, url.host))
  {
  }

  /** The two versions differ only in the agent of the tunnelling branch. */
  lemma ProxiedVersionsAgree(props: map<string, Value>, proxy: ParsedUrl, url: ParsedUrl)
    ensures RouteOf(props, proxy) != ViaTunnel ==> Proxied(props, proxy, url, false) == Proxied(props, proxy, url, true)
    ensures RouteOf(props, proxy) == ViaTunnel ==>
      Proxied(props, proxy, url, false)["agent" := Null] == Proxied(props, proxy, url, true)["agent" := Null]
  {
  }

  /** `setProxy(request, proxyUrl, url)` of src/utils.ts (`legacy == false`) or src/utils.js. */
  method SetProxy(request: RequestOptions, proxyUrl: string, url: ParsedUrl, parse: Parser, legacy: bool)
    modifies request.props
    ensures request.props.fields == Proxied(old(request.props.fields), parse(Rewrite(proxyUrl)), url, legacy)
  {
    var proxy := parse(Rewrite(proxyUrl));
    var route := RouteOf(request.props.fields, proxy);
    if route == ViaSocks {
      var agent := if IsHttp(request.props.fields) then SocksHttp(proxy.port, proxy.hostname)
                   else SocksHttps(proxy.port, proxy.hostname);
      request.props.fields := request.props.fields["agent" := AgentValue(agent)];
    } else if route == ViaHttpProxy {
      request.props.fields := request.props.fields["protocol" := OfOption(proxy.protocol)];
      request.props.fields := request.props.fields["hostname" := OfOption(proxy.hostname)];
      request.props.fields := request.props.fields["port" := OfOption(proxy.port)];
      request.props.fields := request.props.fields["path" := Str(url.href)];
    } else {
      var agent := if legacy then TunnelLegacy(proxy) else Tunnel(proxy, url.host);
      var port := Get(request.props.fields, "port");
      request.props.fields := request.props.fields["port" := if port.Some? && Truthy(port.value) then port.value else Num(443)];
      request.props.fields := request.props.fields["agent" := AgentValue(agent)];
    }
  }

  /** One leading white-space character of any kind JavaScript trims is skipped. */
  lemma ParseIntSkipsSpace(c: char, s: string)
    requires IsSpace(c)
    ensures ParseInt([c] + s) == ParseInt(s)
  {
    TrimStartSkipsSpace(c, s);
  }

  lemma TrimStartSkipsSpace(c: char, s: string)
    requires IsSpace(c)
    ensures TrimStart([c] + s) == TrimStart(s)
  {
    assert ([c] + s)[1..] == s;
  }
}
