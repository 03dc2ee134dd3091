/**
 * Scheme normalisation (`rewrite`) and the two `parseUrl` front ends of
 * src/utils.ts and src/utils.js. Node's `url.parse` is foreign: it is a
 * function-valued parameter from the normalised string to a parsed record.
 */
module Urls {
  import opened Wrappers
  import opened Text

  /** The length of the run of `\w` characters that starts at index `i`. */
  function WordRun(s: string, i: nat): (n: nat)
    requires i <= |s|
    decreases |s| - i
    ensures i <= n <= |s|
    ensures forall k :: i <= k < n ==> IsWordChar(s[k])
    ensures n == |s| || !IsWordChar(s[n])
  {
    if i < |s| && IsWordChar(s[i]) then WordRun(s, i + 1) else i
  }

  /** The regular expression `^\w+:` matches `s`. */
  predicate HasScheme(s: string)
  {
    var n := WordRun(s, 0);
    0 < n < |s| && s[n] == ':'
  }

  /** `^\w+:` matches exactly when some non-empty run of word characters from the start is followed by a colon. */
  lemma HasSchemeIff(s: string)
    ensures HasScheme(s) <==>
      exists n :: 0 < n < |s| && s[n] == ':' && forall k :: 0 <= k < n ==> IsWordChar(s[k])
  {
    var w := WordRun(s, 0);
    if n :| 0 < n < |s| && s[n] == ':' && forall k :: 0 <= k < n ==> IsWordChar(s[k]) {
      assert !IsWordChar(s[n]);
      assert w == n;
    }
  }

  /** `url.substr(0, 2) === '//'`. */
  predicate StartsWithSlashes(s: string)
  {
    |s| >= 2 && s[0] == '/' && s[1] == '/'
  }

  /** A string that starts with `http:` has a scheme. */
  lemma HttpPrefixHasScheme(rest: string)
    ensures HasScheme("http:" + rest)
  {
    var s := "http:" + rest;
    assert s[0] == 'h' && s[1] == 't' && s[2] == 't' && s[3] == 'p' && s[4] == ':';
    HasSchemeIff(s);
  }

  /**
   * `rewrite`: a URL without a scheme gets `http:` when it is
   * protocol-relative (`//host`) and `http://` otherwise.
   */
  function Rewrite(url: string): (r: string)
    ensures HasScheme(url) ==> r == url
    ensures !HasScheme(url) && StartsWithSlashes(url) ==> r == "http:" + url
    ensures !HasScheme(url) && !StartsWithSlashes(url) ==> r == "http://" + url
    ensures HasScheme(r)
  {
    if HasScheme(url) then url
    else if StartsWithSlashes(url) then
      HttpPrefixHasScheme(url);
      "http:" + url
    else
      HttpPrefixHasScheme("//" + url);
      assert "http://" + url == "http:" + ("//" + url);
      "http://" + url
  }

  /** Normalising twice is normalising once. */
  lemma RewriteIdempotent(url: string)
    ensures Rewrite(Rewrite(url)) == Rewrite(url)
  {
  }

  /** What `rewrite` adds is a prefix: the original URL is always its suffix. */
  lemma RewriteKeepsUrl(url: string)
    ensures exists p :: p in {"", "http:", "http://"} && Rewrite(url) == p + url
  {
    var p := if HasScheme(url) then "" else if StartsWithSlashes(url) then "http:" else "http://";
    assert Rewrite(url) == p + url;
    assert p in {"", "http:", "http://"};
  }

  /**
   * The record that Node's legacy `url.parse` returns, restricted to the
   * fields the core reads. `None` stands for `null`; `username` and
   * `password` are not properties of that record, so `None` stands for
   * `undefined` there.
   */
  datatype ParsedUrl = ParsedUrl(
    protocol: Option<string>,
    host: Option<string>,
    hostname: Option<string>,
    port: Option<string>,
    path: Option<string>,
    href: string,
    username: Option<string>,
    password: Option<string>)

  /** `url.parse`, applied to an already normalised string. */
  type Parser = string -> ParsedUrl

  /**
   * The `string | WithUrl` argument of `request`: a bare URL, or a record
   * with a `url` field and further fields of the caller's.
   */
  datatype Target = Direct(href: string) | WithUrl(url: string, extra: map<string, string>)
  {
    /** `typeof url === 'string' ? url : url.url` */
    function Href(): string
    {
      if Direct? then href else url
    }
  }

  /** `parseUrl` of src/utils.ts: the parser always sees the normalised href. */
  function ParseUrl(t: Target, parse: Parser): (r: ParsedUrl)
    ensures exists s :: HasScheme(s) && r == parse(s)
  {
    parse(Rewrite(t.Href()))
  }

  /** Only the href of a record matters, not its other fields. */
  lemma ParseUrlIgnoresExtra(u: string, extra: map<string, string>, parse: Parser)
    ensures ParseUrl(WithUrl(u, extra), parse) == ParseUrl(Direct(u), parse)
  {
  }

  /** Normalising before calling `parseUrl` changes nothing. */
  lemma ParseUrlNormalised(t: Target, parse: Parser)
    ensures ParseUrl(Direct(Rewrite(t.Href())), parse) == ParseUrl(t, parse)
  {
    RewriteIdempotent(t.Href());
  }

  /** A URL that already has a scheme reaches the parser unchanged. */
  lemma ParseUrlWithScheme(t: Target, parse: Parser)
    requires HasScheme(t.Href())
    ensures ParseUrl(t, parse) == parse(t.Href())
  {
  }

  /** The untyped argument of `parseUrl` in src/utils.js. */
  datatype UrlArg =
    | FalsyArg                         // undefined, null, false, 0, NaN
    | ParsedArg(p: ParsedUrl)          // already an instance of `URL.Url`
    | StringArg(s: string)             // the empty string is falsy as well
    | ObjectArg(url: Option<string>)   // an object, with or without a `url` field
    | OtherArg                         // a truthy number, boolean or function

  datatype LegacyParse = Unchanged(arg: UrlArg) | ParsedTo(p: ParsedUrl) | NullUrl

  /** `parseUrl` of src/utils.js. */
  function ParseUrlLegacy(a: UrlArg, parse: Parser): (r: LegacyParse)
    ensures r.Unchanged? <==> a.FalsyArg? || a.ParsedArg? || a == StringArg("")
    ensures r.Unchanged? ==> r.arg == a
    ensures r.NullUrl? <==> a.OtherArg? || a == ObjectArg(None)
    ensures r.ParsedTo? ==> exists s :: HasScheme(s) && r.p == parse(s)
  {
    match a
    case FalsyArg => Unchanged(a)
    case ParsedArg(_) => Unchanged(a)
    case StringArg(s) => if s == "" then Unchanged(a) else ParsedTo(parse(Rewrite(s)))
    case ObjectArg(u) => if u.Some? then ParsedTo(parse(Rewrite(u.value))) else NullUrl
    case OtherArg => NullUrl
  }

  /** On a non-empty string or a record with a `url`, the two versions parse the same string. */
  lemma LegacyAgrees(a: UrlArg, parse: Parser)
    requires (a.StringArg? && a.s != "") || (a.ObjectArg? && a.url.Some?)
    ensures ParseUrlLegacy(a, parse) ==
      ParsedTo(ParseUrl(if a.StringArg? then Direct(a.s) else WithUrl(a.url.value, map[]), parse))
  {
  }
}
