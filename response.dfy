/**
 * The `Response` class of src/response.ts: its constructor, accessors,
 * `toHeaders`, and the byte layout of `save` and `load`. The file system is
 * left out: `save` yields the bytes it would write and `load` takes the
 * bytes it read. JSON and zlib are the abstract `Codec` of module Framing.
 */
module Responses {
  import opened Wrappers
  import opened Text
  import opened Framing
  import opened Urls

  /** A value of Node's `IncomingHttpHeaders`: a string, or an array for repeated headers. */
  datatype Incoming = Single(s: string) | Multi(items: seq<string>)

  type HeaderMap = map<string, Incoming>

  /** The header field of a `MessageInfo`: a header object, or a list of `[name, value]` pairs. */
  datatype MessageHeaders = HeaderObject(m: HeaderMap) | HeaderPairs(pairs: seq<(string, string)>)

  /** What the constructor reads of Node's `IncomingMessage` (or of a loaded head). */
  datatype MessageInfo = MessageInfo(httpVersion: string, statusCode: Option<int>, headers: MessageHeaders)

  // ---------------------------------------------------------------- toHeaders

  /** One step of `toHeaders`: a falsy (absent or empty) value is overwritten, a string becomes a pair, an array grows. */
  function AddValue(existing: Option<Incoming>, value: string): Incoming
  {
    match existing
    case None => Single(value)
    case Some(Single(s)) => if s == "" then Single(value) else Multi([s, value])
    case Some(Multi(items)) => Multi(items + [value])
  }

  function Lookup(m: HeaderMap, key: string): Option<Incoming>
  {
    if key in m then Some(m[key]) else None
  }

  /** The map that `toHeaders(pairs)` returns. */
  function FoldHeaders(pairs: seq<(string, string)>): HeaderMap
  {
    if pairs == [] then map[]
    else
      var m := FoldHeaders(pairs[..|pairs| - 1]);
      var (name, value) := pairs[|pairs| - 1];
      var key := Lower(name);
      m[key := AddValue(Lookup(m, key), value)]
  }

  /** The values given for the lower-cased name `key`, in order. */
  function ValuesFor(pairs: seq<(string, string)>, key: string): (vs: seq<string>)
  {
    if pairs == [] then []
    else
      ValuesFor(pairs[..|pairs| - 1], key) +
        (if Lower(pairs[|pairs| - 1].0) == key then [pairs[|pairs| - 1].1] else [])
  }

  /** Leading empty values that are followed by another value are overwritten. */
  function StripEmpty(vs: seq<string>): (r: seq<string>)
    ensures |r| <= |vs| && (vs != [] ==> r != [])
  {
    if |vs| > 1 && vs[0] == "" then StripEmpty(vs[1..]) else vs
  }

  /** What `toHeaders` stores for a key given the values `vs` in order: one string, or all surviving values as an array. */
  function Expected(vs: seq<string>): Incoming
    requires vs != []
  {
    var ws := StripEmpty(vs);
    if |ws| == 1 then Single(ws[0]) else Multi(ws)
  }

  lemma {:induction false} StripEmptyAppend(vs: seq<string>, v: string)
    requires vs != []
    ensures StripEmpty(vs) == [""] ==> StripEmpty(vs + [v]) == [v]
    ensures StripEmpty(vs) != [""] ==> StripEmpty(vs + [v]) == StripEmpty(vs) + [v]
  {
    var w := vs + [v];
    if |vs| > 1 && vs[0] == "" {
      assert w[1..] == vs[1..] + [v];
      StripEmptyAppend(vs[1..], v);
    } else if |vs| == 1 && vs[0] == "" {
      assert w == ["", v];
      assert w[1..] == [v];
    }
  }

  /** Appending a value moves the expected entry by one `toHeaders` step. */
  lemma ExpectedAppend(vs: seq<string>, v: string)
    requires vs != []
    ensures Expected(vs + [v]) == AddValue(Some(Expected(vs)), v)
  {
    StripEmptyAppend(vs, v);
  }

  /**
   * `toHeaders` lower-cases every name; each name present maps to the values
   * given for it, in order, where a leading empty string counts as absent
   * and is overwritten by the next value.
   */
  lemma {:induction false} FoldHeadersAt(pairs: seq<(string, string)>, key: string)
    ensures key in FoldHeaders(pairs) <==> ValuesFor(pairs, key) != []
    ensures key in FoldHeaders(pairs) ==> FoldHeaders(pairs)[key] == Expected(ValuesFor(pairs, key))
  {
    if pairs != [] {
      var init := pairs[..|pairs| - 1];
      var (name, value) := pairs[|pairs| - 1];
      FoldHeadersAt(init, key);
      var m := FoldHeaders(init);
      assert FoldHeaders(pairs) == m[Lower(name) := AddValue(Lookup(m, Lower(name)), value)];
      assert ValuesFor(pairs, key) == ValuesFor(init, key) + (if Lower(name) == key then [value] else []);
      if Lower(name) == key && ValuesFor(init, key) != [] {
        ExpectedAppend(ValuesFor(init, key), value);
      } else if Lower(name) == key {
        assert key !in m;
        assert ValuesFor(pairs, key) == [value];
        assert Expected([value]) == Single(value);
      } else {
        assert ValuesFor(pairs, key) == ValuesFor(init, key);
      }
    }
  }

  /** Every key of the result is a lower-cased name of the input. */
  lemma FoldHeadersKeys(pairs: seq<(string, string)>, key: string)
    requires key in FoldHeaders(pairs)
    ensures exists j :: 0 <= j < |pairs| && Lower(pairs[j].0) == key
  {
    FoldHeadersAt(pairs, key);
    ValuesForSome(pairs, key);
  }

  lemma {:induction false} ValuesForSome(pairs: seq<(string, string)>, key: string)
    requires ValuesFor(pairs, key) != []
    ensures exists j :: 0 <= j < |pairs| && Lower(pairs[j].0) == key
  {
    var init := pairs[..|pairs| - 1];
    if Lower(pairs[|pairs| - 1].0) != key {
      ValuesForSome(init, key);
      var j :| 0 <= j < |init| && Lower(init[j].0) == key;
      assert pairs[j] == init[j];
    }
  }

  /** `toHeaders(headers)`: fold the pairs into a fresh object. */
  method ToHeaders(headers: seq<(string, string)>) returns (result: HeaderMap)
    ensures result == FoldHeaders(headers)
  {
    result := map[];
    var i := 0;
    while i < |headers|
      invariant 0 <= i <= |headers|
      invariant result == FoldHeaders(headers[..i])
    {
      var (name, value) := headers[i];
      var key := Lower(name);
      assert headers[..i + 1][..i] == headers[..i];
      if key !in result || result[key] == Single("") {
        result := result[key := Single(value)];
      } else if result[key].Multi? {
        result := result[key := Multi(result[key].items + [value])];
      } else {
        result := result[key := Multi([result[key].s, value])];
      }
      i := i + 1;
    }
    assert headers[..|headers|] == headers;
  }

  // ---------------------------------------------------------------- the class

  /** All fields of a `Response`, as a value. */
  datatype Fields = Fields(
    url: Target,
    statusCode: int,
    headers: HeaderMap,
    httpVersion: string,
    fetchStart: Option<int>,
    fetchEnd: Option<int>,
    effectiveUrl: Option<string>,
    body: Bytes)

  /** `res.statusCode || -1` */
  function StatusOr(code: Option<int>): (c: int)
    ensures c != 0
    ensures code.Some? && code.value != 0 ==> c == code.value
    ensures code.None? || code.value == 0 ==> c == -1
  {
    if code.Some? && code.value != 0 then code.value else -1
  }

  function HeadersOf(h: MessageHeaders): HeaderMap
  {
    match h
    case HeaderObject(m) => m
    case HeaderPairs(pairs) => FoldHeaders(pairs)
  }

  class Response {
    var url: Target
    var statusCode: int
    var headers: HeaderMap
    var httpVersion: string
    var fetchStart: Option<int>      // milliseconds since the epoch; `None` is `null`
    var fetchEnd: Option<int>
    var effectiveUrl: Option<string>
    var body: Bytes

    /** The status code is never 0, the clock fields and `effectiveUrl` start out `null`. */
    constructor (url: Target, res: MessageInfo, buf: Bytes)
      ensures this.url == url && body == buf && httpVersion == res.httpVersion
      ensures statusCode == StatusOr(res.statusCode)
      ensures headers == HeadersOf(res.headers)
      ensures fetchStart.None? && fetchEnd.None? && effectiveUrl.None?
    {
      var hs: HeaderMap;
      if res.headers.HeaderPairs? {
        hs := ToHeaders(res.headers.pairs);
      } else {
        hs := res.headers.m;
      }
      this.url := url;
      statusCode := if res.statusCode.Some? && res.statusCode.value != 0 then res.statusCode.value else -1;
      headers := hs;
      httpVersion := res.httpVersion;
      fetchStart := None;
      fetchEnd := None;
      effectiveUrl := None;
      body := buf;
    }

    function Snapshot(): Fields
      reads this
    {
      Fields(url, statusCode, headers, httpVersion, fetchStart, fetchEnd, effectiveUrl, body)
    }

    /** `contentEncoding`: the raw `content-encoding` header, `None` when absent. */
    function ContentEncoding(): Option<Incoming>
      reads this
    {
      Lookup(headers, "content-encoding")
    }

    /** `contentType`: the raw `content-type` header, `None` when absent. */
    function ContentType(): Option<Incoming>
      reads this
    {
      Lookup(headers, "content-type")
    }

    /** `contentLength`: the number of body bytes. */
    function ContentLength(): nat
      reads this
    {
      |body|
    }

    /** The bytes `save(path, options)` writes. */
    function Save(options: SaveOptions, codec: Codec<Head>): Bytes
      reads this
    {
      SaveBytes(Snapshot(), options, codec)
    }
  }

  /**
   * A response whose headers came as `[name, value]` pairs reports, as its
   * content type and content encoding, the values of the pairs of that name
   * in any case, folded as `toHeaders` folds them; absent when there are none.
   */
  lemma AccessorsFolded(r: Response, pairs: seq<(string, string)>)
    requires r.headers == FoldHeaders(pairs)
    ensures r.ContentType().Some? <==> ValuesFor(pairs, "content-type") != []
    ensures r.ContentType().Some? ==> r.ContentType().value == Expected(ValuesFor(pairs, "content-type"))
    ensures r.ContentEncoding().Some? <==> ValuesFor(pairs, "content-encoding") != []
    ensures r.ContentEncoding().Some? ==> r.ContentEncoding().value == Expected(ValuesFor(pairs, "content-encoding"))
  {
    FoldHeadersAt(pairs, "content-type");
    FoldHeadersAt(pairs, "content-encoding");
  }

  // ---------------------------------------------------------------- save / load

  datatype SaveOptions = SaveOptions(compress: bool, bodyOnly: bool)

  /** The JSON record written before the newline. */
  datatype Head = Head(
    url: Target,
    statusCode: int,
    headers: HeaderMap,
    httpVersion: string,
    fetchStart: Option<int>,
    fetchEnd: Option<int>,
    effectiveUrl: Option<string>,
    encoding: Option<string>)

  /** `headers['content-type'] || ''` as the regular expression sees it (an array is joined with commas). */
  function TypeText(headers: HeaderMap): string
  {
    match Lookup(headers, "content-type")
    case None => ""
    case Some(Single(s)) => s
    case Some(Multi(items)) => Join(items, ",")
  }

  /** `/\b(text|json)\b/i.test(...)` */
  predicate IsTextual(contentType: string)
  {
    FindWordFrom(contentType, "text", 0) || FindWordFrom(contentType, "json", 0)
  }

  /** The compress flag of `save`. */
  predicate Compress(f: Fields, options: SaveOptions)
  {
    options.compress && IsTextual(TypeText(f.headers))
  }

  /** Compression is chosen exactly when requested and `text` or `json` occurs as a whole word, in any case. */
  lemma CompressIff(f: Fields, options: SaveOptions)
    ensures Compress(f, options) <==>
      options.compress &&
      ((exists j :: WordAt(TypeText(f.headers), "text", j)) || (exists j :: WordAt(TypeText(f.headers), "json", j)))
  {
    var t := TypeText(f.headers);
    if exists j :: WordAt(t, "text", j) {
      var j :| WordAt(t, "text", j);
      assert 0 <= j;
    }
    if exists j :: WordAt(t, "json", j) {
      var j :| WordAt(t, "json", j);
      assert 0 <= j;
    }
  }

  function HeadOf(f: Fields, options: SaveOptions): Head
  {
    Head(f.url, f.statusCode, f.headers, f.httpVersion, f.fetchStart, f.fetchEnd, f.effectiveUrl,
         if Compress(f, options) then Some("gzip") else None)
  }

  /** The bytes after the newline: the gzipped body when compressing a non-empty body, else the body. */
  function Payload(f: Fields, options: SaveOptions, codec: Codec<Head>): Bytes
  {
    if Compress(f, options) && |f.body| > 0 then codec.gzip(f.body) else f.body
  }

  function SaveBytes(f: Fields, options: SaveOptions, codec: Codec<Head>): Bytes
  {
    var payload := Payload(f, options, codec);
    if options.bodyOnly then payload else codec.encode(HeadOf(f, options)) + [Newline] + payload
  }

  /** The fields of the `Response` that `load` builds from the bytes it read. */
  function LoadValue(data: Bytes, codec: Codec<Head>): Loading<Fields>
  {
    var (headBytes, rest) := Split(data);
    match codec.decode(headBytes)
    case None => HeadThrows
    case Some(h) =>
      var body := if Truthy(h.encoding) && |rest| > 0 then codec.gunzip(rest) else Some(rest);
      if body.None? then GunzipRejected
      else Loaded(Fields(h.url, StatusOr(Some(h.statusCode)), h.headers, h.httpVersion,
                         Some(h.fetchStart.GetOr(0)), Some(h.fetchEnd.GetOr(0)), None, body.value))
  }

  /**
   * `Response.load`: a new object holding the loaded fields, a rejection when
   * gunzip fails, or a promise that never settles when the head is malformed.
   */
  method Load(data: Bytes, codec: Codec<Head>) returns (r: Loading<Response>)
    ensures r.GunzipRejected? <==> LoadValue(data, codec).GunzipRejected?
    ensures r.HeadThrows? <==> LoadValue(data, codec).HeadThrows?
    ensures r.Loaded? ==> fresh(r.value) && r.value.Snapshot() == LoadValue(data, codec).value
  {
    var v := LoadValue(data, codec);
    if v.HeadThrows? {
      return HeadThrows;
    } else if v.GunzipRejected? {
      return GunzipRejected;
    }
    var f := v.value;
    var res := new Response(f.url, MessageInfo(f.httpVersion, Some(f.statusCode), HeaderObject(f.headers)), f.body);
    res.fetchStart := f.fetchStart;
    res.fetchEnd := f.fetchEnd;
    return Loaded(res);
  }

  /** A file that is not body-only is the encoded head, one newline and the payload. */
  lemma SaveLayout(f: Fields, options: SaveOptions, codec: Codec<Head>)
    requires Lawful(codec) && !options.bodyOnly
    ensures Split(SaveBytes(f, options, codec)) == (codec.encode(HeadOf(f, options)), Payload(f, options, codec))
  {
    SplitFramed(codec.encode(HeadOf(f, options)), Payload(f, options, codec));
  }

  /** The payload is gzipped exactly when compressing a non-empty body. */
  lemma PayloadIff(f: Fields, options: SaveOptions, codec: Codec<Head>)
    ensures Compress(f, options) && |f.body| > 0 ==> Payload(f, options, codec) == codec.gzip(f.body)
    ensures !(Compress(f, options) && |f.body| > 0) ==> Payload(f, options, codec) == f.body
  {
  }

  /** The head is marked `gzip` exactly when the compress flag is set, even for an empty body. */
  lemma EncodingMarker(f: Fields, options: SaveOptions)
    ensures HeadOf(f, options).encoding == Some("gzip") <==> Compress(f, options)
    ensures !Compress(f, options) ==> HeadOf(f, options).encoding.None?
  {
  }

  /** Without compression requested, or with a content type that is neither text nor JSON, nothing is gzipped. */
  lemma NoCompressWithoutText(f: Fields, options: SaveOptions, codec: Codec<Head>)
    requires !options.compress || !IsTextual(TypeText(f.headers))
    ensures Payload(f, options, codec) == f.body && HeadOf(f, options).encoding.None?
  {
  }

  /** A body-only file is just the payload. */
  lemma BodyOnlyLayout(f: Fields, options: SaveOptions, codec: Codec<Head>)
    requires options.bodyOnly
    ensures SaveBytes(f, options, codec) == Payload(f, options, codec)
  {
  }

  /**
   * Saving and loading again gives back the body, url, status code, headers,
   * HTTP version and the two timestamps (a `null` one comes back as the
   * epoch); `effectiveUrl` is not restored.
   */
  lemma {:induction false} RoundTrip(f: Fields, options: SaveOptions, codec: Codec<Head>)
    requires Lawful(codec) && !options.bodyOnly
    ensures LoadValue(SaveBytes(f, options, codec), codec) ==
      Loaded(f.(statusCode := StatusOr(Some(f.statusCode)),
            fetchStart := Some(f.fetchStart.GetOr(0)),
            fetchEnd := Some(f.fetchEnd.GetOr(0)),
            effectiveUrl := None))
  {
    var h := HeadOf(f, options);
    SaveLayout(f, options, codec);
    assert codec.decode(codec.encode(h)) == Some(h);
    var payload := Payload(f, options, codec);
    if Compress(f, options) && |f.body| > 0 {
      assert Truthy(h.encoding) && |payload| > 0;
      assert codec.gunzip(payload) == Some(f.body);
    } else {
      assert payload == f.body;
      assert !Truthy(h.encoding) || |payload| == 0;
    }
  }

  /** In particular the body survives, and a constructed response keeps its status code. */
  lemma RoundTripBody(f: Fields, options: SaveOptions, codec: Codec<Head>)
    requires Lawful(codec) && !options.bodyOnly && f.statusCode != 0
    ensures var r := LoadValue(SaveBytes(f, options, codec), codec);
      r.Loaded? && r.value.body == f.body && r.value.statusCode == f.statusCode && r.value.headers == f.headers
  {
    RoundTrip(f, options, codec);
  }

  /** A saved and loaded response reports the same content length, content type and content encoding. */
  lemma AccessorsRoundTrip(r: Response, options: SaveOptions, codec: Codec<Head>)
    requires Lawful(codec) && !options.bodyOnly
    ensures var l := LoadValue(r.Save(options, codec), codec);
      && l.Loaded?
      && |l.value.body| == r.ContentLength()
      && Lookup(l.value.headers, "content-type") == r.ContentType()
      && Lookup(l.value.headers, "content-encoding") == r.ContentEncoding()
  {
    RoundTrip(r.Snapshot(), options, codec);
  }
}
