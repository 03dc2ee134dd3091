/**
 * The older `Response` class of src/response.js: a constructor that copies
 * the fields of a message (or of a loaded head), and `save(path, gzip)` /
 * `load(path)` with the same newline framing as src/response.ts but no
 * content-type check and no body-only mode.
 */
module LegacyResponses {
  import opened Wrappers
  import opened Framing
  import opened Urls
  import Responses

  /** What the constructor reads of its `res` argument; `None` is `undefined`. */
  datatype Message = Message(
    statusCode: Option<int>,
    statusMessage: Option<string>,
    headers: Responses.HeaderMap,
    httpVersion: Option<string>,
    fetchStart: Option<int>,
    fetchEnd: Option<int>)

  /** All fields of a legacy `Response`, as a value; a `None` body is `null` or `undefined`. */
  datatype Fields = Fields(
    url: Target,
    statusCode: Option<int>,
    statusText: Option<string>,
    headers: Responses.HeaderMap,
    httpVersion: Option<string>,
    fetchStart: Option<int>,
    fetchEnd: Option<int>,
    body: Option<Bytes>)

  /** The JSON record written before the newline. */
  datatype Head = Head(
    url: Target,
    statusCode: Option<int>,
    statusMessage: Option<string>,
    headers: Responses.HeaderMap,
    httpVersion: Option<string>,
    fetchStart: Option<int>,
    fetchEnd: Option<int>,
    encoding: Option<string>)

  class Response {
    var url: Target
    var statusCode: Option<int>
    var statusText: Option<string>
    var headers: Responses.HeaderMap
    var httpVersion: Option<string>
    var fetchStart: Option<int>
    var fetchEnd: Option<int>
    var body: Option<Bytes>

    /** Every field is copied from `res`; `statusText` comes from `res.statusMessage`. */
    constructor (url: Target, res: Message, buf: Option<Bytes>)
      ensures Snapshot() == Fields(url, res.statusCode, res.statusMessage, res.headers, res.httpVersion,
                                   res.fetchStart, res.fetchEnd, buf)
    {
      this.url := url;
      statusCode := res.statusCode;
      statusText := res.statusMessage;
      headers := res.headers;
      httpVersion := res.httpVersion;
      fetchStart := res.fetchStart;
      fetchEnd := res.fetchEnd;
      body := buf;
    }

    function Snapshot(): Fields
      reads this
    {
      Fields(url, statusCode, statusText, headers, httpVersion, fetchStart, fetchEnd, body)
    }

    /** The bytes `save(path, gzip)` writes. */
    function Save(gzip: bool, codec: Codec<Head>): Bytes
      reads this
    {
      SaveBytes(Snapshot(), gzip, codec)
    }
  }

  /**
   * The head `save` writes. The class never sets a `statusMessage` property,
   * so `this.statusMessage` is always `undefined`.
   */
  function HeadOf(f: Fields, gzip: bool): Head
  {
    Head(f.url, f.statusCode, None, f.headers, f.httpVersion, f.fetchStart, f.fetchEnd,
         if gzip then Some("gzip") else None)
  }

  /** `this.body || Buffer.from([])`, gzipped when asked to and non-empty. */
  function Payload(f: Fields, gzip: bool, codec: Codec<Head>): Bytes
  {
    var body := f.body.GetOr([]);
    if gzip && |body| > 0 then codec.gzip(body) else body
  }

  function SaveBytes(f: Fields, gzip: bool, codec: Codec<Head>): Bytes
  {
    codec.encode(HeadOf(f, gzip)) + [Newline] + Payload(f, gzip, codec)
  }

  /** The fields of the `Response` that `load` builds from the bytes it read. */
  function LoadValue(data: Bytes, codec: Codec<Head>): Loading<Fields>
  {
    var (headBytes, rest) := Split(data);
    match codec.decode(headBytes)
    case None => HeadThrows
    case Some(h) =>
      var body := if Truthy(h.encoding) && |rest| > 0 then codec.gunzip(rest) else Some(rest);
      if body.None? then GunzipRejected
      else Loaded(Fields(h.url, h.statusCode, h.statusMessage, h.headers, h.httpVersion, h.fetchStart, h.fetchEnd, Some(body.value)))
  }

  /**
   * `Response.load`: a new object built by the constructor from the loaded
   * head and body, a rejection when gunzip fails, or a promise that never
   * settles when the head is malformed.
   */
  method Load(data: Bytes, codec: Codec<Head>) returns (r: Loading<Response>)
    ensures r.GunzipRejected? <==> LoadValue(data, codec).GunzipRejected?
    ensures r.HeadThrows? <==> LoadValue(data, codec).HeadThrows?
    ensures r.Loaded? ==> fresh(r.value) && r.value.Snapshot() == LoadValue(data, codec).value
  {
    var v := LoadValue(data, codec);
    if v.HeadThrows? {
      return HeadThrows;
    } else if v.GunzipRejected? {
      return GunzipRejected;
    }
    var f := v.value;
    var res := new Response(f.url, Message(f.statusCode, f.statusText, f.headers, f.httpVersion, f.fetchStart, f.fetchEnd), f.body);
    return Loaded(res);
  }

  /** The head is marked `gzip` exactly when the `gzip` argument is set, whatever the content type or body. */
  lemma EncodingMarker(f: Fields, gzip: bool)
    ensures HeadOf(f, gzip).encoding == Some("gzip") <==> gzip
    ensures !gzip ==> HeadOf(f, gzip).encoding.None?
  {
  }

  /** The file is the encoded head, one newline, and the (possibly gzipped) body. */
  lemma SaveLayout(f: Fields, gzip: bool, codec: Codec<Head>)
    requires Lawful(codec)
    ensures Split(SaveBytes(f, gzip, codec)) == (codec.encode(HeadOf(f, gzip)), Payload(f, gzip, codec))
    ensures gzip && f.body.Some? && |f.body.value| > 0 ==> Payload(f, gzip, codec) == codec.gzip(f.body.value)
    ensures !(gzip && f.body.Some? && |f.body.value| > 0) ==> Payload(f, gzip, codec) == f.body.GetOr([])
  {
    SplitFramed(codec.encode(HeadOf(f, gzip)), Payload(f, gzip, codec));
  }

  /**
   * Saving and loading again keeps every field except `statusText`, which is
   * lost, and a missing body, which comes back empty.
   */
  lemma {:induction false} RoundTrip(f: Fields, gzip: bool, codec: Codec<Head>)
    requires Lawful(codec)
    ensures LoadValue(SaveBytes(f, gzip, codec), codec) ==
      Loaded(f.(statusText := None, body := Some(f.body.GetOr([]))))
  {
    var h := HeadOf(f, gzip);
    var body := f.body.GetOr([]);
    var payload := Payload(f, gzip, codec);
    SaveLayout(f, gzip, codec);
    assert codec.decode(codec.encode(h)) == Some(h);
    if gzip && |body| > 0 {
      assert Truthy(h.encoding) && |payload| > 0;
      assert codec.gunzip(payload) == Some(body);
    } else {
      assert payload == body;
      assert !Truthy(h.encoding) || |payload| == 0;
    }
  }

  /** The status text of a saved response never survives, even when it was set. */
  lemma StatusTextLost(f: Fields, gzip: bool, codec: Codec<Head>)
    requires Lawful(codec) && f.statusText.Some?
    ensures var r := LoadValue(SaveBytes(f, gzip, codec), codec);
      r.Loaded? && r.value.statusText.None? && r.value != f
  {
    RoundTrip(f, gzip, codec);
  }

  // The cases of tests/response.js: `'hello'`, `''` and an empty buffer, with and without gzip.

  lemma ExampleBodies(f: Fields, gzip: bool, codec: Codec<Head>)
    requires Lawful(codec)
    requires f.body == Some([0x68, 0x65, 0x6C, 0x6C, 0x6F]) || f.body == Some([])
    ensures var r := LoadValue(SaveBytes(f, gzip, codec), codec);
      r.Loaded? && r.value.body == f.body
  {
    RoundTrip(f, gzip, codec);
  }
}
