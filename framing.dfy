/**
 * The byte-level framing shared by both persistence formats: a file is a
 * header block, one newline byte (0x0A), and the payload; a reader splits at
 * the first newline with the semantics of Node's `Buffer.indexOf` and
 * `Buffer.slice`.
 */
module Framing {
  import opened Wrappers

  type Byte = x: int | 0 <= x < 256
  type Bytes = seq<Byte>

  const Newline: Byte := 0x0A

  /** `Buffer.indexOf(b)`: the first index holding `b`, or -1. */
  function IndexOf(data: Bytes, b: Byte): (i: int)
    ensures -1 <= i < |data|
    ensures i == -1 <==> b !in data
    ensures 0 <= i ==> data[i] == b && b !in data[..i]
  {
    if data == [] then -1
    else if data[0] == b then 0
    else
      var j := IndexOf(data[1..], b);
      if j == -1 then -1
      else
        assert data[..j + 1] == [data[0]] + data[1..][..j];
        j + 1
  }

  /**
   * `[data.slice(0, index), data.slice(index + 1)]` with `index = data.indexOf(0x0a)`.
   * Without a newline the index is -1, so the head loses the last byte and the
   * rest is the whole file.
   */
  function Split(data: Bytes): (Bytes, Bytes)
  {
    var i := IndexOf(data, Newline);
    if i >= 0 then (data[..i], data[i + 1..])
    else (data[..if |data| > 0 then |data| - 1 else 0], data)
  }

  /** A newline-free head followed by a newline is split back into head and payload. */
  lemma SplitFramed(head: Bytes, payload: Bytes)
    requires Newline !in head
    ensures Split(head + [Newline] + payload) == (head, payload)
  {
    var data := head + [Newline] + payload;
    assert data[|head|] == Newline;
    assert data[..|head|] == head;
    assert data[|head| + 1..] == payload;
  }

  /**
   * The foreign encoders the persistence format relies on: JSON for the head
   * and zlib's gzip/gunzip for the payload. A failing decoder yields `None`.
   */
  datatype Codec<!H> = Codec(
    encode: H -> Bytes,
    decode: Bytes -> Option<H>,
    gzip: Bytes -> Bytes,
    gunzip: Bytes -> Option<Bytes>)

  /** What the round trip needs of the foreign encoders (a gzip stream is never empty: it has a header). */
  ghost predicate Lawful<H(!new)>(c: Codec<H>)
  {
    && (forall h :: Newline !in c.encode(h))
    && (forall h :: c.decode(c.encode(h)) == Some(h))
    && (forall b :: c.gunzip(c.gzip(b)) == Some(b))
    && (forall b :: |c.gzip(b)| > 0)
  }

  /**
   * How the promise returned by `load` ends once the file has been read:
   * resolved with the loaded value, rejected because gunzip failed, or never
   * settled, because `JSON.parse` of a malformed head throws inside the
   * `readFile` callback, where no handler catches it.
   */
  datatype Loading<T> = Loaded(value: T) | GunzipRejected | HeadThrows

  /** JavaScript truthiness of an optional string field such as `_encoding`. */
  predicate Truthy(s: Option<string>)
  {
    s.Some? && s.value != ""
  }
}
