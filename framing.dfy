/**
 * Native-messaging framing on the bridge's stdin/stdout: every message is a
 * 4-byte length followed by exactly that many payload bytes, with nothing
 * between frames. The host is Windows on x86, so "native byte order" is
 * little-endian. The writer packs the length unsigned (`struct.pack('I')`),
 * the reader unpacks it signed (`struct.unpack('i')`).
 */
module Framing {
  import opened JsonValues

  const HeaderSize := 4
  const Two31 := 0x8000_0000
  const Two32 := 0x1_0000_0000

  /** `struct.pack('I', n)`: `n` as 4 little-endian bytes. */
  function PackLength(n: nat): (r: seq<byte>)
    requires n < Two32
    ensures |r| == HeaderSize
  {
    var q1 := n / 256;
    var q2 := q1 / 256;
    [(n % 256) as byte, (q1 % 256) as byte, (q2 % 256) as byte, (q2 / 256) as byte]
  }

  /** The unsigned little-endian value of a 4-byte header. */
  function Unsigned(b: seq<byte>): (u: nat)
    requires |b| == HeaderSize
    ensures u < Two32
  {
    (b[0] as int) + 256 * ((b[1] as int) + 256 * ((b[2] as int) + 256 * (b[3] as int)))
  }

  /** `struct.unpack('i', b)[0]`: the header read as a signed 32-bit value. */
  function UnpackLength(b: seq<byte>): (n: int)
    requires |b| == HeaderSize
    ensures -Two31 <= n < Two31
    ensures n >= 0 <==> Unsigned(b) < Two31
  {
    var u := Unsigned(b);
    if u < Two31 then u else u - Two32
  }

  /**
   * Packing then reading back unsigned gives every length below 2^32
   * back; read back signed, lengths from 2^31 on come back negative.
   */
  lemma UnpackPack(n: nat)
    requires n < Two32
    ensures Unsigned(PackLength(n)) == n
    ensures n < Two31 ==> UnpackLength(PackLength(n)) == n
    ensures Two31 <= n ==> UnpackLength(PackLength(n)) == n - Two32
  {
    var q1 := n / 256;
    var q2 := q1 / 256;
    assert n == n % 256 + 256 * q1;
    assert q1 == q1 % 256 + 256 * q2;
    assert q2 == q2 % 256 + 256 * (q2 / 256);
    var b := PackLength(n);
    assert b[0] as int == n % 256 && b[1] as int == q1 % 256;
    assert b[2] as int == q2 % 256 && b[3] as int == q2 / 256;
  }

  /** `send_request_to_chrome`'s output: the length of `payload`, then `payload`. */
  function EncodeFrame(payload: seq<byte>): (r: seq<byte>)
    requires |payload| < Two31
    ensures |r| == HeaderSize + |payload|
    ensures r[..HeaderSize] == PackLength(|payload|) && r[HeaderSize..] == payload
  {
    PackLength(|payload|) + payload
  }

  /** What one turn of the reader loop gets from the remaining stdin bytes. */
  datatype ReadResult =
    | EndOfStream                                 // read(4) returned nothing
    | BadHeader                                   // 1 to 3 bytes: struct.unpack raises
    | Frame(payload: seq<byte>, rest: seq<byte>)  // a payload and the bytes after it

  /**
   * One frame read from `input`, as `read_thread_func` does: read 4 bytes;
   * none means end of stream; otherwise `read(n)` with the signed length,
   * which at the end of the stream returns the bytes that are left, and
   * for a negative `n` returns everything up to the end of the stream.
   */
  function ReadFrame(input: seq<byte>): (r: ReadResult)
    ensures r == EndOfStream <==> input == []
    ensures r == BadHeader <==> 0 < |input| < HeaderSize
    ensures r.Frame? ==> |r.payload| + |r.rest| + HeaderSize == |input| && input == input[..HeaderSize] + r.payload + r.rest
    ensures r.Frame? ==>
      var n := UnpackLength(input[..HeaderSize]);
      |r.payload| == if 0 <= n <= |input| - HeaderSize then n else |input| - HeaderSize
  {
    if |input| == 0 then EndOfStream
    else if |input| < HeaderSize then BadHeader
    else
      var n := UnpackLength(input[..HeaderSize]);
      var body := input[HeaderSize..];
      if 0 <= n <= |body| then
        assert input == input[..HeaderSize] + body[..n] + body[n..];
        Frame(body[..n], body[n..])
      else
        assert input == input[..HeaderSize] + body + [];
        Frame(body, [])
  }

  /** Reading a frame the writer produced yields its payload and leaves what follows untouched. */
  lemma ReadEncodedFrame(payload: seq<byte>, rest: seq<byte>)
    requires |payload| < Two31
    ensures ReadFrame(EncodeFrame(payload) + rest) == Frame(payload, rest)
  {
    var input := EncodeFrame(payload) + rest;
    assert input[..HeaderSize] == PackLength(|payload|);
    UnpackPack(|payload|);
    assert input[HeaderSize..] == payload + rest;
    assert (payload + rest)[..|payload|] == payload;
    assert (payload + rest)[|payload|..] == rest;
  }

  /** Every payload in `ps` fits the writer's length field. */
  ghost predicate Encodable(ps: seq<seq<byte>>)
  {
    forall i :: 0 <= i < |ps| ==> |ps[i]| < Two31
  }

  /** Several frames written one after another. */
  function EncodeFrames(ps: seq<seq<byte>>): (r: seq<byte>)
    requires Encodable(ps)
  {
    if ps == [] then [] else EncodeFrame(ps[0]) + EncodeFrames(ps[1..])
  }

  /** The payloads the reader obtains before it stops, and whether it stopped at the end of the stream. */
  function ReadFrames(input: seq<byte>): (r: (seq<seq<byte>>, bool))
    decreases |input|
  {
    match ReadFrame(input)
    case EndOfStream => ([], true)
    case BadHeader => ([], false)
    case Frame(p, rest) =>
      var tail := ReadFrames(rest);
      ([p] + tail.0, tail.1)
  }

  /** Reading a stream of written frames gives back every payload, in order, then the end of the stream. */
  lemma {:induction false} ReadEncodedFrames(ps: seq<seq<byte>>)
    requires Encodable(ps)
    ensures ReadFrames(EncodeFrames(ps)) == (ps, true)
  {
    if ps != [] {
      assert Encodable(ps[1..]) by {
        forall i | 0 <= i < |ps[1..]| ensures |ps[1..][i]| < Two31 {
          assert ps[1..][i] == ps[i + 1];
        }
      }
      ReadEncodedFrame(ps[0], EncodeFrames(ps[1..]));
      ReadEncodedFrames(ps[1..]);
      assert [ps[0]] + ps[1..] == ps;
    }
  }
}
