/**
 * Length-prefixed framing used by the coordinator over TCP: a frame is the
 * payload length as an 8-byte little-endian `u64`, followed by the payload.
 * The connection is a pair of byte sequences: the bytes still to be read and
 * the bytes written so far.
 */
module TcpFraming {
  import opened Wrappers
  import opened Bytes


  const HeaderLength: nat := 8
  const U64Bound: nat := 0x1_0000_0000_0000_0000

  /** `n.to_le_bytes()` for an unsigned integer of `width` bytes. */
  function LeBytes(n: nat, width: nat): (bytes: seq<byte>)
    decreases width
    ensures |bytes| == width
  {
    if width == 0 then [] else [(n % 256) as byte] + LeBytes(n / 256, width - 1)
  }

  /** `from_le_bytes`: the unsigned value of a little-endian byte sequence. */
  function FromLeBytes(bytes: seq<byte>): (n: nat)
    decreases |bytes|
  {
    if bytes == [] then 0 else bytes[0] as nat + 256 * FromLeBytes(bytes[1..])
  }

  function Pow256(width: nat): (p: nat)
    ensures p >= 1
  {
    if width == 0 then 1 else 256 * Pow256(width - 1)
  }

  lemma QuotientBound(n: nat, p: nat)
    requires n < 256 * p
    ensures n / 256 < p
  {
  }

  /** Decoding inverts encoding for every value that fits in the width. */
  lemma {:induction false} DecodeEncode(n: nat, width: nat)
    requires n < Pow256(width)
    ensures FromLeBytes(LeBytes(n, width)) == n
    decreases width
  {
    if width > 0 {
      var q, r := n / 256, n % 256;
      QuotientBound(n, Pow256(width - 1));
      DecodeEncode(q, width - 1);
      var bytes := LeBytes(n, width);
      assert bytes == [r as byte] + LeBytes(q, width - 1);
      assert bytes[1..] == LeBytes(q, width - 1);
      assert FromLeBytes(bytes) == r + 256 * q;
    }
  }

  /** Encoding inverts decoding: every byte sequence is the encoding of its value. */
  lemma {:induction false} EncodeDecode(bytes: seq<byte>)
    ensures LeBytes(FromLeBytes(bytes), |bytes|) == bytes
    decreases |bytes|
  {
    if bytes != [] {
      var rest := FromLeBytes(bytes[1..]);
      assert (bytes[0] as nat + 256 * rest) % 256 == bytes[0] as nat;
      assert (bytes[0] as nat + 256 * rest) / 256 == rest;
      EncodeDecode(bytes[1..]);
    }
  }

  lemma U64BoundIsPow()
    ensures Pow256(HeaderLength) == U64Bound
  {
  }

  /** The header `tcp_send` writes in front of a message: `(len as u64).to_le_bytes()`. */
  function Header(len: nat): (h: seq<byte>)
    requires len < U64Bound
    ensures |h| == HeaderLength
  {
    LeBytes(len, HeaderLength)
  }

  /** All bytes `tcp_send` writes for one message. */
  function Frame(message: seq<byte>): (f: seq<byte>)
    requires |message| < U64Bound
  {
    Header(|message|) + message
  }

  /** A frame is exactly the header and the unchanged message, and its header reads back as the length. */
  lemma FrameLayout(message: seq<byte>)
    requires |message| < U64Bound
    ensures |Frame(message)| == HeaderLength + |message|
    ensures Frame(message)[HeaderLength..] == message
    ensures FromLeBytes(Frame(message)[..HeaderLength]) == |message|
  {
    U64BoundIsPow();
    DecodeEncode(|message|, HeaderLength);
    assert Frame(message)[..HeaderLength] == Header(|message|);
  }

  /**
   * What `tcp_receive` makes of a stream: the payload of the first frame and
   * the bytes after it, or `None` when the stream ends inside the header or
   * inside the declared payload.
   */
  function DecodeFrame(stream: seq<byte>): (r: Option<(seq<byte>, seq<byte>)>)
    ensures r.None? <==> |stream| < HeaderLength || |stream| - HeaderLength < FromLeBytes(stream[..HeaderLength])
    ensures r.Some? ==> stream == stream[..HeaderLength] + r.value.0 + r.value.1
    ensures r.Some? ==> |r.value.0| == FromLeBytes(stream[..HeaderLength])
  {
    if |stream| < HeaderLength then None
    else
      var len := FromLeBytes(stream[..HeaderLength]);
      if |stream| - HeaderLength < len then None
      else
        var payload, rest := stream[HeaderLength..HeaderLength + len], stream[HeaderLength + len..];
        assert stream == stream[..HeaderLength] + payload + rest;
        Some((payload, rest))
  }

  /** Round trip: a stream that starts with the frame of `m` delivers `m`, and nothing of what follows. */
  lemma {:induction false} ReceiveAfterSend(m: seq<byte>, rest: seq<byte>)
    requires |m| < U64Bound
    ensures DecodeFrame(Frame(m) + rest) == Some((m, rest))
  {
    var s := Frame(m) + rest;
    FrameLayout(m);
    assert s[..HeaderLength] == Frame(m)[..HeaderLength];
    assert s[HeaderLength..HeaderLength + |m|] == m;
    assert s[HeaderLength + |m|..] == rest;
  }

  /** The bytes of several frames sent one after another. */
  function Frames(ms: seq<seq<byte>>): (s: seq<byte>)
    requires forall i :: 0 <= i < |ms| ==> |ms[i]| < U64Bound
  {
    if ms == [] then [] else Frame(ms[0]) + Frames(ms[1..])
  }

  /** Receiving `count` frames in a row, as repeated `tcp_receive` calls do. */
  function DecodeFrames(stream: seq<byte>, count: nat): (r: Option<seq<seq<byte>>>)
    ensures r.Some? ==> |r.value| == count
    decreases count
  {
    if count == 0 then Some([])
    else match DecodeFrame(stream)
      case None => None
      case Some((m, rest)) =>
        match DecodeFrames(rest, count - 1)
        case None => None
        case Some(ms) => Some([m] + ms)
  }

  /** Consecutive frames decode in order, because each receive consumes exactly its own frame. */
  lemma {:induction false} FramesDecodeInOrder(ms: seq<seq<byte>>)
    requires forall i :: 0 <= i < |ms| ==> |ms[i]| < U64Bound
    ensures DecodeFrames(Frames(ms), |ms|) == Some(ms)
  {
    if ms != [] {
      ReceiveAfterSend(ms[0], Frames(ms[1..]));
      FramesDecodeInOrder(ms[1..]);
      assert [ms[0]] + ms[1..] == ms;
    }
  }

  /** A TCP connection seen from one end. */
  class Connection {
    /** Bytes the peer has sent that are not yet read; the stream ends after them. */
    var incoming: seq<byte>
    /** Bytes written to the connection so far. */
    var outgoing: seq<byte>

    constructor (peerBytes: seq<byte>)
      ensures incoming == peerBytes && outgoing == []
    {
      incoming := peerBytes;
      outgoing := [];
    }

    /** `write_all`: appends the whole buffer to the connection. */
    method WriteAll(data: seq<byte>)
      modifies this
      ensures outgoing == old(outgoing) + data
      ensures incoming == old(incoming)
    {
      outgoing := outgoing + data;
    }

    /**
     * `read_exact`: fills the whole buffer from the stream, or fails with an
     * unexpected end of file when the stream ends first; then the stream is
     * used up and the buffer's contents are unspecified.
     */
    method ReadExact(buf: array<byte>) returns (ok: bool)
      modifies this, buf
      ensures outgoing == old(outgoing)
      ensures ok <==> buf.Length <= |old(incoming)|
      ensures ok ==> buf[..] == old(incoming)[..buf.Length] && incoming == old(incoming)[buf.Length..]
      ensures !ok ==> incoming == []
    {
      if |incoming| < buf.Length {
        incoming := [];
        return false;
      }
      var data := incoming;
      for i := 0 to buf.Length
        invariant buf[..i] == data[..i]
        invariant outgoing == old(outgoing)
      {
        buf[i] := data[i];
      }
      incoming := data[buf.Length..];
      return true;
    }
  }

  datatype IoError = UnexpectedEof

  /** `tcp_send`: the length header, then the message. */
  method TcpSend(connection: Connection, message: seq<byte>) returns (r: Outcome<IoError>)
    requires |message| < U64Bound
    modifies connection
    ensures r == Pass
    ensures connection.outgoing == old(connection.outgoing) + Frame(message)
    ensures connection.incoming == old(connection.incoming)
  {
    var lenRaw := LeBytes(|message|, HeaderLength);
    connection.WriteAll(lenRaw);
    connection.WriteAll(message);
    return Pass;
  }

  /** `tcp_receive`: reads the 8-byte header into a fresh buffer, then exactly that many payload bytes. */
  method TcpReceive(connection: Connection) returns (r: Result<seq<byte>, IoError>)
    modifies connection
    ensures connection.outgoing == old(connection.outgoing)
    ensures r.Ok? <==> DecodeFrame(old(connection.incoming)).Some?
    ensures r.Ok? ==> (r.value, connection.incoming) == DecodeFrame(old(connection.incoming)).value
    ensures r.Err? ==> r.error == UnexpectedEof && connection.incoming == []
  {
    ghost var stream := connection.incoming;
    var raw := new byte[HeaderLength];
    var ok := connection.ReadExact(raw);
    if !ok {
      return Err(UnexpectedEof);
    }
    var replyLen := FromLeBytes(raw[..]);
    assert raw[..] == stream[..HeaderLength];
    var reply := new byte[replyLen];
    ok := connection.ReadExact(reply);
    if !ok {
      return Err(UnexpectedEof);
    }
    assert stream[HeaderLength..][..replyLen] == stream[HeaderLength..HeaderLength + replyLen];
    assert stream[HeaderLength..][replyLen..] == stream[HeaderLength + replyLen..];
    return Ok(reply[..]);
  }
}
