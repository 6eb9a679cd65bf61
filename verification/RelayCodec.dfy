/** The relay's wire frames (swarm/relay.go writeFrame and readFrame, swarm/types.go frame header). */
module RelayCodec {
  import opened Common
  import opened SwarmTypes
  import opened LittleEndian

  type Uint16 = x: int | 0 <= x < 0x1_0000
  type Uint32 = x: int | 0 <= x < 0x1_0000_0000

  const HEADER_SIZE := 9
  const MAX_PAYLOAD := 0x10_0000

  const FRAME_AUTH: Byte := 0x01
  const FRAME_AUTH_OK: Byte := 0x02
  const FRAME_AUTH_FAIL: Byte := 0x03
  const FRAME_DATA: Byte := 0x10
  const FRAME_NO_ROUTE: Byte := 0x11
  const FRAME_PING: Byte := 0x20
  const FRAME_PONG: Byte := 0x21

  datatype Header = Header(kind: Byte, dstDomain: Byte, dstGroup: Byte, dstEndpoint: Uint16, payloadLen: Uint32)

  datatype Frame = Frame(kind: Byte, domain: Byte, group: Byte, endpoint: Uint16, payload: Bytes)

  /** The header every caller builds: the payload length as a uint32. */
  function HeaderOf(f: Frame): Header {
    Header(f.kind, f.domain, f.group, f.endpoint, |f.payload| % 0x1_0000_0000)
  }

  function EncodeHeader(h: Header): (b: Bytes)
    ensures |b| == HEADER_SIZE
  {
    [h.kind, h.dstDomain, h.dstGroup] + LE(h.dstEndpoint, 2) + LE(h.payloadLen, 4)
  }

  function DecodeHeader(b: Bytes): Header
    requires |b| == HEADER_SIZE
  {
    EncodeDecode(b[3..5]);
    EncodeDecode(b[5..9]);
    Widths();
    Header(b[0], b[1], b[2], FromLE(b[3..5]), FromLE(b[5..9]))
  }

  function Encode(f: Frame): Bytes {
    EncodeHeader(HeaderOf(f)) + f.payload
  }

  function EncodeAll(fs: seq<Frame>): Bytes {
    if fs == [] then [] else EncodeAll(fs[..|fs| - 1]) + Encode(fs[|fs| - 1])
  }

  datatype ReadError = Truncated | ExceedsMaxPayload

  datatype Decoded = Decoded(frame: Frame, rest: Bytes)

  /** One readFrame on a stream whose remaining bytes are `s`. */
  function Decode(s: Bytes): Result<Decoded, ReadError> {
    if |s| < HEADER_SIZE then Err(Truncated)
    else
      var h := DecodeHeader(s[..HEADER_SIZE]);
      if h.payloadLen > MAX_PAYLOAD then Err(ExceedsMaxPayload)
      else if |s| < HEADER_SIZE + h.payloadLen then Err(Truncated)
      else
        var cut := HEADER_SIZE + h.payloadLen;
        Ok(Decoded(Frame(h.kind, h.dstDomain, h.dstGroup, h.dstEndpoint, s[HEADER_SIZE..cut]), s[cut..]))
  }

  /** Reading frames until one cannot be read: the frames, and the bytes left over. */
  function DecodeAll(s: Bytes): (seq<Frame>, Bytes)
    decreases |s|
  {
    match Decode(s)
    case Err(_) => ([], s)
    case Ok(d) =>
      var (fs, rest) := DecodeAll(d.rest);
      ([d.frame] + fs, rest)
  }

  /** Nine bytes: type, domain, group, then the endpoint and the payload length, low byte first. */
  lemma HeaderLayout(h: Header)
    ensures EncodeHeader(h) == [
      h.kind, h.dstDomain, h.dstGroup,
      h.dstEndpoint % 256, h.dstEndpoint / 256,
      h.payloadLen % 256, h.payloadLen / 256 % 256, h.payloadLen / 0x1_0000 % 256, h.payloadLen / 0x100_0000]
  {
    TwoBytes(h.dstEndpoint);
    FourBytes(h.payloadLen);
  }

  lemma HeaderRoundTrip(h: Header)
    ensures DecodeHeader(EncodeHeader(h)) == h
  {
    var b := EncodeHeader(h);
    Widths();
    assert b[3..5] == LE(h.dstEndpoint, 2) && b[5..9] == LE(h.payloadLen, 4);
    DecodeEncode(h.dstEndpoint, 2);
    DecodeEncode(h.payloadLen, 4);
  }

  lemma HeaderBytesRoundTrip(b: Bytes)
    requires |b| == HEADER_SIZE
    ensures EncodeHeader(DecodeHeader(b)) == b
  {
    EncodeDecode(b[3..5]);
    EncodeDecode(b[5..9]);
    assert b == [b[0], b[1], b[2]] + b[3..5] + b[5..9];
  }

  lemma DecodeSeesHeader(f: Frame, tail: Bytes)
    ensures var s := Encode(f) + tail;
      |s| >= HEADER_SIZE && DecodeHeader(s[..HEADER_SIZE]) == HeaderOf(f) && s[HEADER_SIZE..] == f.payload + tail
  {
    var s := Encode(f) + tail;
    assert s[..HEADER_SIZE] == EncodeHeader(HeaderOf(f));
    HeaderRoundTrip(HeaderOf(f));
  }

  /** A frame followed by anything reads back as itself exactly when its payload is at most 1 MiB. */
  lemma FrameRoundTripIff(f: Frame, tail: Bytes)
    ensures Decode(Encode(f) + tail) == Ok(Decoded(f, tail)) <==> |f.payload| <= MAX_PAYLOAD
  {
    DecodeSeesHeader(f, tail);
    var s := Encode(f) + tail;
    if |f.payload| <= MAX_PAYLOAD {
      var cut := HEADER_SIZE + |f.payload|;
      assert s[HEADER_SIZE..cut] == f.payload && s[cut..] == tail;
    } else if Decode(s).Ok? {
      assert |Decode(s).value.frame.payload| <= MAX_PAYLOAD;
    }
  }

  /** A length above 1 MiB that fits the header's field is refused as such, whatever follows the header. */
  lemma OversizedRefused(f: Frame, tail: Bytes)
    requires MAX_PAYLOAD < |f.payload| < 0x1_0000_0000
    ensures Decode(EncodeHeader(HeaderOf(f)) + tail) == Err(ExceedsMaxPayload)
  {
    var s := EncodeHeader(HeaderOf(f)) + tail;
    assert s[..HEADER_SIZE] == EncodeHeader(HeaderOf(f));
    HeaderRoundTrip(HeaderOf(f));
  }

  /** Whatever reads successfully is the encoding of the frame read. */
  lemma DecodeInvertsEncode(s: Bytes)
    requires Decode(s).Ok?
    ensures var d := Decode(s).value; s == Encode(d.frame) + d.rest && |d.frame.payload| <= MAX_PAYLOAD
  {
    var h := DecodeHeader(s[..HEADER_SIZE]);
    var cut := HEADER_SIZE + h.payloadLen;
    HeaderBytesRoundTrip(s[..HEADER_SIZE]);
    assert HeaderOf(Decode(s).value.frame) == h;
    assert s == s[..HEADER_SIZE] + s[HEADER_SIZE..cut] + s[cut..];
  }

  /** A frame cut short at any byte cannot be read. */
  lemma PartialFrameUnreadable(f: Frame, n: nat)
    requires |f.payload| <= MAX_PAYLOAD && n < |Encode(f)|
    ensures Decode(Encode(f)[..n]) == Err(Truncated)
  {
    if n >= HEADER_SIZE {
      var s := Encode(f)[..n];
      assert s[..HEADER_SIZE] == EncodeHeader(HeaderOf(f));
      HeaderRoundTrip(HeaderOf(f));
    }
  }

  ghost predicate Readable(fs: seq<Frame>) {
    forall f :: f in fs ==> |f.payload| <= MAX_PAYLOAD
  }

  lemma DecodeAllStep(f: Frame, tail: Bytes)
    requires |f.payload| <= MAX_PAYLOAD
    ensures DecodeAll(Encode(f) + tail) == ([f] + DecodeAll(tail).0, DecodeAll(tail).1)
  {
    FrameRoundTripIff(f, tail);
  }

  /** Reading the concatenated encodings of any readable frames gives those frames, then continues in the tail. */
  lemma {:induction false} StreamRoundTrip(fs: seq<Frame>, tail: Bytes)
    requires Readable(fs)
    ensures DecodeAll(EncodeAll(fs) + tail) == (fs + DecodeAll(tail).0, DecodeAll(tail).1)
    decreases |fs|
  {
    if fs == [] {
      assert EncodeAll(fs) + tail == tail && fs + DecodeAll(tail).0 == DecodeAll(tail).0;
    } else {
      var init, f := fs[..|fs| - 1], fs[|fs| - 1];
      var (more, left) := DecodeAll(tail);
      assert DecodeAll(EncodeAll(init) + (Encode(f) + tail)) == (init + ([f] + more), left) by {
        StreamRoundTrip(init, Encode(f) + tail);
        DecodeAllStep(f, tail);
      }
      Regroup(EncodeAll(init), Encode(f), tail, init, f, more, left);
      assert fs == init + [f];
    }
  }

  lemma Regroup(a: Bytes, b: Bytes, c: Bytes, init: seq<Frame>, f: Frame, more: seq<Frame>, left: Bytes)
    requires DecodeAll(a + (b + c)) == (init + ([f] + more), left)
    ensures DecodeAll(a + b + c) == (init + [f] + more, left)
  {
    AppendAssociates(a, b, c);
    assert init + ([f] + more) == init + [f] + more;
  }

  lemma AppendAssociates(a: Bytes, b: Bytes, c: Bytes)
    ensures (a + b) + c == a + (b + c)
  {
  }

  /** Whatever a reader gets out of any byte stream re-encodes to exactly the bytes it consumed. */
  lemma {:induction false} ReadBytesReEncode(s: Bytes)
    ensures s == EncodeAll(DecodeAll(s).0) + DecodeAll(s).1 && Readable(DecodeAll(s).0) && Decode(DecodeAll(s).1).Err?
    decreases |s|
  {
    if Decode(s).Ok? {
      var f, rest := Decode(s).value.frame, Decode(s).value.rest;
      DecodeInvertsEncode(s);
      ReadBytesReEncode(rest);
      var fs, left := DecodeAll(rest).0, DecodeAll(rest).1;
      DecodeAllStep(f, rest);
      EncodeAllCons(f, fs);
      assert s == Encode(f) + (EncodeAll(fs) + left);
      assert s == (Encode(f) + EncodeAll(fs)) + left;
    }
  }

  lemma EncodeAllSnoc(fs: seq<Frame>, f: Frame)
    ensures EncodeAll(fs + [f]) == EncodeAll(fs) + Encode(f)
  {
    assert (fs + [f])[..|fs|] == fs;
  }

  lemma {:induction false} EncodeAllCons(f: Frame, fs: seq<Frame>)
    ensures EncodeAll([f] + fs) == Encode(f) + EncodeAll(fs)
    decreases |fs|
  {
    if fs == [] {
      EncodeAllSnoc([], f);
      assert [] + [f] == [f] + fs;
    } else {
      var init, last := fs[..|fs| - 1], fs[|fs| - 1];
      EncodeAllCons(f, init);
      EncodeAllSnoc([f] + init, last);
      assert [f] + init + [last] == [f] + fs;
      AppendAssociates(Encode(f), EncodeAll(init), Encode(last));
    }
  }

  // ---------- the codec over buffers ----------

  /** One direction of a connection each way: bytes still to be read, and bytes written. */
  class Conn {
    var inbound: Bytes
    var outbound: Bytes

    constructor (incoming: Bytes)
      ensures inbound == incoming && outbound == []
    {
      inbound, outbound := incoming, [];
    }

    method Write(b: Bytes)
      modifies this`outbound
      ensures outbound == old(outbound) + b
    {
      outbound := outbound + b;
    }

    /** io.ReadFull: all of `n` bytes, or an error with the stream drained. */
    method ReadFull(n: nat) returns (b: Option<Bytes>)
      modifies this`inbound
      ensures if n <= |old(inbound)| then b == Some(old(inbound)[..n]) && inbound == old(inbound)[n..]
              else b == None && inbound == []
    {
      if n <= |inbound| {
        b := Some(inbound[..n]);
        inbound := inbound[n..];
      } else {
        b := None;
        inbound := [];
      }
    }
  }

  method PutLE(buf: array<Byte>, at: nat, n: nat, k: nat)
    requires at + k <= buf.Length
    modifies buf
    ensures buf[..] == old(buf[..at]) + LE(n, k) + old(buf[at + k..])
  {
    var rest := n;
    ghost var before := buf[..];
    for i := 0 to k
      invariant buf[..at] == before[..at] && buf[at + i..] == before[at + i..]
      invariant buf[at..at + i] + LE(rest, k - i) == LE(n, k)
    {
      assert LE(rest, k - i) == [rest % 256] + LE(rest / 256, k - i - 1);
      buf[at + i] := rest % 256;
      assert buf[at..at + i + 1] == buf[at..at + i] + [rest % 256];
      rest := rest / 256;
    }
    assert buf[..] == buf[..at] + buf[at..at + k] + buf[at + k..];
  }

  method WriteFrame(w: Conn, hdr: Header, payload: Bytes)
    modifies w`outbound
    ensures w.outbound == old(w.outbound) + EncodeHeader(hdr) + payload
  {
    var buf := new Byte[HEADER_SIZE];
    buf[0] := hdr.kind;
    buf[1] := hdr.dstDomain;
    buf[2] := hdr.dstGroup;
    PutLE(buf, 3, hdr.dstEndpoint, 2);
    PutLE(buf, 5, hdr.payloadLen, 4);
    assert buf[..] == EncodeHeader(hdr);
    w.Write(buf[..]);
    if |payload| > 0 {
      w.Write(payload);
    }
  }

  /** Success consumes exactly one frame. */
  method ReadFrame(r: Conn) returns (res: Result<Frame, ReadError>)
    modifies r`inbound
    ensures match Decode(old(r.inbound))
      case Ok(d) => res == Ok(d.frame) && r.inbound == d.rest
      case Err(e) => res == Err(e)
  {
    var start := r.inbound;
    var head := r.ReadFull(HEADER_SIZE);
    if head.None? {
      return Err(Truncated);
    }
    var hdr := DecodeHeader(head.value);
    if hdr.payloadLen > MAX_PAYLOAD {
      return Err(ExceedsMaxPayload);
    }
    var payload := [];
    if hdr.payloadLen > 0 {
      var body := r.ReadFull(hdr.payloadLen);
      if body.None? {
        return Err(Truncated);
      }
      payload := body.value;
    }
    var cut := HEADER_SIZE + hdr.payloadLen;
    assert start[HEADER_SIZE..][..hdr.payloadLen] == start[HEADER_SIZE..cut];
    assert start[HEADER_SIZE..][hdr.payloadLen..] == start[cut..];
    return Ok(Frame(hdr.kind, hdr.dstDomain, hdr.dstGroup, hdr.dstEndpoint, payload));
  }

  method WriteDataFrame(w: Conn, dst: EndpointAddr, payload: Bytes)
    modifies w`outbound
    ensures w.outbound == old(w.outbound) + Encode(Frame(FRAME_DATA, dst.domain, dst.group, dst.endpoint, payload))
  {
    WriteFrame(w, Header(FRAME_DATA, dst.domain, dst.group, dst.endpoint, |payload| % 0x1_0000_0000), payload);
  }
}
