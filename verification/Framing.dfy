/** The 16-byte frame header and the self-delimiting stream of frames, as go/frame.go has them. */
module Framing {

  const TWO16: int := 0x1_0000
  const TWO32: int := 0x1_0000_0000

  type byte = x: int | 0 <= x < 256
  type u16 = x: int | 0 <= x < TWO16
  type u32 = x: int | 0 <= x < TWO32

  const HEADER_SIZE: nat := 16

  const REQUEST: byte := 1
  const RESPONSE: byte := 2
  const PUSH: byte := 3

  datatype Header = Header(ftype: byte, status: u16, callId: u32, methodId: u32, payloadSize: u32)
  datatype Frame = Frame(hdr: Header, payload: seq<byte>)
  datatype ReadResult = Ok(frame: Frame, rest: seq<byte>) | Err

  function Digits16(v: u16): seq<byte> { [v / 256, v % 256] }

  function Digits32(v: u32): seq<byte> {
    [v / 0x100_0000, v / 0x1_0000 % 256, v / 0x100 % 256, v % 256]
  }

  function BigEndian16(b: seq<byte>): u16
    requires |b| == 2
  {
    (b[0] as int) * 256 + b[1]
  }

  function BigEndian32(b: seq<byte>): u32
    requires |b| == 4
  {
    (((b[0] as int) * 256 + b[1]) * 256 + b[2]) * 256 + b[3]
  }

  // The header on the wire: type, a zero byte, then the four numbers, big-endian.
  function HeaderBytes(h: Header): (b: seq<byte>)
    ensures |b| == HEADER_SIZE
  {
    [h.ftype, 0] + Digits16(h.status) + Digits32(h.callId) + Digits32(h.methodId) + Digits32(h.payloadSize)
  }

  function ParseHeader(b: seq<byte>): Header
    requires |b| == HEADER_SIZE
  {
    Header(b[0], BigEndian16(b[2..4]), BigEndian32(b[4..8]), BigEndian32(b[8..12]), BigEndian32(b[12..16]))
  }

  lemma Digits32RoundTrip(v: u32)
    ensures BigEndian32(Digits32(v)) == v
  {}

  lemma DigitsOfBigEndian16(b: seq<byte>)
    requires |b| == 2
    ensures Digits16(BigEndian16(b)) == b
  {}

  lemma DigitsOfBigEndian(b: seq<byte>)
    requires |b| == 4
    ensures Digits32(BigEndian32(b)) == b
  {}

  lemma HeaderRoundTrip(h: Header)
    ensures ParseHeader(HeaderBytes(h)) == h
  {
    var b := HeaderBytes(h);
    assert b[2..4] == Digits16(h.status);
    assert b[4..8] == Digits32(h.callId);
    assert b[8..12] == Digits32(h.methodId);
    assert b[12..16] == Digits32(h.payloadSize);
    Digits32RoundTrip(h.callId);
    Digits32RoundTrip(h.methodId);
    Digits32RoundTrip(h.payloadSize);
  }

  // Four base-256 digits, the highest first.
  function Weighed(a: int, b: int, c: int, d: int): int { a * 0x100_0000 + b * 0x1_0000 + c * 0x100 + d }

  /** Where the header's bytes are, said with weights alone: every number is big-endian at its own offset.  */
  lemma HeaderLayout(h: Header)
    ensures var b := HeaderBytes(h);
      && |b| == 16 && b[0] == h.ftype && b[1] == 0
      && Weighed(0, 0, b[2], b[3]) == h.status
      && Weighed(b[4], b[5], b[6], b[7]) == h.callId
      && Weighed(b[8], b[9], b[10], b[11]) == h.methodId
      && Weighed(b[12], b[13], b[14], b[15]) == h.payloadSize
  {
    Digits32RoundTrip(h.callId);
    Digits32RoundTrip(h.methodId);
    Digits32RoundTrip(h.payloadSize);
  }

  /** Reading loses only the reserved byte: a header that is parsed and written again differs
      from the original bytes at most in byte 1, which becomes 0.  */
  lemma BytesRoundTrip(b: seq<byte>)
    requires |b| == HEADER_SIZE
    ensures HeaderBytes(ParseHeader(b)) == b[1 := 0]
  {
    DigitsOfBigEndian(b[4..8]);
    DigitsOfBigEndian(b[8..12]);
    DigitsOfBigEndian(b[12..16]);
    assert b[1 := 0] == [b[0], 0] + b[2..4] + b[4..8] + b[8..12] + b[12..16];
  }

  // The frame both clients send for a call: PayloadSize is the length cut to 32 bits.
  function RequestFrame(id: u32, methodId: u32, request: seq<byte>): Frame {
    Frame(Header(REQUEST, 0, id, methodId, |request| % TWO32), request)
  }

  // The frame both servers push.
  function PushFrame(methodId: u32, payload: seq<byte>): Frame {
    Frame(Header(PUSH, 0, 0, methodId, |payload| % TWO32), payload)
  }

  /************ Streams ************/

  function FrameBytes(f: Frame): seq<byte> { HeaderBytes(f.hdr) + f.payload }

  function StreamBytes(fs: seq<Frame>): seq<byte> {
    if fs == [] then [] else FrameBytes(fs[0]) + StreamBytes(fs[1..])
  }

  // What ReadFrame does with the bytes that will ever arrive: a frame, or an error at end of input.
  function Parse(b: seq<byte>): ReadResult {
    if |b| < HEADER_SIZE then Err
    else
      var h := ParseHeader(b[..HEADER_SIZE]);
      if |b| < HEADER_SIZE + h.payloadSize then Err
      else Ok(Frame(h, b[HEADER_SIZE..HEADER_SIZE + h.payloadSize]), b[HEADER_SIZE + h.payloadSize..])
  }

  // Every frame read until the first error.
  function ParseAll(b: seq<byte>): (fs: seq<Frame>)
    decreases |b|
  {
    match Parse(b)
    case Err => []
    case Ok(f, rest) => [f] + ParseAll(rest)
  }

  predicate Sized(f: Frame) { f.hdr.payloadSize == |f.payload| }

  predicate AllSized(fs: seq<Frame>) { forall i :: 0 <= i < |fs| ==> Sized(fs[i]) }

  lemma ParseFrame(f: Frame, rest: seq<byte>)
    requires Sized(f)
    ensures Parse(FrameBytes(f) + rest) == Ok(f, rest)
  {
    var b := FrameBytes(f) + rest;
    assert b[..HEADER_SIZE] == HeaderBytes(f.hdr);
    HeaderRoundTrip(f.hdr);
    assert b[HEADER_SIZE..HEADER_SIZE + |f.payload|] == f.payload;
    assert b[HEADER_SIZE + |f.payload|..] == rest;
  }

  /** A frame is read back from every stream it starts if and only if its PayloadSize is the
      length of its payload.  */
  lemma SelfDelimitingIffSized(f: Frame)
    ensures (forall rest :: Parse(FrameBytes(f) + rest) == Ok(f, rest)) <==> Sized(f)
  {
    if Sized(f) {
      forall rest ensures Parse(FrameBytes(f) + rest) == Ok(f, rest) { ParseFrame(f, rest); }
    } else {
      var b := FrameBytes(f) + [];
      assert b[..HEADER_SIZE] == HeaderBytes(f.hdr);
      HeaderRoundTrip(f.hdr);
      assert Parse(b) != Ok(f, []);
    }
  }

  // A proper prefix of one frame is not a frame: the reader reports an error.
  lemma ParsePartial(f: Frame, b: seq<byte>)
    requires Sized(f) && b <= FrameBytes(f) && |b| < |FrameBytes(f)|
    ensures Parse(b) == Err
  {
    if |b| >= HEADER_SIZE {
      assert b[..HEADER_SIZE] == HeaderBytes(f.hdr);
      HeaderRoundTrip(f.hdr);
    }
  }

  // How many whole frames lie in the first k bytes.
  function Whole(fs: seq<Frame>, k: nat): (n: nat)
    ensures n <= |fs|
  {
    if fs == [] || k < |FrameBytes(fs[0])| then 0 else 1 + Whole(fs[1..], k - |FrameBytes(fs[0])|)
  }

  lemma CutConcat(a: seq<byte>, b: seq<byte>, k: nat)
    requires k <= |a| + |b|
    ensures (a + b)[..k] == if k < |a| then a[..k] else a + b[..k - |a|]
  {}

  // With a frame in front, one more is read.
  lemma ParseOneMore(f: Frame, rest: seq<byte>, fs: seq<Frame>)
    requires Sized(f) && ParseAll(rest) == fs
    ensures ParseAll(FrameBytes(f) + rest) == [f] + fs
  {
    ParseFrame(f, rest);
  }

  /** Cut the stream anywhere: repeated ReadFrame yields exactly the frames that lie wholly
      before the cut, and then an error.  */
  lemma {:induction false} ParseAnyPrefix(fs: seq<Frame>, k: nat)
    requires AllSized(fs) && k <= |StreamBytes(fs)|
    ensures ParseAll(StreamBytes(fs)[..k]) == fs[..Whole(fs, k)]
  {
    if fs != [] {
      var f, first := fs[0], FrameBytes(fs[0]);
      CutConcat(first, StreamBytes(fs[1..]), k);
      if k < |first| {
        ParsePartial(f, first[..k]);
      } else {
        var k' := k - |first|;
        ParseAnyPrefix(fs[1..], k');
        ParseOneMore(f, StreamBytes(fs[1..])[..k'], fs[1..][..Whole(fs[1..], k')]);
        assert fs[..Whole(fs, k)] == [f] + fs[1..][..Whole(fs[1..], k')];
      }
    }
  }

  lemma {:induction false} WholeOfAll(fs: seq<Frame>)
    ensures Whole(fs, |StreamBytes(fs)|) == |fs|
  {
    if fs != [] { WholeOfAll(fs[1..]); }
  }

  // Whole counts right: that many frames fit below the cut and no more.
  lemma {:induction false} WholeIsMaximal(fs: seq<Frame>, k: nat)
    ensures |StreamBytes(fs[..Whole(fs, k)])| <= k
    ensures Whole(fs, k) < |fs| ==> k < |StreamBytes(fs[..Whole(fs, k) + 1])|
  {
    if fs != [] {
      var n := Whole(fs, k);
      if k >= |FrameBytes(fs[0])| {
        WholeIsMaximal(fs[1..], k - |FrameBytes(fs[0])|);
        assert fs[..n][1..] == fs[1..][..n - 1];
        if n < |fs| { assert fs[..n + 1][1..] == fs[1..][..n]; }
      } else {
        assert fs[..1][1..] == [];
      }
    }
  }

  /** Repeated ReadFrame over the concatenated WriteFrame output returns exactly the frames
      written.  */
  lemma StreamRoundTrip(fs: seq<Frame>)
    requires AllSized(fs)
    ensures ParseAll(StreamBytes(fs)) == fs
  {
    WholeOfAll(fs);
    ParseAnyPrefix(fs, |StreamBytes(fs)|);
    assert StreamBytes(fs)[..|StreamBytes(fs)|] == StreamBytes(fs);
  }

  lemma {:induction false} StreamAppend(fs: seq<Frame>, f: Frame)
    ensures StreamBytes(fs + [f]) == StreamBytes(fs) + FrameBytes(f)
  {
    if fs == [] {
      assert [f][1..] == [];
    } else {
      assert (fs + [f])[1..] == fs[1..] + [f];
      StreamAppend(fs[1..], f);
    }
  }

  lemma {:induction false} StreamConcat(a: seq<Frame>, b: seq<Frame>)
    ensures StreamBytes(a + b) == StreamBytes(a) + StreamBytes(b)
  {
    if a == [] {
      assert a + b == b;
    } else {
      assert (a + b)[1..] == a[1..] + b;
      StreamConcat(a[1..], b);
      var first := FrameBytes(a[0]);
      assert first + (StreamBytes(a[1..]) + StreamBytes(b)) == first + StreamBytes(a[1..]) + StreamBytes(b);
    }
  }

  /************ The code: buffers and streams ************/

  method PutUint16(buf: array<byte>, at: nat, v: u16)
    requires at + 2 <= buf.Length
    modifies buf
    ensures buf[..] == old(buf[..at]) + Digits16(v) + old(buf[at + 2..])
  {
    buf[at], buf[at + 1] := v / 256, v % 256;
  }

  method PutUint32(buf: array<byte>, at: nat, v: u32)
    requires at + 4 <= buf.Length
    modifies buf
    ensures buf[..] == old(buf[..at]) + Digits32(v) + old(buf[at + 4..])
  {
    buf[at], buf[at + 1] := v / 0x100_0000, v / 0x1_0000 % 256;
    buf[at + 2], buf[at + 3] := v / 0x100 % 256, v % 256;
  }

  // FrameHeader.Serialize
  method Serialize(h: Header) returns (buf: array<byte>)
    ensures fresh(buf) && buf[..] == HeaderBytes(h)
  {
    buf := new byte[HEADER_SIZE];
    buf[0], buf[1] := h.ftype, 0;
    PutUint16(buf, 2, h.status);
    ghost var front := [h.ftype, 0] + Digits16(h.status);
    assert buf[..4] == front;
    PutUint32(buf, 4, h.callId);
    assert buf[..8] == front + Digits32(h.callId);
    PutUint32(buf, 8, h.methodId);
    assert buf[..12] == front + Digits32(h.callId) + Digits32(h.methodId);
    PutUint32(buf, 12, h.payloadSize);
  }

  /** One direction of a connection: `data` is everything written to it, of which `pos` bytes
      have been read.  */
  class Stream {
    var data: seq<byte>
    var pos: nat

    ghost predicate Valid()
      reads this
    {
      pos <= |data|
    }

    ghost function Unread(): seq<byte>
      requires Valid()
      reads this
    {
      data[pos..]
    }

    constructor ()
      ensures Valid() && data == [] && pos == 0
    {
      data, pos := [], 0;
    }

    // io.ReadFull: n bytes, or an error that still consumes whatever was left.
    method ReadFull(n: nat) returns (ok: bool, b: seq<byte>)
      requires Valid()
      modifies this`pos
      ensures Valid() && ok == (n <= |old(Unread())|)
      ensures ok ==> b == old(Unread())[..n] && Unread() == old(Unread())[n..]
    {
      ok := pos + n <= |data|;
      if ok {
        b := data[pos..pos + n];
        pos := pos + n;
      } else {
        b := [];
        pos := |data|;
      }
    }

    method WriteFrame(f: Frame)
      requires Valid()
      modifies this`data
      ensures Valid() && data == old(data) + FrameBytes(f)
    {
      var buf := Serialize(f.hdr);
      data := data + buf[..];
      if |f.payload| > 0 {
        data := data + f.payload;
      }
    }

    method ReadFrame() returns (ok: bool, f: Frame)
      requires Valid()
      modifies this`pos
      ensures Valid()
      ensures match Parse(old(Unread()))
              case Err => !ok
              case Ok(g, rest) => ok && f == g && Unread() == rest
    {
      ghost var b := Unread();
      f := Frame(Header(0, 0, 0, 0, 0), []);
      var got, buf := ReadFull(HEADER_SIZE);
      if !got { return false, f; }
      var h := ParseHeader(buf);
      var payload := [];
      if h.payloadSize > 0 {
        got, payload := ReadFull(h.payloadSize);
        if !got { return false, f; }
      }
      assert b[HEADER_SIZE..][h.payloadSize..] == b[HEADER_SIZE + h.payloadSize..];
      return true, Frame(h, payload);
    }

    // A reader that stops at the first error.
    method ReadFrames() returns (fs: seq<Frame>)
      requires Valid()
      modifies this`pos
      ensures Valid() && fs == ParseAll(old(Unread()))
    {
      fs := [];
      while true
        invariant Valid() && fs + ParseAll(Unread()) == ParseAll(old(Unread()))
        decreases |Unread()|
      {
        ghost var b := Unread();
        var ok, f := ReadFrame();
        if !ok { break; }
        fs := fs + [f];
      }
    }
  }

  /** Writing any well-sized frames into a fresh stream and reading until an error gives them
      back.  */
  method SendAndReceive(fs: seq<Frame>) returns (got: seq<Frame>)
    requires AllSized(fs)
    ensures got == fs
  {
    var s := new Stream();
    var i := 0;
    while i < |fs|
      invariant 0 <= i <= |fs| && s.Valid() && s.pos == 0 && fresh(s)
      invariant s.data == StreamBytes(fs[..i])
    {
      s.WriteFrame(fs[i]);
      StreamAppend(fs[..i], fs[i]);
      assert fs[..i + 1] == fs[..i] + [fs[i]];
      i := i + 1;
    }
    assert fs[..i] == fs;
    got := s.ReadFrames();
    StreamRoundTrip(fs);
  }
}
