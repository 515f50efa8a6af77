/** The same header as c++/src/frame.h has it: shifts and masks on machine words, written into a
    byte buffer.  */
module CppFraming {
  import Framing

  datatype CppHeader = CppHeader(ftype: bv8, status: bv16, callId: bv32, methodId: bv32, payloadSize: bv32)

  // The bytes WriteBE32 stores.
  function Bytes32(v: bv32): seq<bv8> {
    [((v >> 24) & 0xFF) as bv8, ((v >> 16) & 0xFF) as bv8, ((v >> 8) & 0xFF) as bv8, (v & 0xFF) as bv8]
  }

  function Bytes16(v: bv16): seq<bv8> {
    [((v >> 8) & 0xFF) as bv8, (v & 0xFF) as bv8]
  }

  function ReadBE32(b: seq<bv8>): bv32
    requires |b| == 4
  {
    ((b[0] as bv32) << 24) | ((b[1] as bv32) << 16) | ((b[2] as bv32) << 8) | (b[3] as bv32)
  }

  function ReadBE16(b: seq<bv8>): bv16
    requires |b| == 2
  {
    ((b[0] as bv16) << 8) | (b[1] as bv16)
  }

  function HeaderBytes(h: CppHeader): seq<bv8> {
    [h.ftype, 0] + Bytes16(h.status) + Bytes32(h.callId) + Bytes32(h.methodId) + Bytes32(h.payloadSize)
  }

  // FrameHeader::Deserialize
  function Deserialize(b: seq<bv8>): CppHeader
    requires |b| == Framing.HEADER_SIZE
  {
    CppHeader(b[0], ReadBE16(b[2..4]), ReadBE32(b[4..8]), ReadBE32(b[8..12]), ReadBE32(b[12..16]))
  }

  // The numbers a machine header stands for, and the numbers of a run of machine bytes.
  function Value(h: CppHeader): Framing.Header {
    Framing.Header(h.ftype as int, h.status as int, h.callId as int, h.methodId as int, h.payloadSize as int)
  }

  function Values(b: seq<bv8>): seq<Framing.byte> { seq(|b|, i requires 0 <= i < |b| => b[i] as int) }

  lemma Shifts32(a: bv8, b: bv8, c: bv8, d: bv8)
    ensures (((a as bv32) << 24) | ((b as bv32) << 16) | ((c as bv32) << 8) | (d as bv32)) as int
         == ((a as int * 256 + b as int) * 256 + c as int) * 256 + d as int
  {}

  lemma Shifts16(a: bv8, b: bv8)
    ensures (((a as bv16) << 8) | (b as bv16)) as int == a as int * 256 + b as int
  {}

  // The words that shifting assembles are the big-endian numbers.
  lemma ReadBE32Value(b: seq<bv8>)
    requires |b| == 4
    ensures ReadBE32(b) as int == Framing.BigEndian32(Values(b))
  {
    calc {
      ReadBE32(b) as int;
      { Shifts32(b[0], b[1], b[2], b[3]); }
      ((b[0] as int * 256 + b[1] as int) * 256 + b[2] as int) * 256 + b[3] as int;
      Framing.BigEndian32(Values(b));
    }
  }

  lemma ReadBE16Value(b: seq<bv8>)
    requires |b| == 2
    ensures ReadBE16(b) as int == Framing.BigEndian16(Values(b))
  {
    calc {
      ReadBE16(b) as int;
      { Shifts16(b[0], b[1]); }
      b[0] as int * 256 + b[1] as int;
      Framing.BigEndian16(Values(b));
    }
  }

  lemma Bytes32RoundTrip(v: bv32)
    ensures ReadBE32(Bytes32(v)) == v
  {}

  lemma Bytes16RoundTrip(v: bv16)
    ensures ReadBE16(Bytes16(v)) == v
  {}

  lemma Bytes32Value(v: bv32)
    ensures Values(Bytes32(v)) == Framing.Digits32(v as int)
  {
    Bytes32RoundTrip(v);
    ReadBE32Value(Bytes32(v));
    Framing.DigitsOfBigEndian(Values(Bytes32(v)));
  }

  lemma Bytes16Value(v: bv16)
    ensures Values(Bytes16(v)) == Framing.Digits16(v as int)
  {
    Bytes16RoundTrip(v);
    ReadBE16Value(Bytes16(v));
    Framing.DigitsOfBigEndian16(Values(Bytes16(v)));
  }

  /** The C++ encoder writes, for every header, the bytes the Go encoder writes for the same
      numbers.  */
  lemma EncodersAgree(h: CppHeader)
    ensures Values(HeaderBytes(h)) == Framing.HeaderBytes(Value(h))
  {
    Bytes16Value(h.status);
    Bytes32Value(h.callId);
    Bytes32Value(h.methodId);
    Bytes32Value(h.payloadSize);
    var b := HeaderBytes(h);
    assert Values(b) == [h.ftype as int, 0] + Values(Bytes16(h.status)) + Values(Bytes32(h.callId))
                        + Values(Bytes32(h.methodId)) + Values(Bytes32(h.payloadSize));
  }

  /** The C++ decoder reads, from every 16 bytes, the numbers the Go decoder reads.  */
  lemma DecodersAgree(b: seq<bv8>)
    requires |b| == Framing.HEADER_SIZE
    ensures Value(Deserialize(b)) == Framing.ParseHeader(Values(b))
  {
    var v := Values(b);
    ReadBE16Value(b[2..4]);
    assert Values(b[2..4]) == v[2..4];
    ReadBE32Value(b[4..8]);
    assert Values(b[4..8]) == v[4..8];
    ReadBE32Value(b[8..12]);
    assert Values(b[8..12]) == v[8..12];
    ReadBE32Value(b[12..16]);
    assert Values(b[12..16]) == v[12..16];
  }

  /** Either side reads back what the other wrote.  */
  lemma CrossLanguageRoundTrip(h: CppHeader)
    ensures Framing.ParseHeader(Values(HeaderBytes(h))) == Value(h)
    ensures Deserialize(HeaderBytes(h)) == h
  {
    EncodersAgree(h);
    Framing.HeaderRoundTrip(Value(h));
    var b := HeaderBytes(h);
    assert b[2..4] == Bytes16(h.status);
    assert b[4..8] == Bytes32(h.callId);
    assert b[8..12] == Bytes32(h.methodId);
    assert b[12..16] == Bytes32(h.payloadSize);
    Bytes16RoundTrip(h.status);
    Bytes32RoundTrip(h.callId);
    Bytes32RoundTrip(h.methodId);
    Bytes32RoundTrip(h.payloadSize);
  }

  /************ The code ************/

  method WriteBE32(out: array<bv8>, at: nat, v: bv32)
    requires at + 4 <= out.Length
    modifies out
    ensures out[..] == old(out[..at]) + Bytes32(v) + old(out[at + 4..])
  {
    out[at] := ((v >> 24) & 0xFF) as bv8;
    out[at + 1] := ((v >> 16) & 0xFF) as bv8;
    out[at + 2] := ((v >> 8) & 0xFF) as bv8;
    out[at + 3] := (v & 0xFF) as bv8;
  }

  // FrameHeader::Serialize
  method Serialize(h: CppHeader, out: array<bv8>)
    requires out.Length == Framing.HEADER_SIZE
    modifies out
    ensures out[..] == HeaderBytes(h)
    ensures Values(out[..]) == Framing.HeaderBytes(Value(h))
  {
    out[0] := h.ftype;
    out[1] := 0;
    out[2] := ((h.status >> 8) & 0xFF) as bv8;
    out[3] := (h.status & 0xFF) as bv8;
    WriteBE32(out, 4, h.callId);
    WriteBE32(out, 8, h.methodId);
    WriteBE32(out, 12, h.payloadSize);
    EncodersAgree(h);
  }
}
