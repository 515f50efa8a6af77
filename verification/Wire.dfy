/** The Protocol Buffers wire primitives of go/internal/testpb/wire.go: base-128 varints, tags, little-endian
    fixed64 and length-delimited bytes, as functions on bytes and as the Encoder and Decoder objects.  */
module Wire {
  import opened Framing

  const TWO63: nat := 0x8000_0000_0000_0000
  const TWO64: nat := 0x1_0000_0000_0000_0000

  type u64 = v: int | 0 <= v < TWO64

  const VARINT := 0
  const FIXED64 := 1
  const BYTES := 2
  const FIXED32 := 5

  // `Rewound` and `Unfinished` are no errors of the source: its loop is still going.
  datatype Error = Eof | TooLong | BadWireType | Panic | Rewound | Unfinished

  /************ Varints ************/

  function VarintBytes(v: u64): (r: seq<byte>)
    ensures 0 < |r|
  {
    if v >= 128 then [v % 128 + 128] + VarintBytes(v / 128) else [v]
  }

  datatype Varint = Got(v: u64, n: nat) | NoVarint(error: Error)

  // x shifted left by i groups of seven bits.
  function Shl7(x: nat, i: nat): (r: nat)
    ensures r >= x
  {
    if i == 0 then x else 128 * Shl7(x, i - 1)
  }

  // The i-th byte and those after it, `acc` being what the first i gave.  Sums stand for |= of disjoint bits
  // (WireBits.WordAgrees).
  function VarintFrom(b: seq<byte>, i: nat, acc: u64): (r: Varint)
    requires i <= 10
    ensures r.Got? ==> i < r.n <= |b|
    decreases 10 - i
  {
    if i >= |b| then NoVarint(Eof)
    else if i >= 10 then NoVarint(TooLong)
    else
      var acc' := (acc + Shl7(b[i] % 128, i)) % TWO64;
      if b[i] < 128 then Got(acc', i + 1) else VarintFrom(b, i + 1, acc')
  }

  // The varint at the front of b.
  function ReadVarint(b: seq<byte>): (r: Varint)
    ensures r.Got? ==> 0 < r.n <= |b|
  {
    VarintFrom(b, 0, 0)
  }

  lemma {:induction false} VarintLocal(b: seq<byte>, c: seq<byte>, i: nat, acc: u64)
    requires i <= 10 && VarintFrom(b, i, acc).Got?
    ensures VarintFrom(b + c, i, acc) == VarintFrom(b, i, acc)
    decreases 10 - i
  {
    if b[i] >= 128 { VarintLocal(b, c, i + 1, (acc + Shl7(b[i] % 128, i)) % TWO64); }
  }

  // A varint ends where it says, whatever follows.
  lemma ReadVarintLocal(b: seq<byte>, c: seq<byte>)
    requires ReadVarint(b).Got?
    ensures ReadVarint(b + c) == ReadVarint(b)
  {
    VarintLocal(b, c, 0, 0);
  }

  // The shift of a number is that of its lowest seven bits plus that, one group further, of the others.
  lemma {:induction false} ShiftDigit(v: nat, i: nat)
    ensures Shl7(v, i) == Shl7(v % 128, i) + Shl7(v / 128, i + 1)
  {
    if i > 0 {
      ShiftDigit(v, i - 1);
      assert Shl7(v / 128, i + 1) == 128 * Shl7(v / 128, i);
    } else {
      assert Shl7(v / 128, 1) == 128 * Shl7(v / 128, 0);
    }
  }

  lemma {:induction false} ShiftGrows(v: nat, i: nat, j: nat)
    requires j <= i
    ensures Shl7(v, i) >= Shl7(v, j)
  {
    if j < i { ShiftGrows(v, i - 1, j); }
  }

  lemma Shift5(v: nat, j: nat)
    ensures Shl7(v, j + 5) == 0x8_0000_0000 * Shl7(v, j)
  {
    assert Shl7(v, j + 1) == 128 * Shl7(v, j) && Shl7(v, j + 2) == 128 * Shl7(v, j + 1);
    assert Shl7(v, j + 3) == 128 * Shl7(v, j + 2) && Shl7(v, j + 4) == 128 * Shl7(v, j + 3);
    assert Shl7(v, j + 5) == 128 * Shl7(v, j + 4);
  }

  // Seventy bits do not fit.
  lemma AtMostTen(v: u64, i: nat)
    requires v > 0 && Shl7(v, i) < TWO64
    ensures i < 10
  {
    Shift5(v, 0);
    Shift5(v, 5);
    if i >= 10 { ShiftGrows(v, i, 10); }
  }

  // One turn of consumeVarint.
  lemma VarintTurn(b: seq<byte>, i: nat, acc: u64, digit: nat)
    requires i < 10 && i < |b| && b[i] % 128 == digit && acc + Shl7(digit, i) < TWO64
    ensures VarintFrom(b, i, acc) ==
            if b[i] < 128 then Got(acc + Shl7(digit, i), i + 1) else VarintFrom(b, i + 1, acc + Shl7(digit, i))
  {
    assert (acc + Shl7(digit, i)) % TWO64 == acc + Shl7(digit, i);
  }

  lemma VarintLaidOut(v: u64, b: seq<byte>, i: nat)
    requires i <= |b| && VarintBytes(v) <= b[i..]
    ensures i < |b| && b[i] % 128 == v % 128 && (b[i] < 128 <==> v < 128)
    ensures v >= 128 ==> VarintBytes(v / 128) <= b[i + 1..]
  {
    assert b[i] == b[i..][0] == VarintBytes(v)[0];
    if v >= 128 {
      assert b[i + 1..] == b[i..][1..];
      assert VarintBytes(v / 128) == VarintBytes(v)[1..];
    }
  }

  // The last digit.
  lemma LastDigit(v: u64, i: nat)
    requires v < 128
    ensures Shl7(v % 128, i) == Shl7(v, i) && |VarintBytes(v)| == 1
  {}

  lemma {:induction false} VarintRoundTripFrom(v: u64, b: seq<byte>, i: nat, acc: u64)
    requires i <= |b| && VarintBytes(v) <= b[i..] && i <= 10
    requires (i == 0 || v > 0) && Shl7(v, i) + acc < TWO64
    ensures VarintFrom(b, i, acc) == Got(acc + Shl7(v, i), i + |VarintBytes(v)|)
    decreases v
  {
    if v > 0 { AtMostTen(v, i); }
    VarintLaidOut(v, b, i);
    ShiftDigit(v, i);
    VarintTurn(b, i, acc, v % 128);
    if v >= 128 {
      VarintRoundTripFrom(v / 128, b, i + 1, acc + Shl7(v % 128, i));
    } else {
      LastDigit(v, i);
    }
  }

  /** Reading what appendVarint wrote gives the value back and stops right behind it.  */
  lemma VarintRoundTrip(v: u64, rest: seq<byte>)
    ensures ReadVarint(VarintBytes(v) + rest) == Got(v, |VarintBytes(v)|)
  {
    var b := VarintBytes(v) + rest;
    assert b[0..] == b && Shl7(v, 0) == v;
    VarintRoundTripFrom(v, b, 0, 0);
  }

  // The number that seven bits of each byte make, the first byte's the lowest.
  function Groups(b: seq<byte>): nat {
    if b == [] then 0 else b[0] % 128 + 128 * Groups(b[1..])
  }

  /** A varint is base 128, lowest group first, with the top bit on every byte but the last, and no byte too many.  */
  lemma {:induction false} VarintLayout(v: u64)
    ensures var b := VarintBytes(v);
      && Groups(b) == v && (forall i :: 0 <= i < |b| ==> (b[i] >= 128 <==> i < |b| - 1))
      && (|b| > 1 ==> b[|b| - 1] != 0)
  {
    var b := VarintBytes(v);
    if v >= 128 {
      VarintLayout(v / 128);
      assert b[1..] == VarintBytes(v / 128);
      forall i | 0 <= i < |b| ensures b[i] >= 128 <==> i < |b| - 1 {
        if i > 0 { assert b[i] == b[1..][i - 1]; }
      }
    } else {
      assert b[1..] == [];
    }
  }

  /************ Fixed64 ************/

  function Le(v: nat, n: nat): (r: seq<byte>)
    ensures |r| == n
  {
    if n == 0 then [] else [v % 256] + Le(v / 256, n - 1)
  }

  function Pow256(n: nat): (r: nat)
    ensures r > 0
  {
    if n == 0 then 1 else 256 * Pow256(n - 1)
  }

  function FromLe(b: seq<byte>): (r: nat)
    ensures r < Pow256(|b|)
  {
    if b == [] then 0 else b[0] + 256 * FromLe(b[1..])
  }

  lemma {:induction false} LeRoundTrip(v: nat, n: nat)
    requires v < Pow256(n)
    ensures FromLe(Le(v, n)) == v
  {
    if n > 0 {
      LeRoundTrip(v / 256, n - 1);
      assert Le(v, n)[1..] == Le(v / 256, n - 1);
    }
  }

  lemma Pow256Of8()
    ensures Pow256(8) == TWO64
  {
    assert Pow256(2) == 256 * 256;
    assert Pow256(4) == Pow256(2) * 256 * 256;
    assert Pow256(6) == Pow256(4) * 256 * 256;
  }

  function Fixed64(b: seq<byte>): (r: u64)
    requires |b| >= 8
  {
    Pow256Of8();
    FromLe(b[..8])
  }

  lemma Fixed64RoundTrip(v: u64, rest: seq<byte>)
    ensures Fixed64(Le(v, 8) + rest) == v
  {
    Pow256Of8();
    LeRoundTrip(v, 8);
    assert (Le(v, 8) + rest)[..8] == Le(v, 8);
  }

  /** A fixed64 is eight bytes, the lowest first.  */
  lemma Fixed64Layout(v: u64)
    ensures var b := Le(v, 8);
      && Weighed(b[3], b[2], b[1], b[0]) == v % TWO32 && Weighed(b[7], b[6], b[5], b[4]) == v / TWO32
  {
    var w := v / TWO32;
    LowFour(v, 4);
    LowFour(w, 0);
    assert w / TWO32 == 0;
  }

  lemma LowFour(v: nat, n: nat)
    ensures var b := Le(v, n + 4);
      Weighed(b[3], b[2], b[1], b[0]) == v % TWO32 && b[4..] == Le(v / TWO32, n)
  {
    var v1, v2, v3 := v / 256, v / 256 / 256, v / 256 / 256 / 256;
    assert v3 / 256 == v / TWO32;
    assert Le(v, n + 4) == [v % 256] + Le(v1, n + 3);
    assert Le(v1, n + 3) == [v1 % 256] + Le(v2, n + 2);
    assert Le(v2, n + 2) == [v2 % 256] + Le(v3, n + 1);
    assert Le(v3, n + 1) == [v3 % 256] + Le(v3 / 256, n);
  }

  /************ Fields ************/

  // appendTag, for the field numbers in use.
  function Tag(num: nat, wt: nat): (r: seq<byte>)
    requires num < 16 && wt < 8
    ensures 0 < |r|
  {
    VarintBytes(num * 8 + wt)
  }

  lemma TagRoundTrip(num: nat, wt: nat, rest: seq<byte>)
    requires num < 16 && wt < 8
    ensures ReadVarint(Tag(num, wt) + rest) == Got(num * 8 + wt, |Tag(num, wt)|)
    ensures (Tag(num, wt) + rest)[|Tag(num, wt)|..] == rest
  {
    VarintRoundTrip(num * 8 + wt, rest);
  }

  // EncodeString and EncodeBytes; a default value is not written.
  function BytesField(num: nat, s: seq<byte>): seq<byte>
    requires num < 16
  {
    if s == [] then [] else Tag(num, BYTES) + (VarintBytes(|s| % TWO64) + s)
  }

  // EncodeUint64, EncodeUint32 and EncodeBool.
  function UintField(num: nat, v: u64): seq<byte>
    requires num < 16
  {
    if v == 0 then [] else Tag(num, VARINT) + VarintBytes(v)
  }

  // A double as its 64 bits; v == 0 holds of both zeros.
  predicate IsZeroDouble(v: u64) { v == 0 || v == TWO63 }

  function DoubleField(num: nat, v: u64): seq<byte>
    requires num < 16
  {
    if IsZeroDouble(v) then [] else Tag(num, FIXED64) + Le(v, 8)
  }

  datatype Bytes = GotBytes(data: seq<byte>, n: nat) | NoBytes(error: Error)

  // ReadBytes with b unread from position pos.  A length no int can reach makes the allocation panic.
  function BytesAt(b: seq<byte>, pos: nat): (r: Bytes)
    ensures r.GotBytes? ==> 0 < r.n <= |b| && |r.data| < r.n
  {
    match ReadVarint(b)
    case NoVarint(e) => NoBytes(e)
    case Got(len, j) =>
      if pos + j + len >= TWO63 then NoBytes(Panic)
      else if j + len > |b| then NoBytes(Eof)
      else GotBytes(b[j..j + len], j + len)
  }

  // d.pos + int(length), on 64-bit signed integers.
  function AddInt(pos: nat, len: u64): int {
    var sum := pos + if len >= TWO63 then len - TWO64 else len;
    if sum >= TWO63 then sum - TWO64 else sum
  }

  datatype Skipped = To(next: int) | NoSkip(error: Error)

  // Skip: the position it moves to, which for a huge declared length lies behind it.
  function SkipAt(wt: nat, b: seq<byte>, pos: nat): (r: Skipped)
    ensures r.To? ==> r.next <= pos + |b|
  {
    if wt == VARINT then
      match ReadVarint(b)
      case NoVarint(e) => NoSkip(e)
      case Got(_, j) => To(pos + j)
    else if wt == FIXED64 then if |b| < 8 then NoSkip(Eof) else To(pos + 8)
    else if wt == FIXED32 then if |b| < 4 then NoSkip(Eof) else To(pos + 4)
    else if wt == BYTES then
      match ReadVarint(b)
      case NoVarint(e) => NoSkip(e)
      case Got(len, j) => if AddInt(pos + j, len) > pos + |b| then NoSkip(Eof) else To(AddInt(pos + j, len))
    else NoSkip(BadWireType)
  }

  // A length-delimited value laid out as length, data s and whatever follows.
  lemma BytesLaidOut(v: seq<byte>, s: seq<byte>, rest: seq<byte>, pos: nat)
    requires pos + |v| + |s| < TWO63 && ReadVarint(v + s + rest) == Got(|s|, |v|)
    ensures BytesAt(v + s + rest, pos) == GotBytes(s, |v| + |s|)
  {
    assert (v + s + rest)[|v|..|v| + |s|] == s;
  }

  /** Reading what EncodeBytes wrote gives the bytes back.  */
  lemma BytesRoundTrip(s: seq<byte>, rest: seq<byte>, pos: nat)
    requires pos + |VarintBytes(|s| % TWO64)| + |s| < TWO63
    ensures BytesAt(VarintBytes(|s| % TWO64) + s + rest, pos) == GotBytes(s, |VarintBytes(|s| % TWO64)| + |s|)
  {
    assert |s| % TWO64 == |s|;
    Associates(VarintBytes(|s|), s, rest);
    VarintRoundTrip(|s|, s + rest);
    BytesLaidOut(VarintBytes(|s|), s, rest, pos);
  }

  /************ The objects ************/

  lemma Associates(a: seq<byte>, b: seq<byte>, c: seq<byte>)
    ensures a + b + c == a + (b + c)
  {}

  class Encoder {
    var buf: seq<byte>

    constructor ()
      ensures buf == []
    {
      buf := [];
    }

    method AppendVarint(value: u64)
      modifies this
      ensures buf == old(buf) + VarintBytes(value)
    {
      var v := value;
      while v >= 128
        invariant 0 <= v < TWO64 && buf + VarintBytes(v) == old(buf) + VarintBytes(value)
      {
        assert buf + VarintBytes(v) == buf + [v % 128 + 128] + VarintBytes(v / 128);
        buf := buf + [v % 128 + 128];
        v := v / 128;
      }
      buf := buf + [v];
    }

    method AppendTag(num: nat, wt: nat)
      requires num < 16 && wt < 8
      modifies this
      ensures buf == old(buf) + Tag(num, wt)
    {
      AppendVarint(num * 8 + wt);
    }

    method EncodeBytes(num: nat, s: seq<byte>)
      requires num < 16
      modifies this
      ensures buf == old(buf) + BytesField(num, s)
    {
      if s == [] { return; }
      AppendTag(num, BYTES);
      AppendVarint(|s| % TWO64);
      buf := buf + s;
      Associates(old(buf) + Tag(num, BYTES), VarintBytes(|s| % TWO64), s);
      Associates(old(buf), Tag(num, BYTES), VarintBytes(|s| % TWO64) + s);
    }

    method EncodeUint64(num: nat, v: u64)
      requires num < 16
      modifies this
      ensures buf == old(buf) + UintField(num, v)
    {
      if v == 0 { return; }
      AppendTag(num, VARINT);
      AppendVarint(v);
      Associates(old(buf), Tag(num, VARINT), VarintBytes(v));
    }

    method EncodeDouble(num: nat, v: u64)
      requires num < 16
      modifies this
      ensures buf == old(buf) + DoubleField(num, v)
    {
      if IsZeroDouble(v) { return; }
      AppendTag(num, FIXED64);
      var tmp := new byte[8];
      PutUint64(tmp, v);
      Associates(old(buf), Tag(num, FIXED64), tmp[..]);
      buf := buf + tmp[..];
    }
  }

  // binary.LittleEndian.PutUint64.
  method PutUint64(a: array<byte>, value: u64)
    requires a.Length == 8
    modifies a
    ensures a[..] == Le(value, 8)
  {
    var v: nat, i := value, 0;
    while i < 8
      invariant 0 <= i <= 8 && a[..i] + Le(v, 8 - i) == Le(value, 8)
    {
      assert Le(v, 8 - i) == [v % 256] + Le(v / 256, 7 - i);
      ghost var done := a[..i];
      a[i] := v % 256;
      assert a[..i + 1] == done + [v % 256];
      v, i := v / 256, i + 1;
    }
    assert a[..8] == a[..] && Le(v, 0) == [];
  }

  class Decoder {
    const buf: seq<byte>
    var pos: int

    // Between reads the decoder stands inside its buffer, which a Go int can index.
    ghost predicate Valid()
      reads this
    {
      0 <= pos <= |buf| < TWO63
    }

    ghost function Rest(): seq<byte>
      requires Valid()
      reads this
    {
      buf[pos..]
    }

    constructor (data: seq<byte>)
      requires |data| < TWO63
      ensures Valid() && buf == data && pos == 0
    {
      buf, pos := data, 0;
    }

    method ConsumeVarint() returns (r: Varint)
      requires Valid()
      modifies this
      ensures Valid() && r == ReadVarint(old(Rest()))
      ensures r.Got? ==> pos == old(pos) + r.n
    {
      ghost var b := Rest();
      var i, v: u64 := 0, 0;
      while true
        invariant 0 <= i <= 10 && Valid() && pos == old(pos) + i && VarintFrom(b, i, v) == ReadVarint(b)
        decreases 10 - i
      {
        if pos >= |buf| { return NoVarint(Eof); }
        if i >= 10 { return NoVarint(TooLong); }
        var c := buf[pos];
        assert c == b[i];
        pos := pos + 1;
        v := (v + Shl7(c % 128, i)) % TWO64;
        i := i + 1;
        if c < 128 { return Got(v, i); }
      }
    }

    method ReadBytes() returns (r: Bytes)
      requires Valid()
      modifies this
      ensures Valid() && r == BytesAt(old(Rest()), old(pos))
      ensures r.GotBytes? ==> pos == old(pos) + r.n
    {
      var length := ConsumeVarint();
      if length.NoVarint? { return NoBytes(length.error); }
      var end := AddInt(pos, length.v);
      if end > |buf| { return NoBytes(Eof); }
      if length.v >= TWO63 || end < 0 { return NoBytes(Panic); }
      var data := buf[pos..end];
      assert data == old(Rest())[length.n..length.n + length.v];
      pos := end;
      return GotBytes(data, length.n + length.v);
    }

    method ReadFixed64() returns (r: Varint)
      requires Valid()
      modifies this
      ensures Valid() && r == if |old(Rest())| < 8 then NoVarint(Eof) else Got(Fixed64(old(Rest())), 8)
      ensures r.Got? ==> pos == old(pos) + 8
    {
      if pos + 8 > |buf| { return NoVarint(Eof); }
      var v := Fixed64(buf[pos..]);
      pos := pos + 8;
      return Got(v, 8);
    }

    // Skip may leave the position anywhere behind it, even below zero.
    method Skip(wt: nat) returns (r: Skipped)
      requires Valid()
      modifies this
      ensures r == SkipAt(wt, old(Rest()), old(pos))
      ensures r.To? ==> pos == r.next
    {
      if wt == VARINT {
        var v := ConsumeVarint();
        return if v.Got? then To(pos) else NoSkip(v.error);
      } else if wt == FIXED64 {
        if pos + 8 > |buf| { return NoSkip(Eof); }
        pos := pos + 8;
        return To(pos);
      } else if wt == FIXED32 {
        if pos + 4 > |buf| { return NoSkip(Eof); }
        pos := pos + 4;
        return To(pos);
      } else if wt == BYTES {
        var length := ConsumeVarint();
        if length.NoVarint? { return NoSkip(length.error); }
        if AddInt(pos, length.v) > |buf| { return NoSkip(Eof); }
        pos := AddInt(pos, length.v);
        return To(pos);
      } else {
        return NoSkip(BadWireType);
      }
    }
  }
}
