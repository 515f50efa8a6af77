/** The varint code of go/internal/testpb/wire.go on machine words, and that it computes the arithmetic of `Wire`.  */
module WireBits {
  import opened Framing
  import opened Wire
  import opened CppFraming

  function Group(c: bv8, i: nat): bv64
    requires i < 10
  {
    var x := (c & 0x7F) as bv64;
    match i
    case 0 => x
    case 1 => x << 7
    case 2 => x << 14
    case 3 => x << 21
    case 4 => x << 28
    case 5 => x << 35
    case 6 => x << 42
    case 7 => x << 49
    case 8 => x << 56
    case 9 => x << 63
  }

  // Below the i-th group of seven bits.
  function Limit(i: nat): bv64
    requires i < 10
  {
    match i
    case 0 => 0x1
    case 1 => 0x80
    case 2 => 0x4000
    case 3 => 0x200000
    case 4 => 0x10000000
    case 5 => 0x800000000
    case 6 => 0x40000000000
    case 7 => 0x2000000000000
    case 8 => 0x100000000000000
    case 9 => 0x8000000000000000
  }

  // v |= uint64(c & 0x7F) << (7*i)
  function OrGroup(v: bv64, c: bv8, i: nat): bv64 {
    if i < 10 then v | Group(c, i) else v
  }

  datatype Word = GotWord(v: bv64, n: nat) | NoWord(error: Error)

  // consumeVarint, `or` being its one statement on the word.
  function WordFrom(or: (bv64, bv8, nat) -> bv64, b: seq<bv8>, i: nat, acc: bv64): Word
    requires i <= 10
    decreases 10 - i
  {
    if i >= |b| then NoWord(Eof)
    else if i >= 10 then NoWord(TooLong)
    else
      var acc' := or(acc, b[i], i);
      if b[i] < 0x80 then GotWord(acc', i + 1) else WordFrom(or, b, i + 1, acc')
  }

  function Number(v: bv64): u64 { v as int }

  function AsVarint(value: bv64 -> u64, w: Word): Varint {
    match w
    case GotWord(v, n) => Got(value(v), n)
    case NoWord(e) => NoVarint(e)
  }

  // x times 128^i
  function Scaled(x: nat, i: nat): nat
    requires i < 10
  {
    match i
    case 0 => x * 0x1
    case 1 => x * 0x80
    case 2 => x * 0x4000
    case 3 => x * 0x200000
    case 4 => x * 0x10000000
    case 5 => x * 0x800000000
    case 6 => x * 0x40000000000
    case 7 => x * 0x2000000000000
    case 8 => x * 0x100000000000000
    case 9 => x * 0x8000000000000000
  }

  // What of a byte the i-th group keeps: seven bits, and of the tenth group only the lowest.
  function Kept(c: bv8, i: nat): nat {
    if i < 9 then (c & 0x7F) as int else (c & 1) as int
  }

  // Or-ing in the i-th group is adding it.
  predicate Adds(v: bv64, w: bv64, c: bv8, i: nat)
    requires i < 10
  {
    && (v | w) as int == v as int + Scaled(Kept(c, i), i)
    && (i < 9 ==> v | w < Limit(i + 1))
  }

  lemma Adds0(v: bv64, c: bv8)
    requires v < 0x1
    ensures Adds(v, ((c & 0x7F) as bv64), c, 0)
  {}

  lemma Adds1(v: bv64, c: bv8)
    requires v < 0x80
    ensures Adds(v, ((c & 0x7F) as bv64) << 7, c, 1)
  {}

  lemma Adds2(v: bv64, c: bv8)
    requires v < 0x4000
    ensures Adds(v, ((c & 0x7F) as bv64) << 14, c, 2)
  {}

  lemma Adds3(v: bv64, c: bv8)
    requires v < 0x200000
    ensures Adds(v, ((c & 0x7F) as bv64) << 21, c, 3)
  {}

  lemma Adds4(v: bv64, c: bv8)
    requires v < 0x10000000
    ensures Adds(v, ((c & 0x7F) as bv64) << 28, c, 4)
  {}

  lemma Adds5(v: bv64, c: bv8)
    requires v < 0x800000000
    ensures Adds(v, ((c & 0x7F) as bv64) << 35, c, 5)
  {}

  lemma Adds6(v: bv64, c: bv8)
    requires v < 0x40000000000
    ensures Adds(v, ((c & 0x7F) as bv64) << 42, c, 6)
  {}

  lemma Adds7(v: bv64, c: bv8)
    requires v < 0x2000000000000
    ensures Adds(v, ((c & 0x7F) as bv64) << 49, c, 7)
  {}

  lemma Adds8(v: bv64, c: bv8)
    requires v < 0x100000000000000
    ensures Adds(v, ((c & 0x7F) as bv64) << 56, c, 8)
  {}

  lemma Adds9(v: bv64, c: bv8)
    requires v < 0x8000000000000000
    ensures Adds(v, ((c & 0x7F) as bv64) << 63, c, 9)
  {}

  lemma OrAdds(v: bv64, c: bv8, i: nat)
    requires i < 10 && v < Limit(i)
    ensures Adds(v, Group(c, i), c, i)
  {
    match i
    case 0 => Adds0(v, c);
    case 1 => Adds1(v, c);
    case 2 => Adds2(v, c);
    case 3 => Adds3(v, c);
    case 4 => Adds4(v, c);
    case 5 => Adds5(v, c);
    case 6 => Adds6(v, c);
    case 7 => Adds7(v, c);
    case 8 => Adds8(v, c);
    case 9 => Adds9(v, c);
  }

  lemma KeptBits(c: bv8)
    ensures (c & 0x7F) as int == (c as int) % 128 && (c & 1) as int == (c as int) % 2
  {}

  lemma Continues(c: bv8)
    ensures c < 0x80 <==> c as int < 128
  {}

  lemma ShiftScales(x: nat, i: nat)
    requires i < 10
    ensures Shl7(x, i) == Scaled(x, i)
  {
    if i > 0 { ShiftScales(x, i - 1); }
  }

  // Of the tenth group the upper six bits fall off.
  lemma TopGroup(v: nat, x: nat)
    requires v < TWO63
    ensures (v + TWO63 * x) % TWO64 == v + x % 2 * TWO63
  {
    assert x == 2 * (x / 2) + x % 2;
    assert v + TWO63 * x == v + x % 2 * TWO63 + TWO64 * (x / 2);
  }

  // The i-th group of the byte c, as a number.
  function Low(c: nat, i: nat): nat {
    if i < 9 then c % 128 else c % 2
  }

  lemma Room(v: nat, x: nat, i: nat)
    requires i < 9 && v < Scaled(1, i) && x < 128
    ensures v + Scaled(x, i) < Scaled(1, i + 1) <= TWO63
  {}

  lemma Small(x: nat)
    requires x < TWO64
    ensures x % TWO64 == x
  {}

  lemma EarlyPart(v: nat, c: nat, i: nat, x: nat)
    requires i < 9 && v < Scaled(1, i) && x == v + Scaled(c % 128, i)
    ensures x == (v + Shl7(c % 128, i)) % TWO64 && x < Scaled(1, i + 1)
  {
    ShiftScales(c % 128, i);
    Room(v, c % 128, i);
    Small(x);
  }

  lemma LastPart(v: nat, c: nat, x: nat)
    requires v < TWO63 && x == v + c % 2 * TWO63
    ensures x == (v + Shl7(c % 128, 9)) % TWO64
  {
    ShiftScales(c % 128, 9);
    TopGroup(v, c % 128);
    assert c % 128 % 2 == c % 2;
  }

  lemma Part(v: nat, n: nat, i: nat, x: nat)
    requires i < 10 && v < Scaled(1, i) && x == v + Scaled(Low(n, i), i)
    ensures x == (v + Shl7(n % 128, i)) % TWO64
    ensures i < 9 ==> x < Scaled(1, i + 1)
  {
    if i < 9 { EarlyPart(v, n, i, x); } else { LastPart(v, n, x); }
  }

  predicate Fits(v: bv64, i: nat) { i < 10 ==> v < Limit(i) }

  // One turn of the loop, `value` giving words their numbers.
  predicate Stepped(value: bv64 -> u64, or: (bv64, bv8, nat) -> bv64, fits: (bv64, nat) -> bool, v: bv64, c: bv8,
                    i: nat)
    requires i < 10
  {
    && value(or(v, c, i)) == value(v) + Scaled(Low(c as int, i), i)
    && fits(or(v, c, i), i + 1)
  }

  ghost predicate Steps(value: bv64 -> u64, or: (bv64, bv8, nat) -> bv64, fits: (bv64, nat) -> bool) {
    forall v: bv64, c: bv8, i: nat :: i < 10 && fits(v, i) ==> Stepped(value, or, fits, v, c, i)
  }

  predicate Below(n: nat, i: nat) { i < 10 ==> n < Scaled(1, i) }

  lemma Turn(value: bv64 -> u64, or: (bv64, bv8, nat) -> bv64, fits: (bv64, nat) -> bool, c: bv8, n: nat, i: nat,
             acc: bv64, next: bv64)
    requires Steps(value, or, fits) && i < 10 && fits(acc, i) && Below(value(acc), i) && n == c as int
    requires next == or(acc, c, i)
    ensures fits(next, i + 1) && Below(value(next), i + 1)
    ensures value(next) == (value(acc) + Shl7(n % 128, i)) % TWO64
  {
    assert Stepped(value, or, fits, acc, c, i);
    Part(value(acc), n, i, value(next));
  }

  // The same turn, against the arithmetic of `Wire`; `good` holds at every one.
  predicate Turned(value: bv64 -> u64, or: (bv64, bv8, nat) -> bv64, good: (bv64, nat) -> bool, v: bv64, c: bv8,
                   i: nat) {
    && value(or(v, c, i)) == (value(v) + Shl7(c as int % 128, i)) % TWO64
    && good(or(v, c, i), i + 1)
  }

  ghost predicate Turns(value: bv64 -> u64, or: (bv64, bv8, nat) -> bv64, good: (bv64, nat) -> bool) {
    forall v: bv64, c: bv8, i: nat :: i < 10 && good(v, i) ==> Turned(value, or, good, v, c, i)
  }

  lemma TurnsOf(value: bv64 -> u64, or: (bv64, bv8, nat) -> bv64, fits: (bv64, nat) -> bool, good: (bv64, nat) -> bool)
    requires Steps(value, or, fits)
    requires forall v: bv64, i: nat :: good(v, i) <==> fits(v, i) && Below(value(v), i)
    ensures Turns(value, or, good)
  {
    forall v: bv64, c: bv8, i: nat | i < 10 && good(v, i)
      ensures Turned(value, or, good, v, c, i)
    {
      Turn(value, or, fits, c, c as int, i, v, or(v, c, i));
    }
  }

  lemma {:induction false} WordAgreesFrom(value: bv64 -> u64, or: (bv64, bv8, nat) -> bv64, good: (bv64, nat) -> bool,
                                          b: seq<bv8>, i: nat, acc: bv64)
    requires Turns(value, or, good) && i <= 10 && good(acc, i)
    ensures AsVarint(value, WordFrom(or, b, i, acc)) == VarintFrom(Values(b), i, value(acc))
    decreases 10 - i
  {
    if i < |b| && i < 10 {
      assert Turned(value, or, good, acc, b[i], i);
      Continues(b[i]);
      if b[i] >= 0x80 { WordAgreesFrom(value, or, good, b, i + 1, or(acc, b[i], i)); }
    }
  }

  lemma GroupStep(v: bv64, c: bv8, i: nat)
    requires i < 10 && Fits(v, i)
    ensures Stepped(Number, OrGroup, Fits, v, c, i)
  {
    OrAdds(v, c, i);
    KeptBits(c);
  }

  lemma GroupSteps()
    ensures Steps(Number, OrGroup, Fits)
  {
    forall v: bv64, c: bv8, i: nat | i < 10 && Fits(v, i)
      ensures Stepped(Number, OrGroup, Fits, v, c, i)
    {
      GroupStep(v, c, i);
    }
  }

  predicate Good(v: bv64, i: nat) { Fits(v, i) && Below(Number(v), i) }

  /** On every input the shifts and ors of consumeVarint give the number, or the error, that ReadVarint does.  */
  lemma WordAgrees(b: seq<bv8>)
    ensures AsVarint(Number, WordFrom(OrGroup, b, 0, 0)) == ReadVarint(Values(b))
  {
    GroupSteps();
    TurnsOf(Number, OrGroup, Fits, Good);
    WordAgreesFrom(Number, OrGroup, Good, b, 0, 0);
  }
}
