/** One turn of an Unmarshal loop: a tag, then the message's switch on the field number.  The switch is a
    parameter; the facts here hold of every switch made of the decoder's reads.  */
module Switches {
  import opened Framing
  import opened Wire
  import opened DecodeLoop

  // The message so far, field number, wire type, the bytes behind the tag and their position.
  type Switch<!M> = (M, nat, nat, seq<byte>, nat) -> Turn<M>

  function OneTurn<M>(sw: Switch<M>, m: M, b: seq<byte>, pos: nat): Turn<M> {
    match ReadVarint(b)
    case NoVarint(e) => Bad(e)
    case Got(tag, k) => sw(m, tag / 8, tag % 8, b[k..], pos + k)
  }

  function LoopOf<M>(sw: Switch<M>): Loop<M> { (m: M, b: seq<byte>, pos: nat) => OneTurn(sw, m, b, pos) }

  // The default branch.
  function SkipTurn<M>(m: M, wt: nat, b: seq<byte>, pos: nat): (r: Turn<M>)
    ensures r.More? ==> r.next <= pos + |b|
  {
    match SkipAt(wt, b, pos)
    case NoSkip(e) => Bad(e)
    case To(next) => More(m, next)
  }

  /************ What a switch may look at ************/

  ghost predicate BoundedAt<M>(sw: Switch<M>, m: M, num: nat, wt: nat, b: seq<byte>, pos: nat) {
    sw(m, num, wt, b, pos).More? ==> sw(m, num, wt, b, pos).next <= pos + |b|
  }

  ghost predicate SwitchLocal<M>(sw: Switch<M>, m: M, num: nat, wt: nat, b: seq<byte>, pos: nat, c: seq<byte>) {
    sw(m, num, wt, b, pos).More? ==> sw(m, num, wt, b + c, pos) == sw(m, num, wt, b, pos)
  }

  // `lead` bytes of tag stand before pos.
  ghost predicate SwitchMovable<M>(sw: Switch<M>, m: M, num: nat, wt: nat, b: seq<byte>, pos: nat, pos': nat,
                                   lead: nat) {
    pos + |b| < TWO63 && pos' + |b| < TWO63 && lead <= pos && lead <= pos' ==>
      SameTurn(sw(m, num, wt, b, pos), sw(m, num, wt, b, pos'), pos - lead, pos' - lead)
  }

  ghost predicate WellMade<M(!new)>(sw: Switch<M>) {
    && (forall m, num: nat, wt: nat, b, pos: nat :: BoundedAt(sw, m, num, wt, b, pos))
    && (forall m, num: nat, wt: nat, b, pos: nat, c :: SwitchLocal(sw, m, num, wt, b, pos, c))
    && (forall m, num: nat, wt: nat, b, pos: nat, pos': nat, lead: nat ::
      SwitchMovable(sw, m, num, wt, b, pos, pos', lead))
  }

  lemma LoopBounded<M(!new)>(sw: Switch<M>)
    requires WellMade(sw)
    ensures Bounded(LoopOf(sw))
  {
    var turn := LoopOf(sw);
    forall m, b, pos: nat | turn(m, b, pos).More? ensures turn(m, b, pos).next <= pos + |b| {
      var tag, k := ReadVarint(b).v, ReadVarint(b).n;
      assert BoundedAt(sw, m, tag / 8, tag % 8, b[k..], pos + k);
    }
  }

  lemma TurnLocal<M(!new)>(sw: Switch<M>, m: M, b: seq<byte>, pos: nat, c: seq<byte>)
    requires WellMade(sw)
    ensures LocalAt(LoopOf(sw), m, b, pos, c)
  {
    if OneTurn(sw, m, b, pos).More? {
      ReadVarintLocal(b, c);
      var tag, k := ReadVarint(b).v, ReadVarint(b).n;
      assert (b + c)[k..] == b[k..] + c;
      assert SwitchLocal(sw, m, tag / 8, tag % 8, b[k..], pos + k, c);
    }
  }

  lemma TurnMovable<M(!new)>(sw: Switch<M>, m: M, b: seq<byte>, pos: nat, pos': nat)
    requires WellMade(sw)
    ensures MovableAt(LoopOf(sw), m, b, pos, pos')
  {
    if ReadVarint(b).Got? {
      var tag, k := ReadVarint(b).v, ReadVarint(b).n;
      assert SwitchMovable(sw, m, tag / 8, tag % 8, b[k..], pos + k, pos' + k, k);
    }
  }

  lemma LoopRegular<M(!new)>(sw: Switch<M>)
    requires WellMade(sw)
    ensures Regular(LoopOf(sw))
  {
    LoopBounded(sw);
    forall m, b, pos: nat, c ensures LocalAt(LoopOf(sw), m, b, pos, c) { TurnLocal(sw, m, b, pos, c); }
    forall m, b, pos: nat, pos': nat
      ensures MovableAt(LoopOf(sw), m, b, pos, pos')
    {
      TurnMovable(sw, m, b, pos, pos');
    }
  }

  /************ When a turn is wild ************/

  // Field number, wire type, the bytes behind the tag, their position, and the length of the tag.
  type SwitchGuard = (nat, nat, seq<byte>, nat, nat) -> bool

  function GuardOf(sg: SwitchGuard): Guard {
    (b: seq<byte>, pos: nat) =>
      var r := ReadVarint(b);
      r.Got? && sg(r.v / 8, r.v % 8, b[r.n..], pos + r.n, r.n)
  }

  // The length of a text, added to the position behind it, leaves Go's int.
  predicate TextOverflows(b: seq<byte>, pos: nat) {
    ReadVarint(b).Got? && pos + ReadVarint(b).n + ReadVarint(b).v >= TWO63
  }

  // So does the length of a field to skip, and the sum does not wrap to a place inside the field.
  predicate SkipOverflows(wt: nat, b: seq<byte>, pos: nat, lead: nat) {
    wt == BYTES && TextOverflows(b, pos) && ReadVarint(b).n + ReadVarint(b).v + lead <= TWO64
  }

  ghost predicate SwitchGuardedAt<M>(sw: Switch<M>, sg: SwitchGuard, m: M, num: nat, wt: nat, b: seq<byte>, pos: nat,
                                     lead: nat) {
    pos + |b| < TWO63 && 0 < lead <= pos ==>
      (WildTurn(sw(m, num, wt, b, pos), pos - lead) <==> sg(num, wt, b, pos, lead))
  }

  ghost predicate SwitchRisesAt(sg: SwitchGuard, num: nat, wt: nat, b: seq<byte>, pos: nat, pos': nat, lead: nat) {
    pos <= pos' && sg(num, wt, b, pos, lead) ==> sg(num, wt, b, pos', lead)
  }

  ghost predicate SwitchGuarded<M(!new)>(sw: Switch<M>, sg: SwitchGuard) {
    && (forall m, num: nat, wt: nat, b, pos: nat, lead: nat :: SwitchGuardedAt(sw, sg, m, num, wt, b, pos, lead))
    && (forall num: nat, wt: nat, b, pos: nat, pos': nat, lead: nat :: SwitchRisesAt(sg, num, wt, b, pos, pos', lead))
  }

  lemma TurnGuarded<M(!new)>(sw: Switch<M>, sg: SwitchGuard, m: M, b: seq<byte>, pos: nat)
    requires SwitchGuarded(sw, sg)
    ensures GuardedAt(LoopOf(sw), GuardOf(sg), m, b, pos)
  {
    VarintNotWild(b, 0, 0);
    if ReadVarint(b).Got? {
      var tag, k := ReadVarint(b).v, ReadVarint(b).n;
      assert SwitchGuardedAt(sw, sg, m, tag / 8, tag % 8, b[k..], pos + k, k);
    }
  }

  lemma TurnRises(sg: SwitchGuard, b: seq<byte>, pos: nat, pos': nat)
    requires forall num: nat, wt: nat, b, pos: nat, pos': nat, lead: nat ::
        SwitchRisesAt(sg, num, wt, b, pos, pos', lead)
    ensures RisesAt(GuardOf(sg), b, pos, pos')
  {
    if ReadVarint(b).Got? {
      var tag, k := ReadVarint(b).v, ReadVarint(b).n;
      assert SwitchRisesAt(sg, tag / 8, tag % 8, b[k..], pos + k, pos' + k, k);
    }
  }

  /** A guard exact for the switch is exact for its loop.  */
  lemma LoopGuarded<M(!new)>(sw: Switch<M>, sg: SwitchGuard)
    requires SwitchGuarded(sw, sg)
    ensures Guarded(LoopOf(sw), GuardOf(sg))
  {
    forall m, b, pos: nat ensures GuardedAt(LoopOf(sw), GuardOf(sg), m, b, pos) { TurnGuarded(sw, sg, m, b, pos); }
    forall b, pos: nat, pos': nat ensures RisesAt(GuardOf(sg), b, pos, pos') { TurnRises(sg, b, pos, pos'); }
  }

  /************ The decoder's reads ************/

  // No read sees beyond what it consumes.
  lemma ReadsLocal(wt: nat, b: seq<byte>, pos: nat, c: seq<byte>)
    ensures ReadVarint(b).Got? ==> ReadVarint(b + c) == ReadVarint(b)
    ensures BytesAt(b, pos).GotBytes? ==> BytesAt(b + c, pos) == BytesAt(b, pos)
    ensures |b| >= 8 ==> Fixed64(b + c) == Fixed64(b)
    ensures SkipAt(wt, b, pos).To? ==> SkipAt(wt, b + c, pos) == SkipAt(wt, b, pos)
  {
    if ReadVarint(b).Got? { ReadVarintLocal(b, c); }
    if BytesAt(b, pos).GotBytes? {
      var j, n := ReadVarint(b).n, BytesAt(b, pos).n;
      assert (b + c)[j..n] == b[j..n];
    }
    if |b| >= 8 { assert (b + c)[..8] == b[..8]; }
  }

  // Nor where it stands, except to fail differently.
  lemma BytesMovable(b: seq<byte>, pos: nat, pos': nat)
    requires pos + |b| < TWO63 && pos' + |b| < TWO63
    ensures BytesAt(b, pos).GotBytes? <==> BytesAt(b, pos').GotBytes?
    ensures BytesAt(b, pos).GotBytes? ==> BytesAt(b, pos') == BytesAt(b, pos)
    ensures var r, r' := BytesAt(b, pos), BytesAt(b, pos'); r.NoBytes? && !Wild(r.error) && !Wild(r'.error) ==> r' == r
  {}

  lemma SkipMovable(wt: nat, b: seq<byte>, pos: nat, pos': nat, lead: nat)
    requires pos + |b| < TWO63 && pos' + |b| < TWO63 && lead <= pos && lead <= pos'
    ensures var r, r' := SkipAt(wt, b, pos), SkipAt(wt, b, pos');
      && (r.To? && r.next > pos - lead <==> r'.To? && r'.next > pos' - lead)
      && (r.To? && r.next > pos - lead ==> r'.next - pos' == r.next - pos)
      && (r.NoSkip? && r'.NoSkip? ==> r' == r)
      && (r.NoSkip? && r'.To? ==> r'.next <= pos' - lead)
  {
    if wt == BYTES && ReadVarint(b).Got? {
      var len, j := ReadVarint(b).v, ReadVarint(b).n;
      if len < TWO63 && (pos + j + len >= TWO63 || pos' + j + len >= TWO63) { assert j + len > |b|; }
    }
  }

  /** Skipping moves the position beyond the field's start, `lead` bytes back, unless the declared length takes
      the sum out of the positive ints and not just back into the same field.  */
  lemma SkipAdvancesIff(wt: nat, b: seq<byte>, pos: nat, lead: nat)
    requires pos + |b| < TWO63 && 0 < lead <= pos && SkipAt(wt, b, pos).To?
    ensures SkipAt(wt, b, pos).next > pos - lead <==> !SkipOverflows(wt, b, pos, lead)
  {}

  lemma {:induction false} VarintNotWild(b: seq<byte>, i: nat, acc: u64)
    requires i <= 10
    ensures var r := VarintFrom(b, i, acc); r.NoVarint? ==> !Wild(r.error)
    decreases 10 - i
  {
    if i < |b| && i < 10 { VarintNotWild(b, i + 1, (acc + Shl7(b[i] % 128, i)) % TWO64); }
  }

  /** A text read panics, and a skip is wild, exactly when its length overflows.  */
  lemma ReadsWildIff<M>(m: M, wt: nat, b: seq<byte>, pos: nat, lead: nat)
    requires pos + |b| < TWO63 && 0 < lead <= pos
    ensures BytesAt(b, pos).NoBytes? && Wild(BytesAt(b, pos).error) <==> TextOverflows(b, pos)
    ensures WildTurn(SkipTurn(m, wt, b, pos), pos - lead) <==> SkipOverflows(wt, b, pos, lead)
  {
    VarintNotWild(b, 0, 0);
    if SkipAt(wt, b, pos).To? { SkipAdvancesIff(wt, b, pos, lead); }
  }

  /************ Unknown fields ************/

  // The switch has no case for num.
  ghost predicate Unknown<M(!new)>(sw: Switch<M>, num: nat) {
    forall m, wt: nat, b, pos: nat :: sw(m, num, wt, b, pos) == SkipTurn(m, wt, b, pos)
  }

  // One whole field of wire type 0, 1, 2 or 5.
  predicate WholeField(u: seq<byte>) {
    && ReadVarint(u).Got?
    && var tag, body := ReadVarint(u).v, u[ReadVarint(u).n..];
    || (tag % 8 == VARINT && ReadVarint(body).Got? && ReadVarint(body).n == |body|)
    || (tag % 8 == FIXED64 && |body| == 8)
    || (tag % 8 == FIXED32 && |body| == 4)
    || (tag % 8 == BYTES && ReadVarint(body).Got? && ReadVarint(body).n + ReadVarint(body).v == |body|)
  }

  /** A well-formed field of a number the switch does not know is skipped whole.  */
  lemma UnknownSkips<M(!new)>(sw: Switch<M>, u: seq<byte>)
    requires WholeField(u) && Unknown(sw, ReadVarint(u).v / 8)
    ensures Skips(LoopOf(sw), u)
  {
    var tag, k := ReadVarint(u).v, ReadVarint(u).n;
    forall m, pos: nat | pos + |u| < TWO63 ensures LoopOf(sw)(m, u, pos) == More(m, pos + |u|) {
      assert sw(m, tag / 8, tag % 8, u[k..], pos + k) == SkipTurn(m, tag % 8, u[k..], pos + k);
    }
  }

  // Field 4, length-delimited, 2^64 - 11 bytes long.
  function Endless(): seq<byte> { [0x22] + VarintBytes(TWO64 - 11) }

  lemma TenBytes()
    ensures |VarintBytes(TWO64 - 11)| == 10
  {
    assert |VarintBytes(0x1)| == 1;
    assert |VarintBytes(0xFF)| == 2;
    assert |VarintBytes(0x7FFF)| == 3;
    assert |VarintBytes(0x3F_FFFF)| == 4;
    assert |VarintBytes(0x1FFF_FFFF)| == 5;
    assert |VarintBytes(0xF_FFFF_FFFF)| == 6;
    assert |VarintBytes(0x7FF_FFFF_FFFF)| == 7;
    assert |VarintBytes(0x3_FFFF_FFFF_FFFF)| == 8;
    assert |VarintBytes(0x1FF_FFFF_FFFF_FFFF)| == 9;
  }

  lemma EndlessSkip()
    ensures SkipAt(BYTES, VarintBytes(TWO64 - 11), 1) == To(0)
  {
    var v := VarintBytes(TWO64 - 11);
    TenBytes();
    assert v + [] == v;
    VarintRoundTrip(TWO64 - 11, []);
  }

  /** Termination is false for huge lengths: these eleven bytes keep any Unmarshal that does not know field 4
      at position zero for ever.  */
  lemma EndlessSpins<M(!new)>(sw: Switch<M>, m: M, k: nat)
    requires Unknown(sw, 4)
    ensures Turns(LoopOf(sw), m, Endless(), 0, k) == Going(m, 0)
  {
    var v := VarintBytes(TWO64 - 11);
    assert VarintBytes(0x22) == [0x22];
    VarintRoundTrip(0x22, v);
    assert Endless()[1..] == v;
    EndlessSkip();
    assert sw(m, 4, BYTES, v, 1) == SkipTurn(m, BYTES, v, 1);
    assert Endless()[0..] == Endless();
    Spins(LoopOf(sw), m, Endless(), 0, k);
  }

  /************ Reading what was written ************/

  // Case num of the switch stores a text.
  ghost predicate TakesText<M>(sw: Switch<M>, m: M, num: nat, s: seq<byte>, m': M) {
    forall b, p: nat :: BytesAt(b, p).GotBytes? && BytesAt(b, p).data == s ==>
      sw(m, num, BYTES, b, p) == More(m', p + BytesAt(b, p).n)
  }

  ghost predicate TakesNumber<M>(sw: Switch<M>, m: M, num: nat, v: u64, m': M) {
    forall b, p: nat :: ReadVarint(b).Got? && ReadVarint(b).v == v ==>
      sw(m, num, VARINT, b, p) == More(m', p + ReadVarint(b).n)
  }

  ghost predicate TakesDouble<M>(sw: Switch<M>, m: M, num: nat, v: u64, m': M) {
    forall b, p: nat :: |b| >= 8 && Fixed64(b) == v ==> sw(m, num, FIXED64, b, p) == More(m', p + 8)
  }

  // A field laid out as tag and body, its body read to the end.
  lemma ReadsField<M(!new)>(sw: Switch<M>, m: M, m': M, num: nat, wt: nat, body: seq<byte>, f: seq<byte>,
                            rest: seq<byte>, pos: nat)
    requires Bounded(LoopOf(sw)) && num < 16 && wt < 8 && f == Tag(num, wt) + body
    requires body != [] && sw(m, num, wt, body + rest, pos + |Tag(num, wt)|) == More(m', pos + |f|)
    ensures Decode(LoopOf(sw), m, f + rest, pos) == Decode(LoopOf(sw), m', rest, pos + |f|)
  {
    Associates(Tag(num, wt), body, rest);
    TagRoundTrip(num, wt, body + rest);
    assert OneTurn(sw, m, f + rest, pos) == More(m', pos + |f|);
    DecodeTurn(LoopOf(sw), m, f + rest, pos);
    assert (f + rest)[|f|..] == rest;
  }

  lemma ReadsNothing<M(!new)>(sw: Switch<M>, m: M, f: seq<byte>, rest: seq<byte>, pos: nat)
    requires Bounded(LoopOf(sw)) && f == []
    ensures Decode(LoopOf(sw), m, f + rest, pos) == Decode(LoopOf(sw), m, rest, pos + |f|)
  {
    assert f + rest == rest;
  }

  lemma TextBody<M(!new)>(sw: Switch<M>, m: M, m': M, num: nat, s: seq<byte>, rest: seq<byte>, p: nat)
    requires num < 16 && s != [] && TakesText(sw, m, num, s, m') && p + |VarintBytes(|s| % TWO64)| + |s| < TWO63
    ensures var body := VarintBytes(|s| % TWO64) + s; sw(m, num, BYTES, body + rest, p) == More(m', p + |body|)
  {
    Wire.BytesRoundTrip(s, rest, p);
  }

  lemma ReadsText<M(!new)>(sw: Switch<M>, m: M, m': M, num: nat, s: seq<byte>, f: seq<byte>, rest: seq<byte>, pos: nat)
    requires Bounded(LoopOf(sw)) && num < 16 && f == BytesField(num, s)
    requires if s == [] then m' == m else TakesText(sw, m, num, s, m')
    requires pos + |f| < TWO63
    ensures Decode(LoopOf(sw), m, f + rest, pos) == Decode(LoopOf(sw), m', rest, pos + |f|)
  {
    if s == [] {
      ReadsNothing(sw, m, f, rest, pos);
    } else {
      TextBody(sw, m, m', num, s, rest, pos + |Tag(num, BYTES)|);
      ReadsField(sw, m, m', num, BYTES, VarintBytes(|s| % TWO64) + s, f, rest, pos);
    }
  }

  lemma ReadsNumber<M(!new)>(sw: Switch<M>, m: M, m': M, num: nat, v: u64, f: seq<byte>, rest: seq<byte>, pos: nat)
    requires Bounded(LoopOf(sw)) && num < 16 && f == UintField(num, v)
    requires if v == 0 then m' == m else TakesNumber(sw, m, num, v, m')
    ensures Decode(LoopOf(sw), m, f + rest, pos) == Decode(LoopOf(sw), m', rest, pos + |f|)
  {
    if v == 0 {
      ReadsNothing(sw, m, f, rest, pos);
    } else {
      VarintRoundTrip(v, rest);
      ReadsField(sw, m, m', num, VARINT, VarintBytes(v), f, rest, pos);
    }
  }

  lemma ReadsDouble<M(!new)>(sw: Switch<M>, m: M, m': M, num: nat, v: u64, f: seq<byte>, rest: seq<byte>, pos: nat)
    requires Bounded(LoopOf(sw)) && num < 16 && f == DoubleField(num, v)
    requires if IsZeroDouble(v) then m' == m else TakesDouble(sw, m, num, v, m')
    ensures Decode(LoopOf(sw), m, f + rest, pos) == Decode(LoopOf(sw), m', rest, pos + |f|)
  {
    if IsZeroDouble(v) {
      ReadsNothing(sw, m, f, rest, pos);
    } else {
      Fixed64RoundTrip(v, rest);
      ReadsField(sw, m, m', num, FIXED64, Le(v, 8), f, rest, pos);
    }
  }
}
