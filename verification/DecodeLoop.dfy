/** The loop every Unmarshal of go/internal/testpb/messages.go is: as long as data is left, read one field into
    the message.  What one turn does is a parameter.  */
module DecodeLoop {
  import opened Framing
  import opened Wire

  datatype Turn<M> = More(m: M, next: int) | Bad(error: Error)
  datatype Result<M> = Decoded(m: M) | Failed(error: Error)

  // One turn: the message so far, the unread bytes and their position.
  type Loop<!M> = (M, seq<byte>, nat) -> Turn<M>

  // No turn moves past the end of the data.
  ghost predicate Bounded<M(!new)>(turn: Loop<M>) {
    forall m, b, pos: nat :: turn(m, b, pos).More? ==> turn(m, b, pos).next <= pos + |b|
  }

  /** Unmarshal into m, with b unread from position pos.  A position below zero makes the next read panic;
      a position not beyond this field's start ends the model's run as Rewound.  */
  function Decode<M(!new)>(turn: Loop<M>, m: M, b: seq<byte>, pos: nat): Result<M>
    requires Bounded(turn)
    decreases |b|
  {
    if b == [] then Decoded(m)
    else
      match turn(m, b, pos)
      case Bad(e) => Failed(e)
      case More(m', next) =>
        if next < 0 then Failed(Panic)
        else if next <= pos then Failed(Rewound)
        else Decode(turn, m', b[next - pos..], next)
  }

  /************ A turn depends on its field alone, wherever it stands ************/

  predicate Advances<M>(t: Turn<M>, start: int) { t.More? && t.next > start }

  predicate Wild(e: Error) { e.Panic? || e.Rewound? }

  // The turn panics, or leaves the position at the field's start, behind it, or below zero.
  predicate WildTurn<M>(t: Turn<M>, start: int) { if t.More? then t.next <= start else Wild(t.error) }

  // Both turns advance by as much to the same message, or neither does; and unless one is wild, they fail alike.
  ghost predicate SameTurn<M>(t: Turn<M>, t': Turn<M>, start: int, start': int) {
    && (Advances(t, start) <==> Advances(t', start'))
    && (Advances(t, start) ==> t' == More(t.m, t.next - start + start'))
    && (t.Bad? && !WildTurn(t, start) && !WildTurn(t', start') ==> t' == t)
  }

  // What follows a field does not change its turn.
  ghost predicate LocalAt<M>(turn: Loop<M>, m: M, b: seq<byte>, pos: nat, c: seq<byte>) {
    turn(m, b, pos).More? ==> turn(m, b + c, pos) == turn(m, b, pos)
  }

  // Nor does its position.
  ghost predicate MovableAt<M>(turn: Loop<M>, m: M, b: seq<byte>, pos: nat, pos': nat) {
    pos + |b| < TWO63 && pos' + |b| < TWO63 ==> SameTurn(turn(m, b, pos), turn(m, b, pos'), pos, pos')
  }

  ghost predicate Regular<M(!new)>(turn: Loop<M>) {
    && Bounded(turn)
    && (forall m, b, pos: nat, c :: LocalAt(turn, m, b, pos, c))
    && (forall m, b, pos: nat, pos': nat :: MovableAt(turn, m, b, pos, pos'))
  }

  lemma DecodeTurn<M(!new)>(turn: Loop<M>, m: M, b: seq<byte>, pos: nat)
    requires Bounded(turn) && b != []
    ensures Decode(turn, m, b, pos).Decoded? ==> Advances(turn(m, b, pos), pos)
    ensures var t := turn(m, b, pos); Advances(t, pos) ==>
      t.next <= pos + |b| && Decode(turn, m, b, pos) == Decode(turn, t.m, b[t.next - pos..], t.next)
  {}

  lemma DecodeTurnThen<M(!new)>(turn: Loop<M>, m: M, a: seq<byte>, b: seq<byte>, pos: nat)
    requires Regular(turn) && a != [] && Advances(turn(m, a, pos), pos)
    ensures var t := turn(m, a, pos);
      t.next <= pos + |a| && Decode(turn, m, a + b, pos) == Decode(turn, t.m, a[t.next - pos..] + b, t.next)
  {
    assert LocalAt(turn, m, a, pos, b);
    var t := turn(m, a, pos);
    assert (a + b)[t.next - pos..] == a[t.next - pos..] + b;
  }

  /** Unmarshalling a followed by b is unmarshalling b into what a gave.  */
  lemma {:induction false} DecodeConcat<M(!new)>(turn: Loop<M>, m: M, a: seq<byte>, b: seq<byte>, pos: nat)
    requires Regular(turn) && Decode(turn, m, a, pos).Decoded?
    ensures Decode(turn, m, a + b, pos) == Decode(turn, Decode(turn, m, a, pos).m, b, pos + |a|)
    decreases |a|
  {
    if a == [] {
      assert a + b == b;
    } else {
      DecodeTurn(turn, m, a, pos);
      DecodeTurnThen(turn, m, a, b, pos);
      var t := turn(m, a, pos);
      DecodeConcat(turn, t.m, a[t.next - pos..], b, t.next);
    }
  }

  predicate WildResult<M>(r: Result<M>) { r.Failed? && Wild(r.error) }

  // The same message or the same error, unless one of the two is wild; and then no message at all.
  ghost predicate Agree<M>(r: Result<M>, r': Result<M>) {
    (r.Decoded? <==> r'.Decoded?) && (!WildResult(r) && !WildResult(r') ==> r' == r)
  }

  lemma {:induction false} DecodeAnywhere<M(!new)>(turn: Loop<M>, m: M, b: seq<byte>, pos: nat, pos': nat)
    requires Regular(turn) && pos + |b| < TWO63 && pos' + |b| < TWO63
    ensures Agree(Decode(turn, m, b, pos), Decode(turn, m, b, pos'))
    decreases |b|
  {
    if b != [] {
      assert MovableAt(turn, m, b, pos, pos');
      var t := turn(m, b, pos);
      if Advances(t, pos) { DecodeAnywhere(turn, t.m, b[t.next - pos..], t.next, t.next - pos + pos'); }
    }
  }

  /************ Unknown fields ************/

  // u is one field, skipped whatever the message and wherever it stands.
  ghost predicate Skips<M(!new)>(turn: Loop<M>, u: seq<byte>) {
    u != [] && forall m, pos: nat :: pos + |u| < TWO63 ==> turn(m, u, pos) == More(m, pos + |u|)
  }

  // So is any run of such fields.
  ghost predicate Ignores<M(!new)>(turn: Loop<M>, u: seq<byte>)
    requires Bounded(turn)
  {
    forall m :: Decode(turn, m, u, 0) == Decoded(m)
  }

  lemma {:induction false} RunIgnored<M(!new)>(turn: Loop<M>, us: seq<seq<byte>>)
    requires Regular(turn) && |Join(us)| < TWO63
    requires forall i :: 0 <= i < |us| ==> Skips(turn, us[i])
    ensures Ignores(turn, Join(us))
    decreases |us|
  {
    if us != [] {
      var u, rest := us[0], Join(us[1..]);
      RunIgnored(turn, us[1..]);
      forall m ensures Decode(turn, m, u + rest, 0) == Decoded(m) {
        assert turn(m, u, 0) == More(m, |u|) && u[|u|..] == [];
        DecodeConcat(turn, m, u, rest, 0);
        DecodeAnywhere(turn, m, rest, 0, |u|);
      }
    }
  }

  // parts[0], junk[0], parts[1], junk[1], ...
  function Weave(parts: seq<seq<byte>>, junk: seq<seq<byte>>): seq<byte>
    requires |junk| == |parts|
  {
    if parts == [] then [] else parts[0] + (junk[0] + Weave(parts[1..], junk[1..]))
  }

  function Join(parts: seq<seq<byte>>): seq<byte> {
    if parts == [] then [] else parts[0] + Join(parts[1..])
  }

  // Each part is a whole number of fields, as read into the message the parts before it gave.
  ghost predicate Boundaries<M(!new)>(turn: Loop<M>, m: M, parts: seq<seq<byte>>)
    requires Bounded(turn)
  {
    parts == [] || (Decode(turn, m, parts[0], 0).Decoded?
      && Boundaries(turn, Decode(turn, m, parts[0], 0).m, parts[1..]))
  }

  // Decoding a whole part first.
  lemma PartFirst<M(!new)>(turn: Loop<M>, m: M, m': M, a: seq<byte>, b: seq<byte>, pos: nat)
    requires Regular(turn) && Decode(turn, m, a, 0) == Decoded(m') && pos + |a| < TWO63
    ensures Decode(turn, m, a + b, pos) == Decode(turn, m', b, pos + |a|)
  {
    DecodeAnywhere(turn, m, a, 0, pos);
    DecodeConcat(turn, m, a, b, pos);
  }

  lemma JunkFirst<M(!new)>(turn: Loop<M>, m: M, u: seq<byte>, b: seq<byte>, pos: nat)
    requires Regular(turn) && Ignores(turn, u) && pos + |u| < TWO63
    ensures Decode(turn, m, u + b, pos) == Decode(turn, m, b, pos + |u|)
  {
    PartFirst(turn, m, m, u, b, pos);
  }

  lemma WeaveOne<M(!new)>(turn: Loop<M>, m: M, m': M, a: seq<byte>, u: seq<byte>, x: seq<byte>, y: seq<byte>, pos: nat,
                          pos': nat)
    requires Regular(turn) && Decode(turn, m, a, 0) == Decoded(m') && Ignores(turn, u)
    requires pos + |a| < TWO63 && pos' + |a| + |u| < TWO63
    requires Agree(Decode(turn, m', x, pos + |a|), Decode(turn, m', y, pos' + |a| + |u|))
    ensures Agree(Decode(turn, m, a + x, pos), Decode(turn, m, a + (u + y), pos'))
  {
    PartFirst(turn, m, m', a, x, pos);
    PartFirst(turn, m, m', a, u + y, pos');
    JunkFirst(turn, m', u, y, pos' + |a|);
  }

  /** Weaving unknown fields between the fields of any data changes nothing.  */
  lemma {:induction false} UnknownFieldsIgnored<M(!new)>(turn: Loop<M>, m: M, parts: seq<seq<byte>>,
                                                         junk: seq<seq<byte>>, pos: nat, pos': nat)
    requires Regular(turn) && |junk| == |parts| && Boundaries(turn, m, parts)
    requires forall i :: 0 <= i < |junk| ==> Ignores(turn, junk[i])
    requires pos + |Join(parts)| < TWO63 && pos' + |Weave(parts, junk)| < TWO63
    ensures Agree(Decode(turn, m, Join(parts), pos), Decode(turn, m, Weave(parts, junk), pos'))
    decreases |parts|
  {
    if parts != [] {
      var a, u, m' := parts[0], junk[0], Decode(turn, m, parts[0], 0).m;
      UnknownFieldsIgnored(turn, m', parts[1..], junk[1..], pos + |a|, pos' + |a| + |u|);
      WeaveOne(turn, m, m', a, u, Join(parts[1..]), Weave(parts[1..], junk[1..]), pos, pos');
    }
  }

  /************ Runs of fields ************/

  // Reading the field f turns m into m', wherever it stands and whatever follows.
  ghost predicate Consumes<M(!new)>(turn: Loop<M>, m: M, m': M, f: seq<byte>)
    requires Bounded(turn)
  {
    forall rest, pos: nat :: pos + |f| < TWO63 ==> Decode(turn, m, f + rest, pos) == Decode(turn, m', rest, pos + |f|)
  }

  lemma ConsumesThen<M(!new)>(turn: Loop<M>, m: M, m': M, f: seq<byte>, rest: seq<byte>, pos: nat, r: Result<M>)
    requires Bounded(turn) && Consumes(turn, m, m', f) && pos + |f| < TWO63
    requires Decode(turn, m', rest, pos + |f|) == r
    ensures Decode(turn, m, f + rest, pos) == r
  {}

  /** Fields that take ms[0] to ms[1] to ms[2] and so on take it, joined, to the last.  */
  lemma {:induction false} ConsumesAll<M(!new)>(turn: Loop<M>, ms: seq<M>, fs: seq<seq<byte>>, pos: nat)
    requires Bounded(turn) && |ms| == |fs| + 1 && pos + |Join(fs)| < TWO63
    requires forall i :: 0 <= i < |fs| ==> Consumes(turn, ms[i], ms[i + 1], fs[i])
    ensures Decode(turn, ms[0], Join(fs), pos) == Decoded(ms[|fs|])
    decreases |fs|
  {
    if fs != [] {
      var f := fs[0];
      forall i | 0 <= i < |fs[1..]| ensures Consumes(turn, ms[1..][i], ms[1..][i + 1], fs[1..][i]) {
        assert Consumes(turn, ms[i + 1], ms[i + 1 + 1], fs[i + 1]);
      }
      ConsumesAll(turn, ms[1..], fs[1..], pos + |f|);
      ConsumesThen(turn, ms[0], ms[1], f, Join(fs[1..]), pos, Decoded(ms[|fs|]));
    }
  }

  lemma ConsumesDecodes<M(!new)>(turn: Loop<M>, m: M, m': M, f: seq<byte>)
    requires Bounded(turn) && Consumes(turn, m, m', f) && |f| < TWO63
    ensures Decode(turn, m, f, 0) == Decoded(m')
  {
    assert f + [] == f;
    assert Decode(turn, m, f + [], 0) == Decode(turn, m', [], 0 + |f|);
  }

  /** Such fields can be told apart again: junk may be put between any two of them.  */
  lemma {:induction false} ConsumesBoundaries<M(!new)>(turn: Loop<M>, ms: seq<M>, fs: seq<seq<byte>>)
    requires Bounded(turn) && |ms| == |fs| + 1 && |Join(fs)| < TWO63
    requires forall i :: 0 <= i < |fs| ==> Consumes(turn, ms[i], ms[i + 1], fs[i])
    ensures Boundaries(turn, ms[0], fs)
    decreases |fs|
  {
    if fs != [] {
      forall i | 0 <= i < |fs[1..]| ensures Consumes(turn, ms[1..][i], ms[1..][i + 1], fs[1..][i]) {
        assert Consumes(turn, ms[i + 1], ms[i + 1 + 1], fs[i + 1]);
      }
      ConsumesDecodes(turn, ms[0], ms[1], fs[0]);
      ConsumesBoundaries(turn, ms[1..], fs[1..]);
    }
  }

  /************ The loop as it is ************/

  datatype Run<M> = Going(m: M, pos: nat) | Ended(r: Result<M>)

  /** k turns of the source's loop, which reads on from wherever a turn leaves the position.  */
  function Turns<M>(turn: Loop<M>, m: M, buf: seq<byte>, pos: nat, k: nat): Run<M>
    decreases k
  {
    if pos >= |buf| then Ended(Decoded(m))
    else if k == 0 then Going(m, pos)
    else
      match turn(m, buf[pos..], pos)
      case Bad(e) => Ended(Failed(e))
      case More(m', next) => if next < 0 then Ended(Failed(Panic)) else Turns(turn, m', buf, next, k - 1)
  }

  // Says of a field, from its bytes and position, that its turn is wild.
  type Guard = (seq<byte>, nat) -> bool

  ghost predicate GuardedAt<M>(turn: Loop<M>, guard: Guard, m: M, b: seq<byte>, pos: nat) {
    pos + |b| < TWO63 ==> (WildTurn(turn(m, b, pos), pos) <==> guard(b, pos))
  }

  ghost predicate RisesAt(guard: Guard, b: seq<byte>, pos: nat, pos': nat) {
    pos <= pos' && guard(b, pos) ==> guard(b, pos')
  }

  // The guard is exact, and further on in a buffer holds of no fewer fields.
  ghost predicate Guarded<M(!new)>(turn: Loop<M>, guard: Guard) {
    && (forall m, b, pos: nat :: GuardedAt(turn, guard, m, b, pos))
    && (forall b, pos: nat, pos': nat :: RisesAt(guard, b, pos, pos'))
  }

  // The loop, reading b from position pos, comes to a field the guard holds of.
  predicate Visits<M(!new)>(turn: Loop<M>, guard: Guard, m: M, b: seq<byte>, pos: nat)
    requires Bounded(turn)
    decreases |b|
  {
    b != [] &&
    (guard(b, pos) ||
     var t := turn(m, b, pos);
     t.More? && pos < t.next && Visits(turn, guard, t.m, b[t.next - pos..], t.next))
  }

  /** Unmarshal panics or moves back exactly when it comes to a field the guard holds of.  */
  lemma {:induction false} WildIffVisits<M(!new)>(turn: Loop<M>, guard: Guard, m: M, b: seq<byte>, pos: nat)
    requires Bounded(turn) && Guarded(turn, guard) && pos + |b| < TWO63
    ensures WildResult(Decode(turn, m, b, pos)) <==> Visits(turn, guard, m, b, pos)
    decreases |b|
  {
    if b != [] {
      assert GuardedAt(turn, guard, m, b, pos);
      var t := turn(m, b, pos);
      if Advances(t, pos) { WildIffVisits(turn, guard, t.m, b[t.next - pos..], t.next); }
    }
  }

  lemma {:induction false} VisitsRises<M(!new)>(turn: Loop<M>, guard: Guard, m: M, b: seq<byte>, pos: nat, pos': nat)
    requires Regular(turn) && Guarded(turn, guard) && pos <= pos' && pos' + |b| < TWO63
    requires Visits(turn, guard, m, b, pos)
    ensures Visits(turn, guard, m, b, pos')
    decreases |b|
  {
    assert RisesAt(guard, b, pos, pos');
    if !guard(b, pos) {
      assert MovableAt(turn, m, b, pos, pos');
      var t := turn(m, b, pos);
      VisitsRises(turn, guard, t.m, b[t.next - pos..], t.next, t.next - pos + pos');
    }
  }

  // `actual` does what `turn` does on every field of at most n bytes that the guard does not hold of.
  ghost predicate FollowsAt<M>(actual: Loop<M>, turn: Loop<M>, guard: Guard, n: nat, m: M, b: seq<byte>, pos: nat) {
    |b| <= n && pos + |b| < TWO63 && !guard(b, pos) ==> actual(m, b, pos) == turn(m, b, pos)
  }

  ghost predicate Follows<M(!new)>(actual: Loop<M>, turn: Loop<M>, guard: Guard, n: nat) {
    forall m, b, pos: nat :: FollowsAt(actual, turn, guard, n, m, b, pos)
  }

  /** Coming to no such field, the loop ends, within as many turns as there are bytes, with the result of Decode.  */
  lemma {:induction false} LoopEnds<M(!new)>(actual: Loop<M>, turn: Loop<M>, guard: Guard, m: M, buf: seq<byte>,
                                             pos: nat, k: nat)
    requires Bounded(turn) && Guarded(turn, guard) && Follows(actual, turn, guard, |buf|)
    requires pos <= |buf| < TWO63 && |buf| - pos <= k && !Visits(turn, guard, m, buf[pos..], pos)
    ensures Turns(actual, m, buf, pos, k) == Ended(Decode(turn, m, buf[pos..], pos))
    decreases |buf| - pos
  {
    var b := buf[pos..];
    if b != [] {
      assert GuardedAt(turn, guard, m, b, pos) && FollowsAt(actual, turn, guard, |buf|, m, b, pos);
      var t := turn(m, b, pos);
      if t.More? {
        assert b[t.next - pos..] == buf[t.next..];
        LoopEnds(actual, turn, guard, t.m, buf, t.next, k - 1);
      }
    }
  }

  // A loop that comes back to where it was, with the message it had, never ends.
  lemma {:induction false} Spins<M>(turn: Loop<M>, m: M, buf: seq<byte>, pos: nat, k: nat)
    requires pos < |buf| && turn(m, buf[pos..], pos) == More(m, pos)
    ensures Turns(turn, m, buf, pos, k) == Going(m, pos)
  {
    if k > 0 { Spins(turn, m, buf, pos, k - 1); }
  }

  lemma BehindPart<M(!new)>(turn: Loop<M>, m: M, m': M, a: seq<byte>, b: seq<byte>, r: Result<M>)
    requires Regular(turn) && Decode(turn, m, a, 0) == Decoded(m') && |a| < TWO63 && Decode(turn, m', b, |a|) == r
    ensures Decode(turn, m, a + b, 0) == r
  {
    PartFirst(turn, m, m', a, b, 0);
  }

  // Decoding b behind a decoded a and behind junk.
  lemma BehindJunk<M(!new)>(turn: Loop<M>, m: M, m': M, a: seq<byte>, u: seq<byte>, b: seq<byte>, r: Result<M>)
    requires Regular(turn) && Decode(turn, m, a, 0) == Decoded(m') && Ignores(turn, u) && |a| + |u| < TWO63
    requires Decode(turn, m', b, |a| + |u|) == r
    ensures Decode(turn, m, a + (u + b), 0) == r
  {
    JunkFirst(turn, m', u, b, |a|);
    PartFirst(turn, m, m', a, u + b, 0);
  }

  // The rest of the data comes to no such field further on, so neither here.
  lemma RestTame<M(!new)>(turn: Loop<M>, guard: Guard, m: M, b: seq<byte>, pos: nat, pos': nat)
    requires Regular(turn) && Guarded(turn, guard) && pos <= pos' && pos' + |b| < TWO63
    requires !WildResult(Decode(turn, m, b, pos'))
    ensures Decode(turn, m, b, pos) == Decode(turn, m, b, pos') && !WildResult(Decode(turn, m, b, pos))
  {
    WildIffVisits(turn, guard, m, b, pos);
    WildIffVisits(turn, guard, m, b, pos');
    if Visits(turn, guard, m, b, pos) { VisitsRises(turn, guard, m, b, pos, pos'); }
    DecodeAnywhere(turn, m, b, pos, pos');
  }

  // The two data give r, which is not wild.
  lemma BothTame<M(!new)>(turn: Loop<M>, guard: Guard, m: M, x: seq<byte>, y: seq<byte>, r: Result<M>)
    requires Bounded(turn) && Guarded(turn, guard) && |x| < TWO63 && !WildResult(r)
    requires Decode(turn, m, x, 0) == r && Decode(turn, m, y, 0) == r
    ensures Decode(turn, m, x, 0) == Decode(turn, m, y, 0) && !Visits(turn, guard, m, x, 0)
  {
    WildIffVisits(turn, guard, m, x, 0);
  }

  lemma TameResult<M(!new)>(turn: Loop<M>, guard: Guard, m: M, x: seq<byte>, r: Result<M>)
    requires Bounded(turn) && Guarded(turn, guard) && |x| < TWO63 && !Visits(turn, guard, m, x, 0)
    requires Decode(turn, m, x, 0) == r
    ensures !WildResult(r)
  {
    WildIffVisits(turn, guard, m, x, 0);
  }

  /** Skipped fields put at a field boundary change neither message nor error of data that comes to no such field.  */
  lemma InsertionHarmless<M(!new)>(turn: Loop<M>, guard: Guard, m: M, m': M, a: seq<byte>, u: seq<byte>, b: seq<byte>,
                                   x: seq<byte>, y: seq<byte>)
    requires Regular(turn) && Guarded(turn, guard) && Decode(turn, m, a, 0) == Decoded(m') && Ignores(turn, u)
    requires x == a + b && y == a + (u + b) && |y| < TWO63 && !Visits(turn, guard, m, y, 0)
    ensures Decode(turn, m, x, 0) == Decode(turn, m, y, 0) && !Visits(turn, guard, m, x, 0)
  {
    var r := Decode(turn, m', b, |a| + |u|);
    BehindJunk(turn, m, m', a, u, b, r);
    TameResult(turn, guard, m, y, r);
    RestTame(turn, guard, m', b, |a|, |a| + |u|);
    BehindPart(turn, m, m', a, b, r);
    BothTame(turn, guard, m, x, y, r);
  }
}
