/** Two questions about any Unmarshal loop as it is: within how many turns it ends if it ends at all, and what
    becomes of a field whose length overflows only because it has been moved further on.  */
module Endings {
  import opened Framing
  import opened Wire
  import opened DecodeLoop
  import opened Switches

  /************ Where a loop goes does not depend on the message ************/

  // Whatever the message so far, a turn fails alike or leaves the position at the same place.
  predicate SameWay<M>(t: Turn<M>, t': Turn<M>) {
    match t
    case Bad(e) => t'.Bad? && t'.error == e
    case More(_, next) => t'.More? && t'.next == next
  }

  ghost predicate Blind<M(!new)>(turn: Loop<M>) {
    forall m, m', b, pos: nat :: SameWay(turn(m, b, pos), turn(m', b, pos))
  }

  // Two runs stand at the same place, or both have ended.
  predicate SamePlace<M>(r: Run<M>, r': Run<M>) {
    if r.Going? then r'.Going? && r'.pos == r.pos else r'.Ended?
  }

  lemma {:induction false} BlindRuns<M(!new)>(turn: Loop<M>, m: M, m': M, buf: seq<byte>, pos: nat, k: nat)
    requires Blind(turn)
    ensures SamePlace(Turns(turn, m, buf, pos, k), Turns(turn, m', buf, pos, k))
    decreases k
  {
    if pos < |buf| && k > 0 {
      var t, t' := turn(m, buf[pos..], pos), turn(m', buf[pos..], pos);
      assert SameWay(t, t');
      if t.More? && t.next >= 0 { BlindRuns(turn, t.m, t'.m, buf, t.next, k - 1); }
    }
  }

  // k and then j turns are k + j turns.
  lemma {:induction false} TurnsAdd<M(!new)>(turn: Loop<M>, m: M, buf: seq<byte>, pos: nat, k: nat, j: nat)
    ensures var r := Turns(turn, m, buf, pos, k);
      Turns(turn, m, buf, pos, k + j) == if r.Going? then Turns(turn, r.m, buf, r.pos, j) else r
    decreases k
  {
    if pos < |buf| && k > 0 {
      var t := turn(m, buf[pos..], pos);
      if t.More? && t.next >= 0 { TurnsAdd(turn, t.m, buf, t.next, k - 1, j); }
    }
  }

  // A loop still going is inside the data.
  lemma {:induction false} GoingInside<M(!new)>(turn: Loop<M>, m: M, buf: seq<byte>, pos: nat, k: nat)
    ensures var r := Turns(turn, m, buf, pos, k); r.Going? ==> r.pos < |buf|
    decreases k
  {
    if pos < |buf| && k > 0 {
      var t := turn(m, buf[pos..], pos);
      if t.More? && t.next >= 0 { GoingInside(turn, t.m, buf, t.next, k - 1); }
    }
  }

  lemma StillGoing<M(!new)>(turn: Loop<M>, m: M, buf: seq<byte>, pos: nat, k: nat, n: nat)
    requires k <= n && Turns(turn, m, buf, pos, n).Going?
    ensures Turns(turn, m, buf, pos, k).Going?
  {
    TurnsAdd(turn, m, buf, pos, k, n - k);
  }

  // A loop that comes back to a place, whatever its message, never ends.
  lemma {:induction false} ReturnsForEver<M(!new)>(turn: Loop<M>, m: M, buf: seq<byte>, pos: nat, d: nat, k: nat)
    requires Blind(turn) && d > 0 && Turns(turn, m, buf, pos, d).Going? && Turns(turn, m, buf, pos, d).pos == pos
    ensures Turns(turn, m, buf, pos, k).Going?
    decreases k
  {
    if k < d {
      StillGoing(turn, m, buf, pos, k, d);
    } else {
      TurnsAdd(turn, m, buf, pos, d, k - d);
      ReturnsForEver(turn, m, buf, pos, d, k - d);
      BlindRuns(turn, m, Turns(turn, m, buf, pos, d).m, buf, pos, k - d);
    }
  }

  /************ Pigeons ************/

  // n + 1 numbers below n are not all different.
  lemma {:induction false} TwoAlike(places: seq<nat>, n: nat) returns (i: nat, j: nat)
    requires |places| == n + 1 && forall k :: 0 <= k < |places| ==> places[k] < n
    ensures i < j < |places| && places[i] == places[j]
    decreases n
  {
    var last := places[n];
    if k :| 0 <= k < n && places[k] == last {
      i, j := k, n;
    } else {
      // Without the last, and with n - 1 named as the last was, they are n numbers below n - 1.
      var rest := seq(n, k requires 0 <= k < n => if places[k] == n - 1 then last else places[k]);
      i, j := TwoAlike(rest, n - 1);
    }
  }

  // Where the loop stands after 0, 1, ..., n turns.
  function Places<M>(turn: Loop<M>, m: M, buf: seq<byte>, n: nat): seq<nat> {
    seq(n + 1, k requires 0 <= k <= n => var r := Turns(turn, m, buf, 0, k); if r.Going? then r.pos else |buf|)
  }

  lemma GoingRepeats<M(!new)>(turn: Loop<M>, m: M, buf: seq<byte>) returns (i: nat, j: nat)
    requires Turns(turn, m, buf, 0, |buf|).Going?
    ensures i < j <= |buf| && Turns(turn, m, buf, 0, i).Going? && Turns(turn, m, buf, 0, j).Going?
    ensures Turns(turn, m, buf, 0, i).pos == Turns(turn, m, buf, 0, j).pos
  {
    var places := Places(turn, m, buf, |buf|);
    forall k | 0 <= k < |places| ensures Turns(turn, m, buf, 0, k).Going? && places[k] < |buf| {
      StillGoing(turn, m, buf, 0, k, |buf|);
      GoingInside(turn, m, buf, 0, k);
    }
    i, j := TwoAlike(places, |buf|);
  }

  /** A loop that is still going after as many turns as there are bytes never ends.  */
  lemma GoingForEver<M(!new)>(turn: Loop<M>, m: M, buf: seq<byte>, k: nat)
    requires Blind(turn) && Turns(turn, m, buf, 0, |buf|).Going?
    ensures Turns(turn, m, buf, 0, k).Going?
  {
    var i, j := GoingRepeats(turn, m, buf);
    var r := Turns(turn, m, buf, 0, i);
    TurnsAdd(turn, m, buf, 0, i, j - i);
    if k < i {
      StillGoing(turn, m, buf, 0, k, i);
    } else {
      TurnsAdd(turn, m, buf, 0, i, k - i);
      ReturnsForEver(turn, r.m, buf, r.pos, j - i, k - i);
    }
  }

  /** So one that ends after any number of turns has ended by then, in the same way.  */
  lemma EndsWithin<M(!new)>(turn: Loop<M>, m: M, buf: seq<byte>, k: nat)
    requires Blind(turn) && Turns(turn, m, buf, 0, k).Ended?
    ensures Turns(turn, m, buf, 0, |buf|) == Turns(turn, m, buf, 0, k)
  {
    if Turns(turn, m, buf, 0, |buf|).Going? { GoingForEver(turn, m, buf, k); }
    if k <= |buf| { TurnsAdd(turn, m, buf, 0, k, |buf| - k); } else { TurnsAdd(turn, m, buf, 0, |buf|, k - |buf|); }
  }

  // A loop does what another does as long as the other does not give up on a nested message.
  ghost predicate KeepsUp<M(!new)>(turn: Loop<M>, turn': Loop<M>, n: nat) {
    forall m, b, pos: nat :: |b| <= n && turn(m, b, pos) != Bad(Unfinished) ==> turn'(m, b, pos) == turn(m, b, pos)
  }

  lemma {:induction false} KeepsUpRuns<M(!new)>(turn: Loop<M>, turn': Loop<M>, m: M, buf: seq<byte>, pos: nat, k: nat)
    requires KeepsUp(turn, turn', |buf|) && Turns(turn, m, buf, pos, k) != Ended(Failed(Unfinished))
    ensures Turns(turn', m, buf, pos, k) == Turns(turn, m, buf, pos, k)
    decreases k
  {
    if pos < |buf| && k > 0 {
      var t := turn(m, buf[pos..], pos);
      assert turn'(m, buf[pos..], pos) == t;
      if t.More? && t.next >= 0 { KeepsUpRuns(turn, turn', t.m, buf, t.next, k - 1); }
    }
  }

  ghost predicate SwitchBlindAt<M>(sw: Switch<M>, m: M, m': M, num: nat, wt: nat, b: seq<byte>, pos: nat) {
    SameWay(sw(m, num, wt, b, pos), sw(m', num, wt, b, pos))
  }

  lemma LoopBlind<M(!new)>(sw: Switch<M>)
    requires forall m, m', num: nat, wt: nat, b, pos: nat :: SwitchBlindAt(sw, m, m', num, wt, b, pos)
    ensures Blind(LoopOf(sw))
  {
    forall m, m', b, pos: nat ensures SameWay(LoopOf(sw)(m, b, pos), LoopOf(sw)(m', b, pos)) {
      if ReadVarint(b).Got? {
        var tag, k := ReadVarint(b).v, ReadVarint(b).n;
        assert SwitchBlindAt(sw, m, m', tag / 8, tag % 8, b[k..], pos + k);
      }
    }
  }

  /************ A length that overflows only further on ************/

  // The turn panics, or leaves a position at which the next read does.
  predicate Panics<M>(t: Turn<M>) { if t.More? then t.next < 0 else t.error.Panic? }

  // A field the guard holds of only further on ran into the end of the data, and there makes `actual` panic.
  ghost predicate TipsAt<M>(actual: Loop<M>, turn: Loop<M>, guard: Guard, m: M, b: seq<byte>, pos: nat, pos': nat) {
    pos <= pos' && pos' + |b| < TWO63 && guard(b, pos') && !guard(b, pos) ==>
      turn(m, b, pos) == Bad(Eof) && Panics(actual(m, b, pos'))
  }

  ghost predicate Tips<M(!new)>(actual: Loop<M>, turn: Loop<M>, guard: Guard) {
    forall m, b, pos: nat, pos': nat :: TipsAt(actual, turn, guard, m, b, pos, pos')
  }

  // `actual` is `turn`, up to the fields of at most n bytes that the guard holds of.
  ghost predicate Alike<M(!new)>(actual: Loop<M>, turn: Loop<M>, guard: Guard, n: nat) {
    Regular(turn) && Guarded(turn, guard) && Follows(actual, turn, guard, n) && Tips(actual, turn, guard)
  }

  /** The rest of the data comes to such a field from pos' on and to none from pos on: from pos' on the loop ends in
      a panic, and decoding from pos on in an end of data.  */
  lemma {:induction false} TipsRuns<M(!new)>(actual: Loop<M>, turn: Loop<M>, guard: Guard, m: M, buf: seq<byte>,
                                             pos: nat, pos': nat, k: nat)
    requires Alike(actual, turn, guard, |buf|) && pos <= pos' <= |buf| < TWO63 && |buf| - pos' <= k
    requires Visits(turn, guard, m, buf[pos'..], pos') && !Visits(turn, guard, m, buf[pos'..], pos)
    ensures Turns(actual, m, buf, pos', k) == Ended(Failed(Panic))
    ensures Decode(turn, m, buf[pos'..], pos) == Failed(Eof)
    decreases |buf| - pos'
  {
    var b := buf[pos'..];
    if guard(b, pos') {
      assert TipsAt(actual, turn, guard, m, b, pos, pos');
    } else {
      assert MovableAt(turn, m, b, pos, pos') && FollowsAt(actual, turn, guard, |buf|, m, b, pos');
      assert GuardedAt(turn, guard, m, b, pos');
      var t, t' := turn(m, b, pos), turn(m, b, pos');
      assert b[t'.next - pos'..] == buf[t'.next..];
      TipsRuns(actual, turn, guard, t'.m, buf, t.next, t'.next, k - 1);
    }
  }

  // Through a first part that decodes.
  lemma {:induction false} TurnsThrough<M(!new)>(actual: Loop<M>, turn: Loop<M>, guard: Guard, m: M, m': M,
                                                 buf: seq<byte>, pos: nat, end: nat, k: nat) returns (j: nat)
    requires Alike(actual, turn, guard, |buf|) && pos <= end <= |buf| < TWO63 && |buf| - pos <= k
    requires Decode(turn, m, buf[pos..end], pos) == Decoded(m')
    ensures |buf| - end <= j && Turns(actual, m, buf, pos, k) == Turns(actual, m', buf, end, j)
    decreases end - pos
  {
    var a, b := buf[pos..end], buf[pos..];
    if pos == end {
      j := k;
    } else {
      DecodeTurn(turn, m, a, pos);
      assert a + buf[end..] == b;
      assert LocalAt(turn, m, a, pos, buf[end..]);
      assert GuardedAt(turn, guard, m, b, pos) && FollowsAt(actual, turn, guard, |buf|, m, b, pos);
      var t := turn(m, a, pos);
      assert a[t.next - pos..] == buf[t.next..end];
      j := TurnsThrough(actual, turn, guard, t.m, m', buf, t.next, end, k - 1);
    }
  }

  lemma TwoParts<M(!new)>(turn: Loop<M>, m: M, m': M, a: seq<byte>, u: seq<byte>)
    requires Regular(turn) && Decode(turn, m, a, 0) == Decoded(m') && Ignores(turn, u) && |a| + |u| < TWO63
    ensures Decode(turn, m, a + u, 0) == Decoded(m')
  {
    BehindJunk(turn, m, m', a, u, [], Decoded(m'));
    assert u + [] == u;
  }

  /** Data that comes to no overflowing length, and with skipped fields put at a field boundary does: then it ends in
      an end of data, and with the skipped fields in a panic.  */
  lemma InsertionTips<M(!new)>(actual: Loop<M>, turn: Loop<M>, guard: Guard, m: M, m': M, a: seq<byte>, u: seq<byte>,
                               b: seq<byte>, x: seq<byte>, y: seq<byte>, k: nat)
    requires Alike(actual, turn, guard, |y|) && Decode(turn, m, a, 0) == Decoded(m') && Ignores(turn, u)
    requires x == a + b && y == a + (u + b) && |y| < TWO63 && |y| <= k
    requires !Visits(turn, guard, m, x, 0) && Visits(turn, guard, m, y, 0)
    ensures Decode(turn, m, x, 0) == Failed(Eof) && Turns(actual, m, y, 0, k) == Ended(Failed(Panic))
  {
    var r, r', end := Decode(turn, m', b, |a|), Decode(turn, m', b, |a| + |u|), |a| + |u|;
    BehindPart(turn, m, m', a, b, r);
    BehindJunk(turn, m, m', a, u, b, r');
    WildIffVisits(turn, guard, m, x, 0);
    WildIffVisits(turn, guard, m, y, 0);
    WildIffVisits(turn, guard, m', b, |a|);
    WildIffVisits(turn, guard, m', b, end);
    TwoParts(turn, m, m', a, u);
    assert y[0..end] == a + u && y[end..] == b;
    var j := TurnsThrough(actual, turn, guard, m, m', y, 0, end, k);
    TipsRuns(actual, turn, guard, m', y, |a|, end, j);
  }

  ghost predicate SwitchTipsAt<M>(actual: Switch<M>, sw: Switch<M>, sg: SwitchGuard, m: M, num: nat, wt: nat,
                                  b: seq<byte>, pos: nat, pos': nat, lead: nat) {
    pos <= pos' && pos' + |b| < TWO63 && 0 < lead <= pos && sg(num, wt, b, pos', lead) && !sg(num, wt, b, pos, lead) ==>
      sw(m, num, wt, b, pos) == Bad(Eof) && Panics(actual(m, num, wt, b, pos'))
  }

  lemma LoopTips<M(!new)>(actual: Switch<M>, sw: Switch<M>, sg: SwitchGuard)
    requires forall m, num: nat, wt: nat, b, pos: nat, pos': nat, lead: nat ::
               SwitchTipsAt(actual, sw, sg, m, num, wt, b, pos, pos', lead)
    ensures Tips(LoopOf(actual), LoopOf(sw), GuardOf(sg))
  {
    forall m, b, pos: nat, pos': nat ensures TipsAt(LoopOf(actual), LoopOf(sw), GuardOf(sg), m, b, pos, pos') {
      if ReadVarint(b).Got? {
        var tag, k := ReadVarint(b).v, ReadVarint(b).n;
        assert SwitchTipsAt(actual, sw, sg, m, tag / 8, tag % 8, b[k..], pos + k, pos' + k, k);
      }
    }
  }

  /** A text or a skipped field whose length overflows only further on is longer than the data.  */
  lemma ReadsTip<M>(m: M, wt: nat, b: seq<byte>, pos: nat, pos': nat, lead: nat)
    requires pos <= pos' && pos' + |b| < TWO63
    ensures TextOverflows(b, pos') && !TextOverflows(b, pos) ==>
              BytesAt(b, pos) == NoBytes(Eof) && BytesAt(b, pos') == NoBytes(Panic)
    ensures SkipOverflows(wt, b, pos', lead) && !SkipOverflows(wt, b, pos, lead) ==>
              SkipTurn(m, wt, b, pos) == Bad(Eof) && Panics(SkipTurn(m, wt, b, pos'))
  {}
}
