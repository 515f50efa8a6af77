/** Marshal and Unmarshal of go/internal/testpb/messages.go as they run, on an Encoder and a Decoder.  */
module MessageCodec {
  import opened Framing
  import opened Wire
  import opened DecodeLoop
  import opened Switches
  import M = Messages

  lemma {:induction false} JoinMore(fs: seq<seq<byte>>, f: seq<byte>)
    ensures Join(fs + [f]) == Join(fs) + f
    decreases |fs|
  {
    if fs == [] {
      assert [f][1..] == [] && [] + [f] == [f];
    } else {
      JoinMore(fs[1..], f);
      assert (fs + [f])[1..] == fs[1..] + [f];
      Associates(fs[0], Join(fs[1..]), f);
    }
  }

  lemma JoinTake(fs: seq<seq<byte>>, i: nat)
    requires i < |fs|
    ensures Join(fs[..i + 1]) == Join(fs[..i]) + fs[i]
  {
    JoinMore(fs[..i], fs[i]);
    assert fs[..i + 1] == fs[..i] + [fs[i]];
  }

  method EncodeField(e: Encoder, k: M.Kind, num: nat, x: M.Value)
    requires num < 16 && M.Fits(k, x)
    modifies e
    ensures e.buf == old(e.buf) + M.Field(k, num, x)
  {
    match k
    case Text => e.EncodeBytes(num, x.s);
    case Uint64 => e.EncodeUint64(num, x.v);
    case Uint32 => e.EncodeUint64(num, x.v);
    case Bool => e.EncodeUint64(num, x.v);
    case Double => e.EncodeDouble(num, x.v);
  }

  method Marshal(ks: M.Schema, m: M.Message) returns (data: seq<byte>)
    requires M.Typed(ks, m)
    ensures data == M.Marshal(ks, m)
  {
    ghost var fs := M.Fields(ks, m);
    var e := new Encoder();
    var i := 0;
    while i < |m|
      invariant 0 <= i <= |m| && e.buf == Join(fs[..i])
    {
      JoinTake(fs, i);
      EncodeField(e, ks[i], i + 1, m[i]);
      i := i + 1;
    }
    assert fs[..i] == fs;
    return e.buf;
  }

  method MarshalHistory(h: M.History) returns (data: seq<byte>)
    requires M.TypedHistory(h)
    ensures data == M.MarshalHistory(h)
  {
    ghost var fs := M.HistoryFields(h);
    var e := new Encoder();
    var i := 0;
    while i < |h.messages|
      invariant 0 <= i <= |h.messages| && e.buf == Join(fs[..i])
    {
      JoinTake(fs, i);
      var chat := Marshal(M.CHAT_MESSAGE, h.messages[i]);
      e.EncodeBytes(1, chat);
      i := i + 1;
    }
    JoinTake(fs, i);
    e.EncodeUint64(2, h.total);
    assert fs[..i + 1] == fs;
    return e.buf;
  }

  // The case of a known field.
  method ReadValue(d: Decoder, k: M.Kind) returns (r: M.Reading)
    requires d.Valid()
    modifies d
    ensures d.Valid() && r == M.ReadValue(k, old(d.Rest()), old(d.pos)) && (r.Read? ==> d.pos == old(d.pos) + r.n)
  {
    match k
    case Text => {
      var t := d.ReadBytes();
      return if t.NoBytes? then M.NotRead(t.error) else M.Read(M.Str(t.data), t.n);
    }
    case Double => {
      var v := d.ReadFixed64();
      return if v.NoVarint? then M.NotRead(v.error) else M.Read(M.Num(v.v), v.n);
    }
    case Uint64 => {
      var v := d.ConsumeVarint();
      return if v.NoVarint? then M.NotRead(v.error) else M.Read(M.Num(v.v), v.n);
    }
    case Uint32 => {
      var v := d.ConsumeVarint();
      return if v.NoVarint? then M.NotRead(v.error) else M.Read(M.Num(v.v % TWO32), v.n);
    }
    case Bool => {
      var v := d.ConsumeVarint();
      return if v.NoVarint? then M.NotRead(v.error) else M.Read(M.Num(if v.v != 0 then 1 else 0), v.n);
    }
  }

  // One turn of a flat message's loop: the message after it, with the decoder moved, or the error.
  method FlatTurn(d: Decoder, ks: M.Schema, m: M.Message) returns (t: Turn<M.Message>)
    requires d.Valid()
    modifies d
    ensures t == OneTurn(M.FlatSwitch(ks), m, old(d.Rest()), old(d.pos)) && (t.More? ==> d.pos == t.next)
    ensures t.More? ==> d.pos <= |d.buf|
  {
    ghost var b := d.Rest();
    var tag := d.ConsumeVarint();
    if tag.NoVarint? { return Bad(tag.error); }
    var num, wt := tag.v / 8, tag.v % 8;
    assert d.Rest() == b[tag.n..];
    t := FlatCase(d, ks, m, num, wt);
  }

  method FlatCase(d: Decoder, ks: M.Schema, m: M.Message, num: nat, wt: nat) returns (t: Turn<M.Message>)
    requires d.Valid()
    modifies d
    ensures t == M.FlatCase(ks, m, num, wt, old(d.Rest()), old(d.pos)) && (t.More? ==> d.pos == t.next)
    ensures t.More? ==> d.pos <= |d.buf|
  {
    if 1 <= num <= |ks| {
      var r := ReadValue(d, ks[num - 1]);
      return if r.NotRead? then Bad(r.error) else More(M.Put(m, num - 1, r.x), d.pos);
    } else {
      var s := d.Skip(wt);
      return if s.NoSkip? then Bad(s.error) else More(m, d.pos);
    }
  }

  /** The Unmarshal loop of a flat message, for up to `limit` turns; it reads on from wherever a turn leaves the
      position.  Coming to no length that overflows it ends, given a turn for each byte.  */
  method Unmarshal(ks: M.Schema, data: seq<byte>, limit: nat) returns (r: Run<M.Message>)
    requires |data| < TWO63
    ensures r == Turns(LoopOf(M.FlatSwitch(ks)), M.Zero(ks), data, 0, limit)
    ensures M.LengthsFit(ks, data) && |data| <= limit ==> r == Ended(M.Unmarshal(ks, data))
  {
    r := FlatLoop(ks, data, M.Zero(ks), limit, LoopOf(M.FlatSwitch(ks)));
    if M.LengthsFit(ks, data) && |data| <= limit { M.Terminates(ks, data, limit); }
  }

  method FlatLoop(ks: M.Schema, data: seq<byte>, zero: M.Message, limit: nat, ghost loop: Loop<M.Message>)
    returns (r: Run<M.Message>)
    requires |data| < TWO63 && loop == LoopOf(M.FlatSwitch(ks))
    ensures r == Turns(loop, zero, data, 0, limit)
  {
    var d := new Decoder(data);
    var m, k := zero, limit;
    while d.pos < |data|
      invariant d.Valid() && d.buf == data && Turns(loop, m, data, d.pos, k) == Turns(loop, zero, data, 0, limit)
      decreases k
    {
      if k == 0 { return Going(m, d.pos); }
      ghost var b, start := d.Rest(), d.pos;
      var t := FlatTurn(d, ks, m);
      assert t == loop(m, b, start);
      if t.Bad? { return Ended(Failed(t.error)); }
      if d.pos < 0 { return Ended(Failed(Panic)); }
      m, k := t.m, k - 1;
    }
    return Ended(Decoded(m));
  }

  method HistoryTurn(d: Decoder, h: M.History, limit: nat) returns (t: Turn<M.History>)
    requires d.Valid()
    modifies d
    ensures t == OneTurn(M.HistorySwitchWith(M.ChatWithin(limit)), h, old(d.Rest()), old(d.pos))
    ensures t.More? ==> d.pos == t.next
    ensures t.More? ==> d.pos <= |d.buf|
  {
    ghost var b := d.Rest();
    var tag := d.ConsumeVarint();
    if tag.NoVarint? { return Bad(tag.error); }
    var num, wt := tag.v / 8, tag.v % 8;
    assert d.Rest() == b[tag.n..];
    if num == 1 {
      var chat := d.ReadBytes();
      if chat.NoBytes? { return Bad(chat.error); }
      var c := Unmarshal(M.CHAT_MESSAGE, chat.data, limit);
      assert M.ChatWithin(limit)(chat.data) == if c.Ended? then c.r else Failed(Unfinished);
      if c.Going? { return Bad(Unfinished); }
      return if c.r.Failed? then Bad(c.r.error) else More(h.(messages := h.messages + [c.r.m]), d.pos);
    } else if num == 2 {
      var v := d.ConsumeVarint();
      return if v.NoVarint? then Bad(v.error) else More(h.(total := v.v % TWO32), d.pos);
    } else {
      var s := d.Skip(wt);
      return if s.NoSkip? then Bad(s.error) else More(h, d.pos);
    }
  }

  /** The same for a HistoryResponse, each nested Unmarshal having `limit` turns of its own.  */
  method UnmarshalHistory(data: seq<byte>, limit: nat) returns (r: Run<M.History>)
    requires |data| < TWO63
    ensures r == Turns(LoopOf(M.HistorySwitchWith(M.ChatWithin(limit))), M.NO_HISTORY, data, 0, limit)
    ensures M.HistoryLengthsFit(data) && |data| <= limit ==> r == Ended(M.UnmarshalHistory(data))
  {
    r := HistoryLoop(data, M.NO_HISTORY, limit, LoopOf(M.HistorySwitchWith(M.ChatWithin(limit))));
    if M.HistoryLengthsFit(data) && |data| <= limit { M.HistoryTerminates(data, limit); }
  }

  method HistoryLoop(data: seq<byte>, zero: M.History, limit: nat, ghost loop: Loop<M.History>)
    returns (r: Run<M.History>)
    requires |data| < TWO63 && loop == LoopOf(M.HistorySwitchWith(M.ChatWithin(limit)))
    ensures r == Turns(loop, zero, data, 0, limit)
  {
    var d := new Decoder(data);
    var h, k := zero, limit;
    while d.pos < |data|
      invariant d.Valid() && d.buf == data && Turns(loop, h, data, d.pos, k) == Turns(loop, zero, data, 0, limit)
      decreases k
    {
      if k == 0 { return Going(h, d.pos); }
      ghost var b, start := d.Rest(), d.pos;
      var t := HistoryTurn(d, h, limit);
      assert t == loop(h, b, start);
      if t.Bad? { return Ended(Failed(t.error)); }
      if d.pos < 0 { return Ended(Failed(Panic)); }
      h, k := t.m, k - 1;
    }
    return Ended(Decoded(h));
  }

  /** What UnmarshalHistory returns for the bytes MarshalHistory made.  */
  method Exchange(h: M.History) returns (r: Run<M.History>)
    requires M.TypedHistory(h) && |M.MarshalHistory(h)| < TWO63
    ensures r == Ended(Decoded(M.History(M.Kept(h.messages), h.total)))
  {
    var data := MarshalHistory(h);
    M.HistoryLoopRoundTrip(h, |data|);
    r := UnmarshalHistory(data, |data|);
  }
}
