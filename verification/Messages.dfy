/** The ten hand-written messages of go/internal/testpb/messages.go.  Nine of them are flat: their fields are
    numbered from 1 and the code of Marshal and Unmarshal is fixed by the fields' Go types, so a list of those
    types stands for the message type and a list of values for a message.  HistoryResponse nests ChatMessages.  */
module Messages {
  import opened Framing
  import opened Wire
  import opened DecodeLoop
  import opened Endings
  import opened Switches

  datatype Kind = Text | Uint64 | Uint32 | Bool | Double
  type Schema = ks: seq<Kind> | |ks| < 16 witness []

  const HELLO_REQUEST: Schema := [Text]                    // Name
  const HELLO_REPLY: Schema := [Text]                      // Message
  const CALC_REQUEST: Schema := [Double, Double]           // A, B
  const CALC_RESPONSE: Schema := [Double, Text]            // Result, Error
  const CHAT_MESSAGE: Schema := [Text, Text, Uint64]       // Sender, Text, Timestamp
  const SEND_RESULT: Schema := [Bool, Text]                // Success, MessageID
  const HISTORY_REQUEST: Schema := [Uint32]                // Limit
  const PING_REQUEST: Schema := [Uint64]                   // SentAt
  const PONG_RESPONSE: Schema := [Uint64, Uint64]          // SentAt, ReceivedAt

  // A string's bytes; or a number, a bool as 0 or 1, a double's 64 bits.
  datatype Value = Str(s: seq<byte>) | Num(v: u64)
  type Message = seq<Value>

  predicate Fits(k: Kind, x: Value) {
    match k
    case Text => x.Str?
    case Uint64 => x.Num?
    case Uint32 => x.Num? && x.v < TWO32
    case Bool => x.Num? && x.v < 2
    case Double => x.Num?
  }

  predicate Typed(ks: Schema, m: Message) { |m| == |ks| && forall i :: 0 <= i < |m| ==> Fits(ks[i], m[i]) }

  function Default(k: Kind): (x: Value)
    ensures Fits(k, x)
  {
    if k.Text? then Str([]) else Num(0)
  }

  // The zero value a caller unmarshals into.
  function Zero(ks: Schema): (m: Message)
    ensures Typed(ks, m)
  {
    seq(|ks|, i requires 0 <= i < |ks| => Default(ks[i]))
  }

  /************ Marshal ************/

  function Field(k: Kind, num: nat, x: Value): seq<byte>
    requires num < 16 && Fits(k, x)
  {
    match k
    case Text => BytesField(num, x.s)
    case Uint64 => UintField(num, x.v)
    case Uint32 => UintField(num, x.v)
    case Bool => UintField(num, x.v)
    case Double => DoubleField(num, x.v)
  }

  function Fields(ks: Schema, m: Message): seq<seq<byte>>
    requires Typed(ks, m)
  {
    seq(|m|, i requires 0 <= i < |m| => Field(ks[i], i + 1, m[i]))
  }

  function Marshal(ks: Schema, m: Message): seq<byte>
    requires Typed(ks, m)
  {
    Join(Fields(ks, m))
  }

  /** The bytes of a HelloRequest, and of a CalcRequest of two numbers that are not zero: a tag, the length of a text,
      and the value.  */
  lemma KnownBytes(name: seq<byte>, a: u64, b: u64)
    requires 0 < |name| < 128 && !IsZeroDouble(a) && !IsZeroDouble(b)
    ensures Marshal(HELLO_REQUEST, [Str(name)]) == [0x0A, |name|] + name
    ensures Marshal(CALC_REQUEST, [Num(a), Num(b)]) == [0x09] + Le(a, 8) + [0x11] + Le(b, 8)
  {
    var hello, sum := Fields(HELLO_REQUEST, [Str(name)]), Fields(CALC_REQUEST, [Num(a), Num(b)]);
    assert hello == [BytesField(1, name)] && sum == [DoubleField(1, a), DoubleField(2, b)];
    assert Join(hello) == hello[0] + Join(hello[1..]);
    assert Join(sum) == sum[0] + Join(sum[1..]) && Join(sum[1..]) == sum[1] + Join(sum[2..]);
  }

  datatype History = History(messages: seq<Message>, total: u32)

  predicate TypedHistory(h: History) { forall i :: 0 <= i < |h.messages| ==> Typed(CHAT_MESSAGE, h.messages[i]) }

  function HistoryFields(h: History): seq<seq<byte>>
    requires TypedHistory(h)
  {
    seq(|h.messages| + 1, i requires 0 <= i <= |h.messages| =>
      if i < |h.messages| then BytesField(1, Marshal(CHAT_MESSAGE, h.messages[i])) else UintField(2, h.total))
  }

  function MarshalHistory(h: History): seq<byte>
    requires TypedHistory(h)
  {
    Join(HistoryFields(h))
  }

  /************ Unmarshal ************/

  datatype Reading = Read(x: Value, n: nat) | NotRead(error: Error)

  // What the case of a known field does; it never looks at the wire type.
  function ReadValue(k: Kind, b: seq<byte>, pos: nat): (r: Reading)
    ensures r.Read? ==> 0 < r.n <= |b| && Fits(k, r.x)
  {
    match k
    case Text => var r := BytesAt(b, pos); if r.NoBytes? then NotRead(r.error) else Read(Str(r.data), r.n)
    case Double => if |b| < 8 then NotRead(Eof) else Read(Num(Fixed64(b)), 8)
    case Uint64 => var r := ReadVarint(b); if r.NoVarint? then NotRead(r.error) else Read(Num(r.v), r.n)
    case Uint32 => var r := ReadVarint(b); if r.NoVarint? then NotRead(r.error) else Read(Num(r.v % TWO32), r.n)
    case Bool => var r := ReadVarint(b); if r.NoVarint? then NotRead(r.error)
      else Read(Num(if r.v != 0 then 1 else 0), r.n)
  }

  function Put(m: Message, i: nat, x: Value): Message { if i < |m| then m[i := x] else m }

  // The switch of a flat message.
  function FlatCase(ks: Schema, m: Message, num: nat, wt: nat, b: seq<byte>, pos: nat): Turn<Message> {
    if 1 <= num <= |ks| then
      var r := ReadValue(ks[num - 1], b, pos);
      if r.NotRead? then Bad(r.error) else More(Put(m, num - 1, r.x), pos + r.n)
    else SkipTurn(m, wt, b, pos)
  }

  function FlatSwitch(ks: Schema): Switch<Message> {
    (m: Message, num: nat, wt: nat, b: seq<byte>, pos: nat) => FlatCase(ks, m, num, wt, b, pos)
  }

  lemma ReadValueLocal(k: Kind, b: seq<byte>, pos: nat, c: seq<byte>)
    requires ReadValue(k, b, pos).Read?
    ensures ReadValue(k, b + c, pos) == ReadValue(k, b, pos)
  {
    ReadsLocal(0, b, pos, c);
  }

  lemma FlatLocal(ks: Schema, m: Message, num: nat, wt: nat, b: seq<byte>, pos: nat, c: seq<byte>)
    ensures SwitchLocal(FlatSwitch(ks), m, num, wt, b, pos, c)
  {
    if 1 <= num <= |ks| {
      if ReadValue(ks[num - 1], b, pos).Read? { ReadValueLocal(ks[num - 1], b, pos, c); }
    } else {
      ReadsLocal(wt, b, pos, c);
    }
  }

  lemma FlatMovable(ks: Schema, m: Message, num: nat, wt: nat, b: seq<byte>, pos: nat, pos': nat, lead: nat)
    ensures SwitchMovable(FlatSwitch(ks), m, num, wt, b, pos, pos', lead)
  {
    if pos + |b| < TWO63 && pos' + |b| < TWO63 && lead <= pos && lead <= pos' {
      if 1 <= num <= |ks| { BytesMovable(b, pos, pos'); } else { SkipMovable(wt, b, pos, pos', lead); }
    }
  }

  lemma FlatWellMade(ks: Schema)
    ensures WellMade(FlatSwitch(ks)) && forall num: nat :: num == 0 || num > |ks| ==> Unknown(FlatSwitch(ks), num)
  {
    var sw := FlatSwitch(ks);
    forall m, num: nat, wt: nat, b, pos: nat, c
      ensures SwitchLocal(sw, m, num, wt, b, pos, c)
    {
      FlatLocal(ks, m, num, wt, b, pos, c);
    }
    forall m, num: nat, wt: nat, b, pos: nat, pos': nat, lead: nat
      ensures SwitchMovable(sw, m, num, wt, b, pos, pos', lead)
    {
      FlatMovable(ks, m, num, wt, b, pos, pos', lead);
    }
  }

  // The fields whose turn panics or moves the position back.
  predicate FlatOverflows(ks: Schema, num: nat, wt: nat, b: seq<byte>, pos: nat, lead: nat) {
    if 1 <= num <= |ks| then ks[num - 1].Text? && TextOverflows(b, pos) else SkipOverflows(wt, b, pos, lead)
  }

  function FlatGuard(ks: Schema): SwitchGuard {
    (num: nat, wt: nat, b: seq<byte>, pos: nat, lead: nat) => FlatOverflows(ks, num, wt, b, pos, lead)
  }

  lemma FlatGuardedAt(ks: Schema, m: Message, num: nat, wt: nat, b: seq<byte>, pos: nat, lead: nat)
    ensures SwitchGuardedAt(FlatSwitch(ks), FlatGuard(ks), m, num, wt, b, pos, lead)
  {
    if pos + |b| < TWO63 && 0 < lead <= pos {
      VarintNotWild(b, 0, 0);
      ReadsWildIff(m, wt, b, pos, lead);
    }
  }

  lemma FlatRisesAt(ks: Schema, num: nat, wt: nat, b: seq<byte>, pos: nat, pos': nat, lead: nat)
    ensures SwitchRisesAt(FlatGuard(ks), num, wt, b, pos, pos', lead)
  {
    assert FlatGuard(ks)(num, wt, b, pos, lead) == FlatOverflows(ks, num, wt, b, pos, lead);
  }

  /** A field of a flat message panics or moves back exactly when it is a text or a skipped field whose length
      overflows.  */
  lemma FlatGuarded(ks: Schema)
    ensures Guarded(LoopOf(FlatSwitch(ks)), GuardOf(FlatGuard(ks)))
  {
    var sw, sg := FlatSwitch(ks), FlatGuard(ks);
    forall m, num: nat, wt: nat, b, pos: nat, lead: nat ensures SwitchGuardedAt(sw, sg, m, num, wt, b, pos, lead) {
      FlatGuardedAt(ks, m, num, wt, b, pos, lead);
    }
    forall num: nat, wt: nat, b, pos: nat, pos': nat, lead: nat ensures SwitchRisesAt(sg, num, wt, b, pos, pos', lead) {
      FlatRisesAt(ks, num, wt, b, pos, pos', lead);
    }
    LoopGuarded(sw, sg);
  }

  // Unmarshal of a flat message into a zero value.
  function Unmarshal(ks: Schema, data: seq<byte>): Result<Message> {
    FlatWellMade(ks);
    LoopBounded(FlatSwitch(ks));
    Decode(LoopOf(FlatSwitch(ks)), Zero(ks), data, 0)
  }

  /************ Round trips ************/

  // What comes back: -0.0 as +0.0, everything else as it was.
  function Norm(k: Kind, x: Value): (r: Value)
    requires Fits(k, x)
    ensures Fits(k, r)
  {
    if k.Double? && IsZeroDouble(x.v) then Num(0) else x
  }

  function Normal(ks: Schema, m: Message): (r: Message)
    requires Typed(ks, m)
    ensures Typed(ks, r)
  {
    seq(|m|, i requires 0 <= i < |m| => Norm(ks[i], m[i]))
  }

  lemma TextTaken(ks: Schema, m: Message, i: nat, t: seq<byte>)
    requires i < |ks| == |m| && ks[i].Text?
    ensures TakesText(FlatSwitch(ks), m, i + 1, t, m[i := Str(t)])
  {}

  lemma NumberTaken(ks: Schema, m: Message, i: nat, x: Value)
    requires i < |ks| == |m| && (ks[i].Uint64? || ks[i].Uint32? || ks[i].Bool?) && Fits(ks[i], x)
    ensures TakesNumber(FlatSwitch(ks), m, i + 1, x.v, m[i := x])
  {}

  lemma DoubleTaken(ks: Schema, m: Message, i: nat, v: u64)
    requires i < |ks| == |m| && ks[i].Double?
    ensures TakesDouble(FlatSwitch(ks), m, i + 1, v, m[i := Num(v)])
  {}

  // Reading one written field into a message where it still has its default.
  lemma ReadsOne(ks: Schema, m: Message, m': Message, i: nat, x: Value, f: seq<byte>, rest: seq<byte>, pos: nat)
    requires Bounded(LoopOf(FlatSwitch(ks))) && i < |ks| == |m| && Fits(ks[i], x) && m[i] == Default(ks[i])
    requires f == Field(ks[i], i + 1, x) && pos + |f| < TWO63 && m' == m[i := Norm(ks[i], x)]
    ensures Decode(LoopOf(FlatSwitch(ks)), m, f + rest, pos) == Decode(LoopOf(FlatSwitch(ks)), m', rest, pos + |f|)
  {
    var sw := FlatSwitch(ks);
    assert m[i := m[i]] == m;
    match ks[i]
    case Text =>
      TextTaken(ks, m, i, x.s);
      ReadsText(sw, m, m', i + 1, x.s, f, rest, pos);
    case Double =>
      DoubleTaken(ks, m, i, x.v);
      ReadsDouble(sw, m, m', i + 1, x.v, f, rest, pos);
    case Uint64 =>
      NumberTaken(ks, m, i, x);
      ReadsNumber(sw, m, m', i + 1, x.v, f, rest, pos);
    case Uint32 =>
      NumberTaken(ks, m, i, x);
      ReadsNumber(sw, m, m', i + 1, x.v, f, rest, pos);
    case Bool =>
      NumberTaken(ks, m, i, x);
      ReadsNumber(sw, m, m', i + 1, x.v, f, rest, pos);
  }

  // The first i fields read, the others still at their defaults.
  function Partly(ks: Schema, m: Message, i: nat): Message
    requires Typed(ks, m) && i <= |m|
  {
    Normal(ks, m)[..i] + Zero(ks)[i..]
  }

  lemma OneConsumed(ks: Schema, m: Message, m': Message, i: nat, x: Value, f: seq<byte>)
    requires Bounded(LoopOf(FlatSwitch(ks))) && i < |ks| == |m| && Fits(ks[i], x) && m[i] == Default(ks[i])
    requires f == Field(ks[i], i + 1, x) && m' == m[i := Norm(ks[i], x)]
    ensures Consumes(LoopOf(FlatSwitch(ks)), m, m', f)
  {
    forall rest, pos: nat | pos + |f| < TWO63
      ensures Decode(LoopOf(FlatSwitch(ks)), m, f + rest, pos) == Decode(LoopOf(FlatSwitch(ks)), m', rest, pos + |f|)
    {
      ReadsOne(ks, m, m', i, x, f, rest, pos);
    }
  }

  lemma ConsumesField(ks: Schema, m: Message, i: nat)
    requires Bounded(LoopOf(FlatSwitch(ks))) && Typed(ks, m) && i < |m|
    ensures Consumes(LoopOf(FlatSwitch(ks)), Partly(ks, m, i), Partly(ks, m, i + 1), Fields(ks, m)[i])
  {
    assert Partly(ks, m, i + 1) == Partly(ks, m, i)[i := Norm(ks[i], m[i])];
    OneConsumed(ks, Partly(ks, m, i), Partly(ks, m, i + 1), i, m[i], Fields(ks, m)[i]);
  }

  function Partials(ks: Schema, m: Message): seq<Message>
    requires Typed(ks, m)
  {
    seq(|m| + 1, i requires 0 <= i <= |m| => Partly(ks, m, i))
  }

  lemma FieldByField(ks: Schema, m: Message)
    requires Bounded(LoopOf(FlatSwitch(ks))) && Typed(ks, m)
    ensures var ms := Partials(ks, m);
      && ms[0] == Zero(ks) && ms[|m|] == Normal(ks, m)
      && forall i :: 0 <= i < |m| ==> Consumes(LoopOf(FlatSwitch(ks)), ms[i], ms[i + 1], Fields(ks, m)[i])
  {
    var ms := Partials(ks, m);
    forall i | 0 <= i < |m| ensures Consumes(LoopOf(FlatSwitch(ks)), ms[i], ms[i + 1], Fields(ks, m)[i]) {
      ConsumesField(ks, m, i);
    }
  }

  /** Unmarshal of Marshal gives a flat message back, with -0.0 read as +0.0.  */
  lemma RoundTrip(ks: Schema, m: Message)
    requires Typed(ks, m) && |Marshal(ks, m)| < TWO63
    ensures Unmarshal(ks, Marshal(ks, m)) == Decoded(Normal(ks, m))
  {
    FlatWellMade(ks);
    LoopBounded(FlatSwitch(ks));
    FieldByField(ks, m);
    ConsumesAll(LoopOf(FlatSwitch(ks)), Partials(ks, m), Fields(ks, m), 0);
  }

  /** Hence exactly as it was if and only if no field is -0.0.  */
  lemma RoundTripIff(ks: Schema, m: Message)
    requires Typed(ks, m) && |Marshal(ks, m)| < TWO63
    ensures Unmarshal(ks, Marshal(ks, m)) == Decoded(m) <==> forall i :: 0 <= i < |m| ==>
        !(ks[i].Double? && m[i].v == TWO63)
  {
    RoundTrip(ks, m);
    if forall i :: 0 <= i < |m| ==> !(ks[i].Double? && m[i].v == TWO63) {
      assert Normal(ks, m) == m;
    } else {
      var i :| 0 <= i < |m| && ks[i].Double? && m[i].v == TWO63;
      assert Normal(ks, m)[i] != m[i];
    }
  }

  /************ HistoryResponse ************/

  // The switch of a HistoryResponse, given what the nested Unmarshal makes of its bytes.
  function HistoryCase(inner: seq<byte> -> Result<Message>, h: History, num: nat, wt: nat, b: seq<byte>,
                       pos: nat): Turn<History> {
    if num == 1 then
      var r := BytesAt(b, pos);
      if r.NoBytes? then Bad(r.error)
      else
        match inner(r.data)
        case Failed(e) => Bad(e)
        case Decoded(c) => More(h.(messages := h.messages + [c]), pos + r.n)
    else if num == 2 then
      var r := ReadVarint(b);
      if r.NoVarint? then Bad(r.error) else More(h.(total := r.v % TWO32), pos + r.n)
    else SkipTurn(h, wt, b, pos)
  }

  const NO_HISTORY := History([], 0)

  function HistorySwitchWith(inner: seq<byte> -> Result<Message>): Switch<History> {
    (h: History, num: nat, wt: nat, b: seq<byte>, pos: nat) => HistoryCase(inner, h, num, wt, b, pos)
  }

  function ChatDecoder(): seq<byte> -> Result<Message> { (data: seq<byte>) => Unmarshal(CHAT_MESSAGE, data) }

  function HistorySwitch(): Switch<History> { HistorySwitchWith(ChatDecoder()) }

  lemma HistoryLocal(h: History, num: nat, wt: nat, b: seq<byte>, pos: nat, c: seq<byte>)
    ensures SwitchLocal(HistorySwitch(), h, num, wt, b, pos, c)
  {
    ReadsLocal(wt, b, pos, c);
  }

  lemma HistoryMovable(h: History, num: nat, wt: nat, b: seq<byte>, pos: nat, pos': nat, lead: nat)
    ensures SwitchMovable(HistorySwitch(), h, num, wt, b, pos, pos', lead)
  {
    if pos + |b| < TWO63 && pos' + |b| < TWO63 && lead <= pos && lead <= pos' {
      if num == 1 {
        BytesMovable(b, pos, pos');
      } else if num != 2 {
        SkipMovable(wt, b, pos, pos', lead);
      }
    }
  }

  lemma HistoryWellMade()
    ensures WellMade(HistorySwitch()) && forall num: nat :: num == 0 || num > 2 ==> Unknown(HistorySwitch(), num)
  {
    var sw := HistorySwitch();
    forall m, num: nat, wt: nat, b, pos: nat, c
      ensures SwitchLocal(sw, m, num, wt, b, pos, c)
    {
      HistoryLocal(m, num, wt, b, pos, c);
    }
    forall m, num: nat, wt: nat, b, pos: nat, pos': nat, lead: nat
      ensures SwitchMovable(sw, m, num, wt, b, pos, pos', lead)
    {
      HistoryMovable(m, num, wt, b, pos, pos', lead);
    }
  }

  function UnmarshalHistory(data: seq<byte>): Result<History> {
    HistoryWellMade();
    LoopBounded(HistorySwitch());
    Decode(LoopOf(HistorySwitch()), NO_HISTORY, data, 0)
  }

  // The messages that are not all default.
  function Kept(cs: seq<Message>): seq<Message> {
    if cs == [] then []
    else
      var n := |cs| - 1;
      if cs[n] == Zero(CHAT_MESSAGE) then Kept(cs[..n]) else Kept(cs[..n]) + [cs[n]]
  }

  lemma ChatRoundTrip(c: Message)
    requires Typed(CHAT_MESSAGE, c) && |Marshal(CHAT_MESSAGE, c)| < TWO63
    ensures Unmarshal(CHAT_MESSAGE, Marshal(CHAT_MESSAGE, c)) == Decoded(c)
  {
    RoundTripIff(CHAT_MESSAGE, c);
  }

  // Marshal writes nothing exactly for the all-default message.
  lemma EmptyIffDefault(c: Message)
    requires Typed(CHAT_MESSAGE, c)
    ensures Marshal(CHAT_MESSAGE, c) == [] <==> c == Zero(CHAT_MESSAGE)
  {
    var fs := Fields(CHAT_MESSAGE, c);
    assert fs == [BytesField(1, c[0].s), BytesField(2, c[1].s), UintField(3, c[2].v)];
    assert Join(fs) == fs[0] + Join(fs[1..]) && Join(fs[1..]) == fs[1] + Join(fs[2..])
      && Join(fs[2..]) == fs[2] + Join(fs[3..]);
    if Marshal(CHAT_MESSAGE, c) == [] {
      assert c == Zero(CHAT_MESSAGE);
    }
  }

  lemma NestedTaken(h: History, c: Message, data: seq<byte>)
    requires Unmarshal(CHAT_MESSAGE, data) == Decoded(c)
    ensures TakesText(HistorySwitch(), h, 1, data, h.(messages := h.messages + [c]))
  {}

  // Reading one written chat message adds it, unless it is all default.
  lemma ReadsChat(h: History, h': History, c: Message, f: seq<byte>, rest: seq<byte>, pos: nat)
    requires Bounded(LoopOf(HistorySwitch())) && Typed(CHAT_MESSAGE, c) && f == BytesField(1, Marshal(CHAT_MESSAGE, c))
    requires pos + |f| < TWO63 && h' == if c == Zero(CHAT_MESSAGE) then h else h.(messages := h.messages + [c])
    ensures Decode(LoopOf(HistorySwitch()), h, f + rest, pos) == Decode(LoopOf(HistorySwitch()), h', rest, pos + |f|)
  {
    var data := Marshal(CHAT_MESSAGE, c);
    EmptyIffDefault(c);
    if data != [] {
      ChatRoundTrip(c);
      NestedTaken(h, c, data);
    }
    ReadsText(HistorySwitch(), h, h', 1, data, f, rest, pos);
  }

  // The history after its first i fields.
  function PartOfHistory(h: History, i: nat): History
    requires i <= |h.messages| + 1
  {
    if i <= |h.messages| then History(Kept(h.messages[..i]), 0) else History(Kept(h.messages), h.total)
  }

  lemma ChatConsumed(h: History, h': History, c: Message, f: seq<byte>)
    requires Bounded(LoopOf(HistorySwitch())) && Typed(CHAT_MESSAGE, c) && f == BytesField(1, Marshal(CHAT_MESSAGE, c))
    requires h' == if c == Zero(CHAT_MESSAGE) then h else h.(messages := h.messages + [c])
    ensures Consumes(LoopOf(HistorySwitch()), h, h', f)
  {
    forall rest, pos: nat | pos + |f| < TWO63
      ensures Decode(LoopOf(HistorySwitch()), h, f + rest, pos) == Decode(LoopOf(HistorySwitch()), h', rest, pos + |f|)
    {
      ReadsChat(h, h', c, f, rest, pos);
    }
  }

  lemma ConsumesChat(h: History, i: nat)
    requires Bounded(LoopOf(HistorySwitch())) && TypedHistory(h) && i < |h.messages|
    ensures Consumes(LoopOf(HistorySwitch()), PartOfHistory(h, i), PartOfHistory(h, i + 1), HistoryFields(h)[i])
  {
    assert h.messages[..i + 1][..i] == h.messages[..i];
    ChatConsumed(PartOfHistory(h, i), PartOfHistory(h, i + 1), h.messages[i], HistoryFields(h)[i]);
  }

  lemma TotalConsumed(h: History, h': History, total: u32, f: seq<byte>)
    requires Bounded(LoopOf(HistorySwitch())) && h.total == 0 && h' == h.(total := total) && f == UintField(2, total)
    ensures Consumes(LoopOf(HistorySwitch()), h, h', f)
  {
    assert TakesNumber(HistorySwitch(), h, 2, total, h');
    forall rest, pos: nat | pos + |f| < TWO63
      ensures Decode(LoopOf(HistorySwitch()), h, f + rest, pos) == Decode(LoopOf(HistorySwitch()), h', rest, pos + |f|)
    {
      ReadsNumber(HistorySwitch(), h, h', 2, total, f, rest, pos);
    }
  }

  lemma ConsumesTotal(h: History)
    requires Bounded(LoopOf(HistorySwitch())) && TypedHistory(h)
    ensures var n := |h.messages|;
      Consumes(LoopOf(HistorySwitch()), PartOfHistory(h, n), PartOfHistory(h, n + 1), HistoryFields(h)[n])
  {
    var n := |h.messages|;
    assert h.messages[..n] == h.messages;
    TotalConsumed(PartOfHistory(h, n), PartOfHistory(h, n + 1), h.total, HistoryFields(h)[n]);
  }

  function PartsOfHistory(h: History): seq<History> {
    seq(|h.messages| + 2, i requires 0 <= i <= |h.messages| + 1 => PartOfHistory(h, i))
  }

  lemma HistoryFieldByField(h: History)
    requires Bounded(LoopOf(HistorySwitch())) && TypedHistory(h)
    ensures var hs := PartsOfHistory(h);
      && hs[0] == NO_HISTORY && hs[|h.messages| + 1] == History(Kept(h.messages), h.total)
      && forall i :: 0 <= i <= |h.messages| ==> Consumes(LoopOf(HistorySwitch()), hs[i], hs[i + 1], HistoryFields(h)[i])
  {
    var hs := PartsOfHistory(h);
    forall i | 0 <= i <= |h.messages| ensures Consumes(LoopOf(HistorySwitch()), hs[i], hs[i + 1], HistoryFields(h)[i]) {
      if i < |h.messages| { ConsumesChat(h, i); } else { ConsumesTotal(h); }
    }
    assert h.messages[..0] == [];
  }

  /** Unmarshal of Marshal gives a HistoryResponse back without its all-default messages.  */
  lemma HistoryRoundTrip(h: History)
    requires TypedHistory(h) && |MarshalHistory(h)| < TWO63
    ensures UnmarshalHistory(MarshalHistory(h)) == Decoded(History(Kept(h.messages), h.total))
  {
    HistoryWellMade();
    LoopBounded(HistorySwitch());
    HistoryFieldByField(h);
    ConsumesAll(LoopOf(HistorySwitch()), PartsOfHistory(h), HistoryFields(h), 0);
  }

  lemma {:induction false} KeptIsShorter(cs: seq<Message>)
    ensures |Kept(cs)| <= |cs| && (Kept(cs) == cs <==> Zero(CHAT_MESSAGE) !in cs)
  {
    if cs != [] {
      var n := |cs| - 1;
      KeptIsShorter(cs[..n]);
      assert cs == cs[..n] + [cs[n]];
      if cs[n] != Zero(CHAT_MESSAGE) && Kept(cs) == cs { assert Kept(cs)[..|Kept(cs[..n])|] == Kept(cs[..n]); }
    }
  }

  /** Hence exactly as it was if and only if no message is all default.  */
  lemma HistoryRoundTripIff(h: History)
    requires TypedHistory(h) && |MarshalHistory(h)| < TWO63
    ensures UnmarshalHistory(MarshalHistory(h)) == Decoded(h) <==> Zero(CHAT_MESSAGE) !in h.messages
  {
    HistoryRoundTrip(h);
    KeptIsShorter(h.messages);
  }

  /************ Unknown fields and termination ************/

  // Well-formed fields with numbers a message with n fields does not know.
  predicate Foreign(n: nat, us: seq<seq<byte>>) {
    forall i :: 0 <= i < |us| ==> WholeField(us[i]) && (ReadVarint(us[i]).v / 8 == 0 || ReadVarint(us[i]).v / 8 > n)
  }

  lemma FlatIgnores(ks: Schema, us: seq<seq<byte>>)
    requires Foreign(|ks|, us) && |Join(us)| < TWO63
    ensures Regular(LoopOf(FlatSwitch(ks))) && Ignores(LoopOf(FlatSwitch(ks)), Join(us))
  {
    FlatWellMade(ks);
    LoopRegular(FlatSwitch(ks));
    forall i | 0 <= i < |us| ensures Skips(LoopOf(FlatSwitch(ks)), us[i]) { UnknownSkips(FlatSwitch(ks), us[i]); }
    RunIgnored(LoopOf(FlatSwitch(ks)), us);
  }

  lemma HistoryIgnores(us: seq<seq<byte>>)
    requires Foreign(2, us) && |Join(us)| < TWO63
    ensures Regular(LoopOf(HistorySwitch())) && Ignores(LoopOf(HistorySwitch()), Join(us))
  {
    HistoryWellMade();
    LoopRegular(HistorySwitch());
    forall i | 0 <= i < |us| ensures Skips(LoopOf(HistorySwitch()), us[i]) { UnknownSkips(HistorySwitch(), us[i]); }
    RunIgnored(LoopOf(HistorySwitch()), us);
  }

  // Runs of unknown fields before, between and after the fields fs.
  function Sprinkled(fs: seq<seq<byte>>, runs: seq<seq<seq<byte>>>): seq<byte>
    requires |runs| == |fs| + 1
  {
    Weave([[]] + fs, Joined(runs))
  }

  function Joined(runs: seq<seq<seq<byte>>>): seq<seq<byte>> {
    seq(|runs|, i requires 0 <= i < |runs| => Join(runs[i]))
  }

  lemma {:induction false} JunkInWeave(parts: seq<seq<byte>>, junk: seq<seq<byte>>, i: nat)
    requires |junk| == |parts| && i < |junk|
    ensures |junk[i]| <= |Weave(parts, junk)|
    decreases |parts|
  {
    if i > 0 { JunkInWeave(parts[1..], junk[1..], i - 1); }
  }

  lemma EmptyFirst<M(!new)>(turn: Loop<M>, m: M, fs: seq<seq<byte>>)
    requires Bounded(turn) && Boundaries(turn, m, fs)
    ensures Boundaries(turn, m, [[]] + fs) && Join([[]] + fs) == Join(fs)
  {
    assert ([[]] + fs)[1..] == fs && ([[]] + fs)[0] == [];
  }

  /** Any runs of well-formed unknown fields, at every field boundary of a marshalled message, change nothing.  */
  lemma UnknownFieldsInvisible(ks: Schema, m: Message, runs: seq<seq<seq<byte>>>)
    requires Typed(ks, m) && |runs| == |ks| + 1 && (forall i :: 0 <= i < |runs| ==> Foreign(|ks|, runs[i]))
    requires |Marshal(ks, m)| < TWO63 && |Sprinkled(Fields(ks, m), runs)| < TWO63
    ensures Unmarshal(ks, Sprinkled(Fields(ks, m), runs)) == Unmarshal(ks, Marshal(ks, m)) == Decoded(Normal(ks, m))
  {
    RoundTrip(ks, m);
    var turn, fs := LoopOf(FlatSwitch(ks)), Fields(ks, m);
    FlatWellMade(ks);
    LoopRegular(FlatSwitch(ks));
    forall i | 0 <= i < |runs| ensures Ignores(turn, Joined(runs)[i]) {
      JunkInWeave([[]] + fs, Joined(runs), i);
      FlatIgnores(ks, runs[i]);
    }
    FieldByField(ks, m);
    ConsumesBoundaries(turn, Partials(ks, m), fs);
    EmptyFirst(turn, Zero(ks), fs);
    UnknownFieldsIgnored(turn, Zero(ks), [[]] + fs, Joined(runs), 0, 0);
  }

  lemma HistoryUnknownFieldsInvisible(h: History, runs: seq<seq<seq<byte>>>)
    requires TypedHistory(h) && |runs| == |h.messages| + 2 && (forall i :: 0 <= i < |runs| ==> Foreign(2, runs[i]))
    requires |MarshalHistory(h)| < TWO63 && |Sprinkled(HistoryFields(h), runs)| < TWO63
    ensures UnmarshalHistory(Sprinkled(HistoryFields(h), runs)) == UnmarshalHistory(MarshalHistory(h)) ==
        Decoded(History(Kept(h.messages), h.total))
  {
    HistoryRoundTrip(h);
    var turn, fs := LoopOf(HistorySwitch()), HistoryFields(h);
    HistoryWellMade();
    LoopRegular(HistorySwitch());
    forall i | 0 <= i < |runs| ensures Ignores(turn, Joined(runs)[i]) {
      JunkInWeave([[]] + fs, Joined(runs), i);
      HistoryIgnores(runs[i]);
    }
    HistoryFieldByField(h);
    ConsumesBoundaries(turn, PartsOfHistory(h), fs);
    EmptyFirst(turn, NO_HISTORY, fs);
    UnknownFieldsIgnored(turn, NO_HISTORY, [[]] + fs, Joined(runs), 0, 0);
  }

  /************ When Unmarshal ends ************/

  // No text and no skipped field that Unmarshal comes to declares a length that overflows.
  predicate LengthsFit(ks: Schema, data: seq<byte>) {
    FlatWellMade(ks);
    LoopBounded(FlatSwitch(ks));
    !Visits(LoopOf(FlatSwitch(ks)), GuardOf(FlatGuard(ks)), Zero(ks), data, 0)
  }

  /** Unmarshal of a flat message panics or moves back if and only if it comes to a length that overflows.  */
  lemma WildIffOverflow(ks: Schema, data: seq<byte>)
    requires |data| < TWO63
    ensures WildResult(Unmarshal(ks, data)) <==> !LengthsFit(ks, data)
  {
    FlatWellMade(ks);
    LoopBounded(FlatSwitch(ks));
    FlatGuarded(ks);
    WildIffVisits(LoopOf(FlatSwitch(ks)), GuardOf(FlatGuard(ks)), Zero(ks), data, 0);
  }

  /** If it comes to none, the loop of the source ends, in at most as many turns as there are bytes.  */
  lemma Terminates(ks: Schema, data: seq<byte>, k: nat)
    requires LengthsFit(ks, data) && |data| < TWO63 && |data| <= k
    ensures Turns(LoopOf(FlatSwitch(ks)), Zero(ks), data, 0, k) == Ended(Unmarshal(ks, data))
    ensures !WildResult(Unmarshal(ks, data))
  {
    WildIffOverflow(ks, data);
    FlatWellMade(ks);
    LoopBounded(FlatSwitch(ks));
    FlatGuarded(ks);
    var turn, guard := LoopOf(FlatSwitch(ks)), GuardOf(FlatGuard(ks));
    forall m, b, pos: nat ensures FollowsAt(turn, turn, guard, |data|, m, b, pos) {}
    assert data[0..] == data;
    LoopEnds(turn, turn, guard, Zero(ks), data, 0, k);
  }

  // The fields of a HistoryResponse whose turn is wild: a nested message may also hold such a field itself.
  predicate HistoryOverflows(num: nat, wt: nat, b: seq<byte>, pos: nat, lead: nat) {
    if num == 1 then TextOverflows(b, pos)
      || (BytesAt(b, pos).GotBytes? && !LengthsFit(CHAT_MESSAGE, BytesAt(b, pos).data))
    else if num == 2 then false
    else SkipOverflows(wt, b, pos, lead)
  }

  function HistoryGuard(): SwitchGuard {
    (num: nat, wt: nat, b: seq<byte>, pos: nat, lead: nat) => HistoryOverflows(num, wt, b, pos, lead)
  }

  lemma HistoryGuardedAt(h: History, num: nat, wt: nat, b: seq<byte>, pos: nat, lead: nat)
    ensures SwitchGuardedAt(HistorySwitch(), HistoryGuard(), h, num, wt, b, pos, lead)
  {
    if pos + |b| < TWO63 && 0 < lead <= pos {
      VarintNotWild(b, 0, 0);
      ReadsWildIff(h, wt, b, pos, lead);
      if BytesAt(b, pos).GotBytes? { WildIffOverflow(CHAT_MESSAGE, BytesAt(b, pos).data); }
    }
  }

  // A length that overflows here overflows further on; one that does not and fits gives the same bytes there.
  lemma HistoryRisesAt(num: nat, wt: nat, b: seq<byte>, pos: nat, pos': nat, lead: nat)
    ensures SwitchRisesAt(HistoryGuard(), num, wt, b, pos, pos', lead)
  {
    assert HistoryGuard()(num, wt, b, pos, lead) == HistoryOverflows(num, wt, b, pos, lead);
    if BytesAt(b, pos).GotBytes? {
      assert pos <= pos' ==> TextOverflows(b, pos') || BytesAt(b, pos') == BytesAt(b, pos);
    }
  }

  lemma HistoryGuarded()
    ensures Guarded(LoopOf(HistorySwitch()), GuardOf(HistoryGuard()))
  {
    var sw, sg := HistorySwitch(), HistoryGuard();
    forall m, num: nat, wt: nat, b, pos: nat, lead: nat ensures SwitchGuardedAt(sw, sg, m, num, wt, b, pos, lead) {
      HistoryGuardedAt(m, num, wt, b, pos, lead);
    }
    forall num: nat, wt: nat, b, pos: nat, pos': nat, lead: nat ensures SwitchRisesAt(sg, num, wt, b, pos, pos', lead) {
      HistoryRisesAt(num, wt, b, pos, pos', lead);
    }
    LoopGuarded(sw, sg);
  }

  predicate HistoryLengthsFit(data: seq<byte>) {
    HistoryWellMade();
    LoopBounded(HistorySwitch());
    !Visits(LoopOf(HistorySwitch()), GuardOf(HistoryGuard()), NO_HISTORY, data, 0)
  }

  /** The same for a HistoryResponse.  */
  lemma HistoryWildIffOverflow(data: seq<byte>)
    requires |data| < TWO63
    ensures WildResult(UnmarshalHistory(data)) <==> !HistoryLengthsFit(data)
  {
    HistoryWellMade();
    LoopBounded(HistorySwitch());
    HistoryGuarded();
    WildIffVisits(LoopOf(HistorySwitch()), GuardOf(HistoryGuard()), NO_HISTORY, data, 0);
  }

  // The nested Unmarshal, given k turns.
  function ChatWithin(k: nat): seq<byte> -> Result<Message> {
    (data: seq<byte>) =>
      match Turns(LoopOf(FlatSwitch(CHAT_MESSAGE)), Zero(CHAT_MESSAGE), data, 0, k)
      case Ended(r) => r
      case Going(_, _) => Failed(Unfinished)
  }

  lemma HistoryFollowsAt(k: nat, h: History, b: seq<byte>, pos: nat)
    ensures FollowsAt(LoopOf(HistorySwitchWith(ChatWithin(k))), LoopOf(HistorySwitch()), GuardOf(HistoryGuard()), k, h,
        b, pos)
  {
    if |b| <= k && pos + |b| < TWO63 && !GuardOf(HistoryGuard())(b, pos) && ReadVarint(b).Got? {
      var tag, n := ReadVarint(b).v, ReadVarint(b).n;
      var rest := b[n..];
      if tag / 8 == 1 && BytesAt(rest, pos + n).GotBytes? {
        Terminates(CHAT_MESSAGE, BytesAt(rest, pos + n).data, k);
      }
    }
  }

  lemma HistoryTerminates(data: seq<byte>, k: nat)
    requires HistoryLengthsFit(data) && |data| < TWO63 && |data| <= k
    ensures Turns(LoopOf(HistorySwitchWith(ChatWithin(k))), NO_HISTORY, data, 0, k) == Ended(UnmarshalHistory(data))
    ensures !WildResult(UnmarshalHistory(data))
  {
    HistoryWildIffOverflow(data);
    HistoryWellMade();
    LoopBounded(HistorySwitch());
    HistoryGuarded();
    var loop, turn, guard := LoopOf(HistorySwitchWith(ChatWithin(k))), LoopOf(HistorySwitch()), GuardOf(HistoryGuard());
    forall m, b, pos: nat ensures FollowsAt(loop, turn, guard, |data|, m, b, pos) { HistoryFollowsAt(k, m, b, pos); }
    assert data[0..] == data;
    LoopEnds(loop, turn, guard, NO_HISTORY, data, 0, k);
  }

  /** No message knows field 4, so none ends on the endless bytes.  */
  lemma NeverTerminates(ks: Schema, m: Message, h: History, k: nat)
    requires |ks| < 4
    ensures Turns(LoopOf(FlatSwitch(ks)), m, Endless(), 0, k) == Going(m, 0)
    ensures Turns(LoopOf(HistorySwitchWith(ChatWithin(k))), h, Endless(), 0, k) == Going(h, 0)
  {
    FlatWellMade(ks);
    EndlessSpins(FlatSwitch(ks), m, k);
    assert Unknown(HistorySwitchWith(ChatWithin(k)), 4);
    EndlessSpins(HistorySwitchWith(ChatWithin(k)), h, k);
  }

  lemma FlatBlind(ks: Schema)
    ensures Blind(LoopOf(FlatSwitch(ks)))
  {
    var sw := FlatSwitch(ks);
    forall m, m', num: nat, wt: nat, b, pos: nat ensures SwitchBlindAt(sw, m, m', num, wt, b, pos) {}
    LoopBlind(sw);
  }

  /** On any data, if Unmarshal ends after some number of turns it has ended, in the same way, after as many as there
      are bytes; so whether it ends can be told by that many turns.  */
  lemma EndsIffWithinLength(ks: Schema, data: seq<byte>, k: nat)
    ensures var loop := LoopOf(FlatSwitch(ks));
      Turns(loop, Zero(ks), data, 0, k).Ended? ==>
        Turns(loop, Zero(ks), data, 0, |data|) == Turns(loop, Zero(ks), data, 0, k)
  {
    FlatBlind(ks);
    if Turns(LoopOf(FlatSwitch(ks)), Zero(ks), data, 0, k).Ended? {
      EndsWithin(LoopOf(FlatSwitch(ks)), Zero(ks), data, k);
    }
  }

  lemma HistoryBlind(inner: seq<byte> -> Result<Message>)
    ensures Blind(LoopOf(HistorySwitchWith(inner)))
  {
    var sw := HistorySwitchWith(inner);
    forall m, m', num: nat, wt: nat, b, pos: nat ensures SwitchBlindAt(sw, m, m', num, wt, b, pos) {}
    LoopBlind(sw);
  }

  // A nested Unmarshal that ends in k turns ends alike in n, if that is no fewer than its bytes.
  lemma ChatKeepsUp(data: seq<byte>, k: nat, n: nat)
    requires |data| <= n && ChatWithin(k)(data) != Failed(Unfinished)
    ensures ChatWithin(n)(data) == ChatWithin(k)(data)
  {
    EndsIffWithinLength(CHAT_MESSAGE, data, k);
    TurnsAdd(LoopOf(FlatSwitch(CHAT_MESSAGE)), Zero(CHAT_MESSAGE), data, 0, |data|, n - |data|);
  }

  lemma HistoryKeepsUp(k: nat, n: nat)
    ensures KeepsUp(LoopOf(HistorySwitchWith(ChatWithin(k))), LoopOf(HistorySwitchWith(ChatWithin(n))), n)
  {
    var turn, turn' := LoopOf(HistorySwitchWith(ChatWithin(k))), LoopOf(HistorySwitchWith(ChatWithin(n)));
    forall m, b, pos: nat | |b| <= n && turn(m, b, pos) != Bad(Unfinished) ensures turn'(m, b, pos) == turn(m, b, pos) {
      if ReadVarint(b).Got? {
        var rest, at := b[ReadVarint(b).n..], pos + ReadVarint(b).n;
        if ReadVarint(b).v / 8 == 1 && BytesAt(rest, at).GotBytes? { ChatKeepsUp(BytesAt(rest, at).data, k, n); }
      }
    }
  }

  // The loop and every nested one have ended.
  predicate Finished(r: Run<History>) { r.Ended? && r != Ended(Failed(Unfinished)) }

  /** The same for a HistoryResponse, each nested Unmarshal having as many turns of its own.  */
  lemma HistoryEndsIffWithinLength(data: seq<byte>, k: nat)
    ensures var r := (n: nat) => Turns(LoopOf(HistorySwitchWith(ChatWithin(n))), NO_HISTORY, data, 0, n);
      Finished(r(k)) ==> r(|data|) == r(k)
  {
    var turn, turn' := LoopOf(HistorySwitchWith(ChatWithin(k))), LoopOf(HistorySwitchWith(ChatWithin(|data|)));
    if Finished(Turns(turn, NO_HISTORY, data, 0, k)) {
      HistoryKeepsUp(k, |data|);
      KeepsUpRuns(turn, turn', NO_HISTORY, data, 0, k);
      HistoryBlind(ChatWithin(|data|));
      EndsWithin(turn', NO_HISTORY, data, k);
    }
  }

  /************ Unknown fields in any data ************/

  lemma FlatAlike(ks: Schema, us: seq<seq<byte>>, n: nat)
    requires Foreign(|ks|, us) && |Join(us)| < TWO63
    ensures var loop := LoopOf(FlatSwitch(ks)); Alike(loop, loop, GuardOf(FlatGuard(ks)), n) && Ignores(loop, Join(us))
  {
    FlatIgnores(ks, us);
    FlatGuarded(ks);
    var sw, sg := FlatSwitch(ks), FlatGuard(ks);
    forall m, b, pos: nat ensures FollowsAt(LoopOf(sw), LoopOf(sw), GuardOf(sg), n, m, b, pos) {}
    forall m, num: nat, wt: nat, b, pos: nat, pos': nat, lead: nat
      ensures SwitchTipsAt(sw, sw, sg, m, num, wt, b, pos, pos', lead)
    {
      FlatTipsAt(ks, m, num, wt, b, pos, pos', lead);
    }
    LoopTips(sw, sw, sg);
  }

  lemma FlatTipsAt(ks: Schema, m: Message, num: nat, wt: nat, b: seq<byte>, pos: nat, pos': nat, lead: nat)
    ensures SwitchTipsAt(FlatSwitch(ks), FlatSwitch(ks), FlatGuard(ks), m, num, wt, b, pos, pos', lead)
  {
    assert FlatGuard(ks)(num, wt, b, pos, lead) == FlatOverflows(ks, num, wt, b, pos, lead);
    assert FlatGuard(ks)(num, wt, b, pos', lead) == FlatOverflows(ks, num, wt, b, pos', lead);
    if pos <= pos' && pos' + |b| < TWO63 { ReadsTip(m, wt, b, pos, pos', lead); }
  }

  /** Put at a field boundary of any data in which the loop comes to no length that overflows, a run of unknown
      fields changes neither the message nor the error the source's loop ends with if and only if the loop still
      comes to none; otherwise it panics where it ran into the end of the data.  */
  lemma UnknownFieldsHarmless(ks: Schema, a: seq<byte>, us: seq<seq<byte>>, b: seq<byte>, k: nat)
    requires Unmarshal(ks, a).Decoded? && Foreign(|ks|, us) && |a| + |Join(us)| + |b| < TWO63
    requires |a| + |Join(us)| + |b| <= k
    ensures var loop, x, y := LoopOf(FlatSwitch(ks)), a + b, a + (Join(us) + b);
      var before, after := Turns(loop, Zero(ks), x, 0, k), Turns(loop, Zero(ks), y, 0, k);
      && (LengthsFit(ks, y) ==> LengthsFit(ks, x) && after == before == Ended(Unmarshal(ks, x)))
      && (LengthsFit(ks, x) ==> (after == before <==> LengthsFit(ks, y)))
      && (LengthsFit(ks, x) && !LengthsFit(ks, y) ==> before == Ended(Failed(Eof)) && after == Ended(Failed(Panic)))
  {
    var loop, guard, u, x, y := LoopOf(FlatSwitch(ks)), GuardOf(FlatGuard(ks)), Join(us), a + b, a + (Join(us) + b);
    FlatAlike(ks, us, |y|);
    if LengthsFit(ks, y) {
      InsertionHarmless(loop, guard, Zero(ks), Unmarshal(ks, a).m, a, u, b, x, y);
      Terminates(ks, y, k);
      Terminates(ks, x, k);
    } else if LengthsFit(ks, x) {
      Terminates(ks, x, k);
      InsertionTips(loop, loop, guard, Zero(ks), Unmarshal(ks, a).m, a, u, b, x, y, k);
    }
  }

  lemma HistoryTipsAt(k: nat, h: History, num: nat, wt: nat, b: seq<byte>, pos: nat, pos': nat, lead: nat)
    ensures SwitchTipsAt(HistorySwitchWith(ChatWithin(k)), HistorySwitch(), HistoryGuard(), h, num, wt, b, pos, pos',
        lead)
  {
    assert HistoryGuard()(num, wt, b, pos, lead) == HistoryOverflows(num, wt, b, pos, lead);
    assert HistoryGuard()(num, wt, b, pos', lead) == HistoryOverflows(num, wt, b, pos', lead);
    if pos <= pos' && pos' + |b| < TWO63 {
      ReadsTip(h, wt, b, pos, pos', lead);
      BytesMovable(b, pos, pos');
    }
  }

  lemma HistoryAlike(us: seq<seq<byte>>, k: nat, n: nat)
    requires Foreign(2, us) && |Join(us)| < TWO63 && n <= k
    ensures Alike(LoopOf(HistorySwitchWith(ChatWithin(k))), LoopOf(HistorySwitch()), GuardOf(HistoryGuard()), n)
    ensures Ignores(LoopOf(HistorySwitch()), Join(us))
  {
    HistoryIgnores(us);
    HistoryGuarded();
    var actual, sw, sg := HistorySwitchWith(ChatWithin(k)), HistorySwitch(), HistoryGuard();
    forall m, b, pos: nat ensures FollowsAt(LoopOf(actual), LoopOf(sw), GuardOf(sg), n, m, b, pos) {
      HistoryFollowsAt(k, m, b, pos);
    }
    forall m, num: nat, wt: nat, b, pos: nat, pos': nat, lead: nat
      ensures SwitchTipsAt(actual, sw, sg, m, num, wt, b, pos, pos', lead)
    {
      HistoryTipsAt(k, m, num, wt, b, pos, pos', lead);
    }
    LoopTips(actual, sw, sg);
  }

  lemma HistoryUnknownFieldsHarmless(a: seq<byte>, us: seq<seq<byte>>, b: seq<byte>, k: nat)
    requires UnmarshalHistory(a).Decoded? && Foreign(2, us) && |a| + |Join(us)| + |b| < TWO63
    requires |a| + |Join(us)| + |b| <= k
    ensures var loop, x, y := LoopOf(HistorySwitchWith(ChatWithin(k))), a + b, a + (Join(us) + b);
      var before, after := Turns(loop, NO_HISTORY, x, 0, k), Turns(loop, NO_HISTORY, y, 0, k);
      && (HistoryLengthsFit(y) ==> HistoryLengthsFit(x) && after == before == Ended(UnmarshalHistory(x)))
      && (HistoryLengthsFit(x) ==> (after == before <==> HistoryLengthsFit(y)))
      && (HistoryLengthsFit(x) && !HistoryLengthsFit(y) ==>
        before == Ended(Failed(Eof)) && after == Ended(Failed(Panic)))
  {
    var actual, loop, guard :=
      LoopOf(HistorySwitchWith(ChatWithin(k))), LoopOf(HistorySwitch()), GuardOf(HistoryGuard());
    var u, x, y := Join(us), a + b, a + (Join(us) + b);
    HistoryAlike(us, k, |y|);
    if HistoryLengthsFit(y) {
      InsertionHarmless(loop, guard, NO_HISTORY, UnmarshalHistory(a).m, a, u, b, x, y);
      HistoryTerminates(y, k);
      HistoryTerminates(x, k);
    } else if HistoryLengthsFit(x) {
      HistoryTerminates(x, k);
      InsertionTips(actual, loop, guard, NO_HISTORY, UnmarshalHistory(a).m, a, u, b, x, y, k);
    }
  }

  /************ The condition on lengths is needed ************/

  // Field 4, length-delimited, 2^64 - 13 bytes long.
  function HopBack(): seq<byte> { [0x22] + VarintBytes(TWO64 - 13) }

  // A text of two bytes that read as the start of another skipped field.
  const HEAD: seq<byte> := [0x12, 2, 0x22, 0x0B]

  // Field 5, the number zero.
  const JUNK: seq<byte> := [0x28, 0]

  const AFTER_HEAD: Message := [Str([]), Str([0x22, 0x0B]), Num(0)]

  lemma HopBackLength()
    ensures |VarintBytes(TWO64 - 13)| == 10
  {
    assert |VarintBytes(0x1)| == 1 && |VarintBytes(0xFF)| == 2 && |VarintBytes(0x7FFF)| == 3;
    assert |VarintBytes(0x3F_FFFF)| == 4 && |VarintBytes(0x1FFF_FFFF)| == 5 && |VarintBytes(0xF_FFFF_FFFF)| == 6;
    assert |VarintBytes(0x7FF_FFFF_FFFF)| == 7 && |VarintBytes(0x3_FFFF_FFFF_FFFF)| == 8;
    assert |VarintBytes(0x1FF_FFFF_FFFF_FFFF)| == 9;
  }

  lemma WholeVarint(v: u64, b: seq<byte>)
    requires b == VarintBytes(v)
    ensures ReadVarint(b) == Got(v, |b|)
  {
    VarintRoundTrip(v, []);
    assert b + [] == b;
  }

  lemma HopBackBytes()
    ensures |VarintBytes(TWO64 - 13)| == 10 && ReadVarint(VarintBytes(TWO64 - 13)) == Got(TWO64 - 13, 10)
  {
    HopBackLength();
    WholeVarint(TWO64 - 13, VarintBytes(TWO64 - 13));
  }

  lemma OneByteVarint(c: byte, rest: seq<byte>)
    requires c < 128
    ensures ReadVarint([c] + rest) == Got(c, 1) && ([c] + rest)[1..] == rest
  {
    assert VarintBytes(c) == [c];
    VarintRoundTrip(c, rest);
  }

  lemma HeadTurn(rest: seq<byte>)
    ensures OneTurn(FlatSwitch(CHAT_MESSAGE), Zero(CHAT_MESSAGE), HEAD + rest, 0) == More(AFTER_HEAD, 4)
  {
    var b := [2] + ([0x22, 0x0B] + rest);
    assert HEAD + rest == [0x12] + b;
    OneByteVarint(0x12, b);
    OneByteVarint(2, [0x22, 0x0B] + rest);
    assert b[1..3] == [0x22, 0x0B];
    assert Zero(CHAT_MESSAGE)[1 := Str([0x22, 0x0B])] == AFTER_HEAD;
  }

  // From position pos the hop takes the loop two bytes back.
  lemma HopTurn(pos: nat)
    requires 2 <= pos < 100
    ensures OneTurn(FlatSwitch(CHAT_MESSAGE), AFTER_HEAD, HopBack(), pos) == More(AFTER_HEAD, pos - 2)
  {
    OneByteVarint(0x22, VarintBytes(TWO64 - 13));
    HopBackBytes();
  }

  lemma JunkTurn(rest: seq<byte>, pos: nat)
    ensures OneTurn(FlatSwitch(CHAT_MESSAGE), AFTER_HEAD, JUNK + rest, pos) == More(AFTER_HEAD, pos + 2)
  {
    assert JUNK + rest == [0x28] + ([0] + rest);
    OneByteVarint(0x28, [0] + rest);
    OneByteVarint(0, rest);
  }

  // Inside the text the loop finds a field that takes it to the end of the data.
  lemma TextTurn()
    ensures OneTurn(FlatSwitch(CHAT_MESSAGE), AFTER_HEAD, [0x22, 0x0B] + HopBack(), 2) == More(AFTER_HEAD, 15)
  {
    HopBackBytes();
    assert [0x22, 0x0B] + HopBack() == [0x22] + ([0x0B] + HopBack());
    OneByteVarint(0x22, [0x0B] + HopBack());
    OneByteVarint(0x0B, HopBack());
  }

  lemma HopReturns(k: nat)
    requires k >= 3
    ensures Turns(LoopOf(FlatSwitch(CHAT_MESSAGE)), Zero(CHAT_MESSAGE), HEAD + HopBack(), 0, k) ==
        Ended(Decoded(AFTER_HEAD))
  {
    var loop, data := LoopOf(FlatSwitch(CHAT_MESSAGE)), HEAD + HopBack();
    HopBackBytes();
    HeadTurn(HopBack());
    HopTurn(4);
    TextTurn();
    assert data[0..] == data && data[4..] == HopBack() && data[2..] == [0x22, 0x0B] + HopBack();
    assert Turns(loop, AFTER_HEAD, data, 15, k - 3) == Ended(Decoded(AFTER_HEAD));
    assert Turns(loop, AFTER_HEAD, data, 2, k - 2) == Turns(loop, AFTER_HEAD, data, 15, k - 3);
    assert Turns(loop, AFTER_HEAD, data, 4, k - 1) == Turns(loop, AFTER_HEAD, data, 2, k - 2);
  }

  lemma {:induction false} HopSpins(k: nat)
    ensures Turns(LoopOf(FlatSwitch(CHAT_MESSAGE)), AFTER_HEAD, HEAD + (JUNK + HopBack()), 4, k).Going?
  {
    var loop, data := LoopOf(FlatSwitch(CHAT_MESSAGE)), HEAD + (JUNK + HopBack());
    if k > 0 {
      JunkTurn(HopBack(), 4);
      assert data[4..] == JUNK + HopBack();
      assert Turns(loop, AFTER_HEAD, data, 4, k) == Turns(loop, AFTER_HEAD, data, 6, k - 1);
      if k > 1 {
        HopTurn(6);
        assert data[6..] == HopBack();
        assert Turns(loop, AFTER_HEAD, data, 6, k - 1) == Turns(loop, AFTER_HEAD, data, 4, k - 2);
        HopSpins(k - 2);
      }
    }
  }

  /** Without the condition it is false: on these fifteen bytes ChatMessage's Unmarshal returns a message, and with
      an unknown field put at a field boundary of them it never returns.  */
  lemma InsertionCanSpin(k: nat)
    ensures var loop := LoopOf(FlatSwitch(CHAT_MESSAGE));
      && (k >= 3 ==> Turns(loop, Zero(CHAT_MESSAGE), HEAD + HopBack(), 0, k) == Ended(Decoded(AFTER_HEAD)))
      && Turns(loop, Zero(CHAT_MESSAGE), HEAD + (JUNK + HopBack()), 0, k).Going?
    ensures |HEAD + HopBack()| == 15 && Foreign(3, [JUNK]) && Unmarshal(CHAT_MESSAGE, HEAD) == Decoded(AFTER_HEAD)
  {
    var loop, data := LoopOf(FlatSwitch(CHAT_MESSAGE)), HEAD + (JUNK + HopBack());
    HopBackBytes();
    if k >= 3 { HopReturns(k); }
    HeadTurn(JUNK + HopBack());
    assert data[0..] == data;
    if k > 0 { HopSpins(k - 1); }
    JunkIsForeign();
    HeadDecodes();
  }

  lemma JunkIsForeign()
    ensures Foreign(3, [JUNK])
  {
    assert JUNK == [0x28] + [0] && [0] == [0] + [];
    OneByteVarint(0x28, [0]);
    OneByteVarint(0, []);
  }

  lemma HeadDecodes()
    ensures Unmarshal(CHAT_MESSAGE, HEAD) == Decoded(AFTER_HEAD)
  {
    FlatWellMade(CHAT_MESSAGE);
    LoopBounded(FlatSwitch(CHAT_MESSAGE));
    HeadTurn([]);
    assert HEAD + [] == HEAD && HEAD[4..] == [];
    DecodeTurn(LoopOf(FlatSwitch(CHAT_MESSAGE)), Zero(CHAT_MESSAGE), HEAD, 0);
  }

  /** What was marshalled never comes to such a length: the loop of the source ends with the message.  */
  lemma LoopRoundTrip(ks: Schema, m: Message, k: nat)
    requires Typed(ks, m) && |Marshal(ks, m)| < TWO63 && |Marshal(ks, m)| <= k
    ensures Turns(LoopOf(FlatSwitch(ks)), Zero(ks), Marshal(ks, m), 0, k) == Ended(Decoded(Normal(ks, m)))
  {
    RoundTrip(ks, m);
    WildIffOverflow(ks, Marshal(ks, m));
    Terminates(ks, Marshal(ks, m), k);
  }

  lemma HistoryLoopRoundTrip(h: History, k: nat)
    requires TypedHistory(h) && |MarshalHistory(h)| < TWO63 && |MarshalHistory(h)| <= k
    ensures Turns(LoopOf(HistorySwitchWith(ChatWithin(k))), NO_HISTORY, MarshalHistory(h), 0, k) ==
        Ended(Decoded(History(Kept(h.messages), h.total)))
  {
    HistoryRoundTrip(h);
    HistoryWildIffOverflow(MarshalHistory(h));
    HistoryTerminates(MarshalHistory(h), k);
  }
}
