/** The C++ client channel (c++/src/channel.cc).  `Impl` is the state its strand tasks, coroutines and
    atomics work on; each function below is one uninterrupted stretch of strand code, cut at every
    co_await.  The class `ChannelImpl` runs those stretches on real fields.  */
module CppChannel {
  import opened Framing
  import W = WritePump

  type Token = nat     // identity of one callback: a call's, or a connect waiter's
  type Code = int

  const OK: Code := 0
  const CANCELLED: Code := 1
  const INTERNAL: Code := 13
  const UNAVAILABLE: Code := 14

  datatype ConnState = Idle | Connecting | Connected | Closed

  datatype Delivery = Delivery(tok: Token, code: Code, payload: seq<byte>)
  datatype Note = Note(methodId: u32, payload: seq<byte>)
  datatype Completion = Done(d: Delivery) | PushNote(note: Note)

  /** The completion queue is its whole history `pushed`, of which the first `popped` have left.
      `delivered` is the log of callbacks run, `heard` of the pushes on_push was given, `dropped` the callbacks
      destroyed by an emplace that found its id taken.  `coros` and `readers` count the coroutines in flight,
      `readersStarted` the ReadLoops ever started.  */
  datatype Impl = Impl(
    inline: bool, stopped: bool, connected: bool, state: ConnState, waiters: seq<Token>,
    pending: map<u32, Token>, nextCallId: u32, writer: W.Writer,
    coros: nat, readers: nat, readersStarted: nat,
    pushed: seq<Completion>, popped: nat, delivered: seq<Delivery>, heard: seq<Note>, dropped: set<Token>)

  function InitImpl(inline: bool): Impl {
    Impl(inline, false, false, Idle, [], map[], 1, W.Init(), 0, 0, 0, [], 0, [], [], {})
  }

  function Completions(ds: seq<Delivery>): seq<Completion> {
    seq(|ds|, i requires 0 <= i < |ds| => Done(ds[i]))
  }

  // post_response / post_deferred when `queued` callbacks may be, direct calls otherwise.
  function Deliver(s: Impl, ds: seq<Delivery>, mayQueue: bool): Impl {
    if mayQueue && !s.inline then s.(pushed := s.pushed + Completions(ds)) else s.(delivered := s.delivered + ds)
  }

  // An iteration order of an unordered_map.
  ghost predicate Lists(order: seq<u32>, m: map<u32, Token>) {
    && (forall i :: 0 <= i < |order| ==> order[i] in m)
    && (forall id :: id in m ==> id in order)
    && (forall i, j :: 0 <= i < j < |order| ==> order[i] != order[j])
  }

  function Fates(order: seq<u32>, m: map<u32, Token>, code: Code): seq<Delivery>
    requires forall i :: 0 <= i < |order| ==> order[i] in m
  {
    seq(|order|, i requires 0 <= i < |order| => Delivery(m[order[i]], code, []))
  }

  function WaiterFates(ws: seq<Token>, code: Code): seq<Delivery> {
    seq(|ws|, i requires 0 <= i < |ws| => Delivery(ws[i], code, []))
  }

  function FailAll(s: Impl, order: seq<u32>, code: Code, mayQueue: bool): Impl
    requires forall i :: 0 <= i < |order| ==> order[i] in s.pending
  {
    Deliver(s.(pending := map[]), Fates(order, s.pending, code), mayQueue)
  }

  function Finish(s: Impl, code: Code): Impl {
    var state := if code != OK && s.state != Closed then Idle else s.state;
    Deliver(s.(state := state, waiters := []), WaiterFates(s.waiters, code), true)
  }

  // The task RequestConnect posts.
  function ConnectTask(s: Impl, tok: Token): Impl {
    if s.state == Closed || s.stopped then Deliver(s, [Delivery(tok, UNAVAILABLE, [])], false)
    else if s.state == Connected then Deliver(s, [Delivery(tok, OK, [])], false)
    else
      var s1 := s.(waiters := s.waiters + [tok]);
      if s.state == Idle then s1.(state := Connecting, coros := s.coros + 1) else s1
  }

  // The task AsyncUnaryCall posts.
  function CallTask(s: Impl, tok: Token, m: u32, r: seq<byte>): Impl {
    if s.stopped then Deliver(s, [Delivery(tok, CANCELLED, [])], true)
    else
      var id := s.nextCallId;
      var s1 := if id in s.pending then s.(dropped := s.dropped + {tok}) else s.(pending := s.pending[id := tok]);
      s1.(nextCallId := (id + 1) % TWO32, writer := W.Push(s.writer, RequestFrame(id, m, r)))
  }

  // The task Shutdown posts.
  function ShutdownTask(s: Impl, order: seq<u32>): Impl
    requires forall i :: 0 <= i < |order| ==> order[i] in s.pending
  {
    var s1 := FailAll(s.(state := Closed), order, CANCELLED, false);
    Deliver(s1.(waiters := []), WaiterFates(s.waiters, CANCELLED), false)
  }

  // ConnectCoro ends: after a failed await, or having connected.
  function ConnectFails(s: Impl, code: Code): Impl
    requires s.coros > 0
  {
    Finish(s, code).(coros := s.coros - 1)
  }

  function ConnectSucceeds(s: Impl): Impl
    requires s.coros > 0
  {
    if s.state == Closed || s.stopped then ConnectFails(s, CANCELLED)
    else
      var s1 := s.(state := Connected, readers := s.readers + 1, readersStarted := s.readersStarted + 1,
        connected := true);
      Finish(s1, OK).(coros := s.coros - 1)
  }

  // ReadLoop between two reads.
  function ReadFrame(s: Impl, f: Frame, order: seq<u32>): Impl
    requires s.readers > 0 && forall i :: 0 <= i < |order| ==> order[i] in s.pending
  {
    if f.hdr.ftype == PUSH then
      var note := Note(f.hdr.methodId, f.payload);
      if s.inline then s.(heard := s.heard + [note]) else s.(pushed := s.pushed + [PushNote(note)])
    else if f.hdr.ftype != RESPONSE then ReadEnds(s, order, INTERNAL)
    else if f.hdr.callId !in s.pending then s
    else
      var tok := s.pending[f.hdr.callId];
      var payload := if f.hdr.status == OK then f.payload else [];
      Deliver(s.(pending := s.pending - {f.hdr.callId}), [Delivery(tok, f.hdr.status, payload)], true)
  }

  // The reader gives up; the connection state is left as it is.
  function ReadEnds(s: Impl, order: seq<u32>, code: Code): Impl
    requires s.readers > 0 && forall i :: 0 <= i < |order| ==> order[i] in s.pending
  {
    FailAll(s, order, code, true).(readers := s.readers - 1)
  }

  // A write failed: the queue is dropped and every pending call fails.
  function WriteFails(s: Impl, i: nat, order: seq<u32>, code: Code): Impl
    requires W.Enabled(s.writer, W.Fail(i)) && forall j :: 0 <= j < |order| ==> order[j] in s.pending
  {
    FailAll(s, order, code, true).(writer := W.Apply(s.writer, W.Fail(i)))
  }
}
