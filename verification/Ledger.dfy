/** Calls numbered in the order of their registration.  A number follows its call through a run, from the request
    frame to the request goroutine, to the response frame and to the callback, so that an answer belongs to one
    registration even where another call had the same id, method and request.  */
module Ledger {
  import opened Framing
  import opened Flows
  import opened GoChannel
  import opened EndToEnd
  import C = GoClient
  import S = GoServer

  // serveRequest produced `answer` for the n-th call.
  datatype Reply = Reply(n: nat, answer: Produced)

  /** The calls in the order of registration, the number of each callback's, the last number registered under each
      id, the number of each item in flight, and the answers produced for this client in their order.  */
  datatype Numbers = Numbers(calls: seq<Call>, of: map<Cb, nat>, last: map<u32, nat>, tag: Item -> nat,
                             replies: seq<Reply>)

  ghost function Blank(): Numbers { Numbers([], map[], map[], (it: Item) => 0, []) }

  predicate Registers(s: System, l: Label) { l.Client? && l.c.Register? && Admits(s, l.c.t) }

  // Where the item that is at `it` after the step was before it.
  ghost function Origin(s: System, l: Label, it: Item): Item
    requires Enabled(s, l)
  {
    match l
    case Client(WriteOk(t)) =>
      var c := s.client.threads[t].conn;
      if it == Up(c, |s.pipes[c].up.frames|) then Writing(t) else it
    case Client(ReadOk(t, _)) =>
      var c := s.client.threads[t].conn;
      if it == Handling(t) then Down(c, s.pipes[c].down.taken) else it
    case Server(ReadOk(p, _)) => if it == AtConn(p) && p in s.pipes then Up(p, s.pipes[p].up.taken) else it
    case Server(Spawn(p, g)) => if it == AtReq(g) then AtConn(p) else it
    case Server(Write(g)) =>
      var p := s.server.reqs[g].peer;
      if p in s.pipes && it == Down(p, |s.pipes[p].down.frames|) then AtReq(g) else it
    case _ => it
  }

  // What serveRequest answers in this step to a request of this client.
  ghost function Replies(s: System, l: Label, b: Numbers): seq<Reply>
    requires Enabled(s, l)
  {
    match l
    case Server(Lookup(g)) =>
      var r := s.server.reqs[g];
      if r.peer !in s.pipes || r.frame.hdr.methodId in s.server.handlers then []
      else [Reply(b.tag(AtReq(g)), EndToEnd.Answer(r, S.UNIMPLEMENTED, []))]
    case Server(Return(g, code, payload)) =>
      var r := s.server.reqs[g];
      if r.peer !in s.pipes then []
      else [Reply(b.tag(AtReq(g)), EndToEnd.Answer(r, code, if code == OK then payload else []))]
    case _ => []
  }

  ghost function Registered(s: System, t: C.Tid, b: Numbers): Numbers
    requires Admits(s, t)
  {
    var pc, id, n := s.client.threads[t], s.client.core.nextCallId, |b.calls|;
    b.(calls := b.calls + [Call(s.client.core.conn.value, id, pc.methodId, pc.request)],
       of := b.of[pc.cb := n], last := b.last[id := n], tag := (it: Item) => if it == Writing(t) then n else b.tag(it))
  }

  ghost function Enter(s: System, l: Label, b: Numbers): Numbers
    requires Enabled(s, l)
  {
    if Registers(s, l) then Registered(s, l.c.t, b)
    else b.(tag := (it: Item) => b.tag(Origin(s, l, it)), replies := b.replies + Replies(s, l, b))
  }

  ghost function Entered(s: System, ls: seq<Label>, b: Numbers): Numbers
    requires Legal(s, ls)
    decreases |ls|
  {
    if ls == [] then b else Entered(Apply(s, ls[0]), ls[1..], Enter(s, ls[0], b))
  }

  /************ Items come from items ************/

  // A request no answer has been produced for.
  ghost predicate Open(s: System, it: Item) {
    Present(s, it) && !IsAnswer(it) && (it.AtReq? ==> !s.server.reqs[it.g].pc.Answered?)
  }

  ghost predicate IsResponse(s: System, it: Item) {
    Present(s, it) && IsAnswer(it) && FrameOf(s, it).hdr.ftype == RESPONSE
  }

  // `it` in s' is `o` in s, one step further at most.
  ghost predicate From(s: System, s': System, it: Item, o: Item)
    requires Present(s', it)
  {
    && Present(s, o) && ConnOf(s', it) == ConnOf(s, o) && (it != o ==> !Present(s', o))
    && FrameOf(s', it).hdr.callId == FrameOf(s, o).hdr.callId
    && ((IsAnswer(it) <==> IsAnswer(o)) ==> FrameOf(s', it) == FrameOf(s, o))
    && (IsAnswer(o) ==> IsAnswer(it)) && (Open(s', it) ==> Open(s, o))
  }

  // A request just registered, or a push just sent.
  ghost predicate NewItem(s: System, l: Label, it: Item) {
    match l
    case Client(Register(t)) => Admits(s, t) && it == Writing(t)
    case Push(p, _, _) => p in s.pipes && it == Down(p, |s.pipes[p].down.frames|)
    case _ => false
  }

  lemma ClientComes(s: System, l: C.Label, it: Item)
    requires PipesOk(s) && PeersOk(s) && ConnsOk(s.client) && ClientEnabled(s, l)
    requires Present(Apply(s, Client(l)), it) && !NewItem(s, Client(l), it)
    ensures From(s, Apply(s, Client(l)), it, Origin(s, Client(l), it))
  {
    if l.WriteOk? {
      SentComes(s, l.t, it);
    } else if l.ReadOk? {
      ReceivedComes(s, l.t, l.frame, it);
    } else if l.DialOk? {
      DialShape(s, l.t);
      DialPlaces(s, Apply(s, Client(l)), l.t, it);
    } else {
      OtherClientComes(s, l, it);
    }
  }

  lemma SentComes(s: System, t: C.Tid, it: Item)
    requires ClientEnabled(s, C.WriteOk(t)) && Present(Apply(s, Client(C.WriteOk(t))), it)
    ensures From(s, Apply(s, Client(C.WriteOk(t))), it, Origin(s, Client(C.WriteOk(t)), it))
  {}

  // The first untaken frame has gone from connection c to goroutine t.
  ghost predicate Received(s: System, s': System, t: C.Tid, c: Conn) {
    && s'.server == s.server && DownSet(s, s', c) && OneMoved(s.client, s'.client, t)
    && t in s.client.threads && s.client.threads[t].Reading?
    && var fl := s.pipes[c].down;
    && fl.taken < |fl.frames| && s'.pipes[c].down.taken == fl.taken + 1 && s'.pipes[c].down.frames == fl.frames
    && s'.client.threads[t].Handling? && s'.client.threads[t].conn == c
    && s'.client.threads[t].frame == fl.frames[fl.taken]
  }

  lemma ReceivedFrom(s: System, s': System, t: C.Tid, c: Conn, it: Item, o: Item)
    requires Received(s, s', t, c) && Present(s', it) && o == if it == Handling(t) then Down(c, s.pipes[c].down.taken)
        else it
    ensures From(s, s', it, o)
  {}

  lemma ReceivedShape(s: System, t: C.Tid, f: Frame, c: Conn, fl: Flow)
    requires ClientEnabled(s, C.ReadOk(t, f)) && c == s.client.threads[t].conn && fl == s.pipes[c].down
    requires fl.taken < |fl.frames| && f == fl.frames[fl.taken]
    ensures Received(s, Apply(s, Client(C.ReadOk(t, f))), t, c)
  {}

  lemma ReceivedComes(s: System, t: C.Tid, f: Frame, it: Item)
    requires PipesOk(s) && ClientEnabled(s, C.ReadOk(t, f)) && Present(Apply(s, Client(C.ReadOk(t, f))), it)
    ensures From(s, Apply(s, Client(C.ReadOk(t, f))), it, Origin(s, Client(C.ReadOk(t, f)), it))
  {
    var c := s.client.threads[t].conn;
    ReadIsNextFrame(s.pipes[c].down, f);
    ReceivedShape(s, t, f, c, s.pipes[c].down);
    ReceivedFrom(s, Apply(s, Client(C.ReadOk(t, f))), t, c, it, Origin(s, Client(C.ReadOk(t, f)), it));
  }

  lemma OtherClientComes(s: System, l: C.Label, it: Item)
    requires ClientEnabled(s, l) && !l.WriteOk? && !l.ReadOk? && !l.DialOk?
    requires Present(Apply(s, Client(l)), it) && !NewItem(s, Client(l), it)
    ensures From(s, Apply(s, Client(l)), it, it)
  {
    OtherClientShape(s, l);
    QuietFrom(s, Apply(s, Client(l)), l.t, it);
  }

  predicate HasFrame(pc: C.Pc) { pc.Writing? || pc.Handling? }

  // The wire and the server are as they were, and no goroutine has begun to write or to handle a frame.
  ghost predicate Quiet(s: System, s': System, t: C.Tid) {
    && s'.pipes == s.pipes && s'.server == s.server
    && (forall u :: u in s'.client.threads && HasFrame(s'.client.threads[u]) && u != t ==>
         u in s.client.threads && s'.client.threads[u] == s.client.threads[u])
  }

  lemma QuietFrom(s: System, s': System, t: C.Tid, it: Item)
    requires Quiet(s, s', t) && Present(s', it) && it != Writing(t) && it != Handling(t)
    ensures From(s, s', it, it)
  {}

  lemma OtherClientShape(s: System, l: C.Label)
    requires ClientEnabled(s, l) && !l.WriteOk? && !l.ReadOk? && !l.DialOk?
    ensures Quiet(s, Apply(s, Client(l)), l.t)
    ensures !Present(Apply(s, Client(l)), Handling(l.t))
    ensures Present(Apply(s, Client(l)), Writing(l.t)) ==> NewItem(s, Client(l), Writing(l.t))
  {
    ClientMovesOne(s.client, l);
    BeginsNoFrame(s.client, l);
  }

  // A goroutine begins to write only by registering, and to handle a frame only by reading one.
  lemma BeginsNoFrame(c: C.Sys, l: C.Label)
    requires C.Enabled(c, l) && !l.WriteOk? && !l.ReadOk? && !l.DialOk?
    ensures !C.Apply(c, l).threads[l.t].Handling?
    ensures C.Apply(c, l).threads[l.t].Writing? ==> l.Register? && !c.core.closed && Live(c.core)
  {}

  lemma ServerComes(s: System, l: S.Label, it: Item)
    requires PipesOk(s) && ServerEnabled(s, l) && Present(Apply(s, Server(l)), it)
    ensures From(s, Apply(s, Server(l)), it, Origin(s, Server(l), it))
  {
    if l.ReadOk? { TakenComes(s, l.p, l.frame, it); } else if l.Spawn? { StartedComes(s, l.p, l.g, it); }
    else if l.Write? { RepliedComes(s, l.g, it); } else { OtherServerComes(s, l, it); }
  }

  // The first untaken frame has gone from connection p to its handleConn.
  ghost predicate Taken(s: System, s': System, p: Conn) {
    && s'.client == s.client && UpSet(s, s', p) && s'.server.reqs == s.server.reqs
    && p in s.server.peers && s.server.peers[p].Serving?
    && p in s'.server.peers && s'.server.peers == s.server.peers[p := s'.server.peers[p]]
    && var fl := s.pipes[p].up;
    && fl.taken < |fl.frames| && s'.pipes[p].up.taken == fl.taken + 1 && s'.pipes[p].up.frames == fl.frames
    && (s'.server.peers[p].Draining? || s'.server.peers[p] == S.Got(fl.frames[fl.taken]))
  }

  lemma TakenFrom(s: System, s': System, p: Conn, it: Item, o: Item)
    requires Taken(s, s', p) && Present(s', it) && o == if it == AtConn(p) then Up(p, s.pipes[p].up.taken) else it
    ensures From(s, s', it, o)
  {}

  lemma TakenShape(s: System, p: Conn, f: Frame, fl: Flow)
    requires ServerEnabled(s, S.ReadOk(p, f)) && p in s.pipes && fl == s.pipes[p].up
    requires fl.taken < |fl.frames| && f == fl.frames[fl.taken]
    ensures Taken(s, Apply(s, Server(S.ReadOk(p, f))), p)
  {}

  lemma TakenComes(s: System, p: Conn, f: Frame, it: Item)
    requires PipesOk(s) && ServerEnabled(s, S.ReadOk(p, f)) && Present(Apply(s, Server(S.ReadOk(p, f))), it)
    ensures From(s, Apply(s, Server(S.ReadOk(p, f))), it, Origin(s, Server(S.ReadOk(p, f)), it))
  {
    if p in s.pipes {
      ReadIsNextFrame(s.pipes[p].up, f);
      TakenShape(s, p, f, s.pipes[p].up);
      TakenFrom(s, Apply(s, Server(S.ReadOk(p, f))), p, it, Origin(s, Server(S.ReadOk(p, f)), it));
    }
  }

  lemma StartedComes(s: System, p: Conn, g: S.Req, it: Item)
    requires ServerEnabled(s, S.Spawn(p, g)) && Present(Apply(s, Server(S.Spawn(p, g))), it)
    ensures From(s, Apply(s, Server(S.Spawn(p, g))), it, Origin(s, Server(S.Spawn(p, g)), it))
  {}

  lemma RepliedComes(s: System, g: S.Req, it: Item)
    requires ServerEnabled(s, S.Write(g)) && Present(Apply(s, Server(S.Write(g))), it)
    ensures From(s, Apply(s, Server(S.Write(g))), it, Origin(s, Server(S.Write(g)), it))
  {}

  lemma OtherServerComes(s: System, l: S.Label, it: Item)
    requires ServerEnabled(s, l) && !l.ReadOk? && !l.Spawn? && !l.Write? && Present(Apply(s, Server(l)), it)
    ensures From(s, Apply(s, Server(l)), it, it)
  {
    if l.Lookup? || l.Return? || l.Release? || l.Finish? { RequestComes(s, l, it); } else { ConnComes(s, l, it); }
  }

  // Request g has gone on, without becoming open again.
  ghost predicate GoesOn(s: System, s': System, g: S.Req) {
    && s'.client == s.client && s'.pipes == s.pipes && s'.server.peers == s.server.peers
    && g in s.server.reqs && g in s'.server.reqs && s'.server.reqs == s.server.reqs[g := s'.server.reqs[g]]
    && s'.server.reqs[g] == s.server.reqs[g].(pc := s'.server.reqs[g].pc)
    && (S.Attempted(s.server.reqs[g].pc) ==> S.Attempted(s'.server.reqs[g].pc))
    && (s.server.reqs[g].pc.Answered? ==> s'.server.reqs[g].pc.Answered? || S.Attempted(s'.server.reqs[g].pc))
  }

  lemma GoesOnFrom(s: System, s': System, g: S.Req, it: Item)
    requires GoesOn(s, s', g) && Present(s', it)
    ensures From(s, s', it, it)
  {}

  lemma GoesOnShape(s: System, l: S.Label)
    requires ServerEnabled(s, l) && (l.Lookup? || l.Return? || l.Release? || l.Finish?)
    ensures GoesOn(s, Apply(s, Server(l)), l.g)
  {}

  lemma RequestComes(s: System, l: S.Label, it: Item)
    requires ServerEnabled(s, l) && (l.Lookup? || l.Return? || l.Release? || l.Finish?)
    requires Present(Apply(s, Server(l)), it)
    ensures From(s, Apply(s, Server(l)), it, it)
  {
    GoesOnShape(s, l);
    GoesOnFrom(s, Apply(s, Server(l)), l.g, it);
  }

  lemma ConnComes(s: System, l: S.Label, it: Item)
    requires ServerEnabled(s, l) && !l.ReadOk? && !l.Spawn? && !l.Write? && Present(Apply(s, Server(l)), it)
    requires !(l.Lookup? || l.Return? || l.Release? || l.Finish?)
    ensures From(s, Apply(s, Server(l)), it, it)
  {}

  lemma FailedWriteComes(s: System, t: C.Tid, cut: nat, it: Item)
    requires Enabled(s, ClientWriteFails(t, cut)) && Present(Apply(s, ClientWriteFails(t, cut)), it)
    ensures From(s, Apply(s, ClientWriteFails(t, cut)), it, it)
  {}

  lemma FailedReplyComes(s: System, g: S.Req, cut: nat, it: Item)
    requires Enabled(s, ServerWriteFails(g, cut)) && Present(Apply(s, ServerWriteFails(g, cut)), it)
    ensures From(s, Apply(s, ServerWriteFails(g, cut)), it, it)
  {}

  lemma PushComes(s: System, l: Label, it: Item)
    requires Enabled(s, l) && l.Push? && Present(Apply(s, l), it) && !NewItem(s, l, it)
    ensures From(s, Apply(s, l), it, it)
  {}

  /** Every item comes from one that was there before the step, but for a new request and a push.  */
  lemma Comes(s: System, l: Label, it: Item)
    requires Inv(s) && Enabled(s, l) && Present(Apply(s, l), it) && !NewItem(s, l, it)
    ensures From(s, Apply(s, l), it, Origin(s, l, it))
  {
    match l
    case Client(c) => ClientComes(s, c, it);
    case ClientWriteFails(t, cut) => FailedWriteComes(s, t, cut, it);
    case Server(c) => ServerComes(s, c, it);
    case ServerWriteFails(g, cut) => FailedReplyComes(s, g, cut, it);
    case Push(_, _, _) => PushComes(s, l, it);
  }

  // Two items never come from one.
  lemma OriginsDiffer(s: System, l: Label, it: Item, it': Item)
    requires Enabled(s, l) && it != it' && Origin(s, l, it) == Origin(s, l, it')
    ensures it == Origin(s, l, it') || it' == Origin(s, l, it)
  {}

  /************ The invariant ************/

  ghost function CallAt(s: System, it: Item): Call
    requires Present(s, it)
  {
    var f := FrameOf(s, it);
    Call(ConnOf(s, it), f.hdr.callId, f.hdr.methodId, f.payload)
  }

  // The number of an open request is that of its call, no other open request has it, and no answer.
  ghost predicate NumberOk(s: System, b: Numbers, it: Item) {
    Open(s, it) ==>
      && b.tag(it) < |b.calls| && b.calls[b.tag(it)] == CallAt(s, it)
      && forall i :: 0 <= i < |b.replies| ==> b.replies[i].n != b.tag(it)
  }

  ghost predicate NumbersOk(s: System, b: Numbers) {
    && (forall it :: NumberOk(s, b, it))
    && (forall it, it' :: Open(s, it) && Open(s, it') && b.tag(it) == b.tag(it') ==> it == it')
  }

  // Every answer was produced for the call of its number, and no call has two.
  ghost predicate RepliesOk(s: System, b: Numbers) {
    && (forall i :: 0 <= i < |b.replies| ==>
         && b.replies[i].n < |b.calls| && b.replies[i].answer.call == b.calls[b.replies[i].n]
         && b.replies[i].answer in s.book.produced)
    && (forall i, j :: 0 <= i < j < |b.replies| ==> b.replies[i].n != b.replies[j].n)
  }

  // What the client can still read carries the last number registered under its id.
  ghost predicate LastAt(s: System, b: Numbers, it: Item) {
    Present(s, it) && Readable(s.client, ConnOf(s, it)) && (IsAnswer(it) ==> IsResponse(s, it)) ==>
      FrameOf(s, it).hdr.callId in b.last && b.last[FrameOf(s, it).hdr.callId] == b.tag(it)
  }

  ghost predicate LastOk(s: System, b: Numbers) { forall it :: LastAt(s, b, it) }

  // The n-th call was answered so.
  ghost predicate Backed(b: Numbers, n: nat, status: int, payload: seq<byte>) {
    exists r :: r in b.replies && r.n == n && S.U16(r.answer.code) == status && r.answer.payload == payload
  }

  // A response in flight, or about to be written, is an answer to the call of its number.
  ghost predicate BackedAt(s: System, b: Numbers, it: Item) {
    && (IsResponse(s, it) ==> Backed(b, b.tag(it), FrameOf(s, it).hdr.status, FrameOf(s, it).payload))
    && (Present(s, it) && it.AtReq? && s.server.reqs[it.g].pc.Answered? ==>
         Backed(b, b.tag(it), S.U16(s.server.reqs[it.g].pc.code), s.server.reqs[it.g].pc.payload))
  }

  ghost predicate BackedOk(s: System, b: Numbers) { forall it :: BackedAt(s, b, it) }

  // Callbacks have the numbers of their calls,
  ghost predicate CallsOk(calls: map<Cb, Call>, b: Numbers) {
    && (forall cb :: cb in b.of <==> cb in calls)
    && (forall cb :: cb in b.of ==> b.of[cb] < |b.calls| && b.calls[b.of[cb]] == calls[cb])
    && (forall cb, cb' :: cb in b.of && cb' in b.of && b.of[cb] == b.of[cb'] ==> cb == cb')
  }

  // and a pending one the last number registered under its id.
  ghost predicate PendingNumbered(pending: map<u32, Cb>, b: Numbers) {
    forall id :: id in pending ==> pending[id] in b.of && id in b.last && b.last[id] == b.of[pending[id]]
  }

  ghost predicate CallbacksOk(s: System, b: Numbers) {
    CallsOk(s.book.calls, b) && PendingNumbered(s.client.core.pending, b)
  }

  // cb's own call was answered so.
  ghost predicate Own(b: Numbers, cb: Cb, code: Code, payload: seq<byte>) {
    cb in b.of && exists r ::
      r in b.replies && r.n == b.of[cb] && S.U16(r.answer.code) == code && (code == OK ==> r.answer.payload == payload)
  }

  ghost predicate TellsOwn(b: Numbers, pc: C.Pc) { pc.Responding? ==> Own(b, pc.cb, pc.code, pc.payload) }

  ghost predicate ToldOk(c: C.Sys, b: Numbers) {
    && (forall t :: t in c.threads ==> TellsOwn(b, c.threads[t]))
    && (forall i :: 0 <= i < |c.invoked| && c.invoked[i].code == OK ==>
      Own(b, c.invoked[i].cb, OK, c.invoked[i].payload))
  }

  ghost predicate Kept(s: System, b: Numbers) {
    NumbersOk(s, b) && RepliesOk(s, b) && LastOk(s, b) && BackedOk(s, b) && CallbacksOk(s, b) && ToldOk(s.client, b)
  }

  /************ Items carry their numbers ************/

  // The item at `it` came from org(it), with its number, or is a push.
  ghost predicate CarriedAt(s: System, s': System, b: Numbers, b': Numbers, org: Item -> Item, it: Item) {
    Present(s', it) ==>
      || (IsAnswer(it) && !IsResponse(s', it) && !Present(s, it))
      || (&& From(s, s', it, org(it)) && b'.tag(it) == b.tag(org(it))
          && (Readable(s'.client, ConnOf(s', it)) ==> Readable(s.client, ConnOf(s, org(it)))))
  }

  ghost predicate ApartAt(s: System, s': System, org: Item -> Item, it: Item, it': Item) {
    Present(s', it) && Present(s', it') && it != it' ==> org(it) != org(it')
  }

  ghost predicate Carried(s: System, s': System, b: Numbers, b': Numbers, org: Item -> Item) {
    && (forall it :: CarriedAt(s, s', b, b', org, it))
    && (forall it, it' :: Open(s', it) && Open(s', it') ==> ApartAt(s, s', org, it, it'))
  }

  // The answers added are one, to the open request x, or none.
  ghost predicate AddsReply(s: System, s': System, b: Numbers, b': Numbers, org: Item -> Item, x: Item) {
    || b'.replies == b.replies
    || (&& Open(s, x) && (forall it :: Open(s', it) ==> org(it) != x)
        && |b'.replies| == |b.replies| + 1 && b'.replies[..|b.replies|] == b.replies
        && b'.replies[|b.replies|].n == b.tag(x) && b'.replies[|b.replies|].answer.call == CallAt(s, x)
        && b'.replies[|b.replies|].answer in s'.book.produced)
  }

  lemma NumbersCarry(s: System, s': System, b: Numbers, b': Numbers, org: Item -> Item, x: Item)
    requires NumbersOk(s, b) && Carried(s, s', b, b', org) && AddsReply(s, s', b, b', org, x) && b'.calls == b.calls
    ensures NumbersOk(s', b')
  {
    forall it ensures NumberOk(s', b', it) {
      if Open(s', it) {
        assert CarriedAt(s, s', b, b', org, it) && NumberOk(s, b, org(it));
        assert CallAt(s', it) == CallAt(s, org(it));
        forall i | 0 <= i < |b'.replies| ensures b'.replies[i].n != b'.tag(it) {
          if i < |b.replies| { assert b'.replies[i] == b.replies[i]; }
        }
      }
    }
    forall it, it' | Open(s', it) && Open(s', it') && b'.tag(it) == b'.tag(it') ensures it == it' {
      assert CarriedAt(s, s', b, b', org, it) && CarriedAt(s, s', b, b', org, it') && ApartAt(s, s', org, it, it');
    }
  }

  lemma RepliesCarry(s: System, s': System, b: Numbers, b': Numbers, org: Item -> Item, x: Item)
    requires NumbersOk(s, b) && RepliesOk(s, b) && AddsReply(s, s', b, b', org, x) && b'.calls == b.calls
    requires s.book.produced <= s'.book.produced
    ensures RepliesOk(s', b')
  {
    assert NumberOk(s, b, x);
    forall i | 0 <= i < |b'.replies|
      ensures b'.replies[i].n < |b'.calls| && b'.replies[i].answer.call == b'.calls[b'.replies[i].n]
      ensures b'.replies[i].answer in s'.book.produced
    {
      if i < |b.replies| { assert b'.replies[i] == b.replies[i]; }
    }
    forall i, j | 0 <= i < j < |b'.replies| ensures b'.replies[i].n != b'.replies[j].n {
      assert b'.replies[i] == b.replies[i] && (j < |b.replies| ==> b'.replies[j] == b.replies[j]);
    }
  }

  lemma LastCarry(s: System, s': System, b: Numbers, b': Numbers, org: Item -> Item)
    requires LastOk(s, b) && Carried(s, s', b, b', org) && b'.last == b.last
    ensures LastOk(s', b')
  {
    forall it ensures LastAt(s', b', it) {
      assert CarriedAt(s, s', b, b', org, it) && LastAt(s, b, org(it));
    }
  }

  lemma BackedGrows(b: Numbers, b': Numbers, n: nat, status: int, payload: seq<byte>)
    requires Backed(b, n, status, payload) && forall r :: r in b.replies ==> r in b'.replies
    ensures Backed(b', n, status, payload)
  {
    var r :| r in b.replies && r.n == n && S.U16(r.answer.code) == status && r.answer.payload == payload;
    assert r in b'.replies;
  }

  lemma OwnGrows(b: Numbers, b': Numbers, cb: Cb, code: Code, payload: seq<byte>)
    requires Own(b, cb, code, payload) && cb in b'.of && b'.of[cb] == b.of[cb]
    requires forall r :: r in b.replies ==> r in b'.replies
    ensures Own(b', cb, code, payload)
  {
    var r :| r in b.replies && r.n == b.of[cb] && S.U16(r.answer.code) == code
      && (code == OK ==> r.answer.payload == payload);
    assert r in b'.replies;
  }

  // A response is written for an answered request, and a request becomes answered by an answer.
  ghost predicate HandsOnAt(s: System, s': System, b': Numbers, org: Item -> Item, it: Item) {
    && (IsResponse(s', it) && !IsAnswer(org(it)) ==>
         && org(it).AtReq? && Present(s, org(it)) && s.server.reqs[org(it).g].pc.Answered?
         && FrameOf(s', it) == Response(s.server.reqs[org(it).g]))
    && (Present(s', it) && it.AtReq? && s'.server.reqs[it.g].pc.Answered? ==>
         || (org(it) == it && Present(s, it) && s.server.reqs[it.g].pc == s'.server.reqs[it.g].pc)
         || Backed(b', b'.tag(it), S.U16(s'.server.reqs[it.g].pc.code), s'.server.reqs[it.g].pc.payload))
  }

  lemma BackedCarry(s: System, s': System, b: Numbers, b': Numbers, org: Item -> Item)
    requires BackedOk(s, b) && Carried(s, s', b, b', org) && (forall r :: r in b.replies ==> r in b'.replies)
    requires forall it :: HandsOnAt(s, s', b', org, it)
    ensures BackedOk(s', b')
  {
    forall it ensures BackedAt(s', b', it) {
      var o := org(it);
      assert CarriedAt(s, s', b, b', org, it) && HandsOnAt(s, s', b', org, it) && BackedAt(s, b, o);
      if IsResponse(s', it) {
        BackedGrows(b, b', b.tag(o), FrameOf(s', it).hdr.status, FrameOf(s', it).payload);
      } else if Present(s', it) && it.AtReq? && s'.server.reqs[it.g].pc.Answered? && o == it && Present(s, it)
                && s.server.reqs[it.g].pc == s'.server.reqs[it.g].pc {
        BackedGrows(b, b', b.tag(o), S.U16(s'.server.reqs[it.g].pc.code), s'.server.reqs[it.g].pc.payload);
      }
    }
  }

  lemma CallbacksCarry(s: System, s': System, b: Numbers, b': Numbers)
    requires CallbacksOk(s, b) && b'.calls == b.calls && b'.of == b.of && b'.last == b.last
    requires s'.book.calls == s.book.calls
    requires forall id :: id in s'.client.core.pending ==>
      id in s.client.core.pending && s'.client.core.pending[id] == s.client.core.pending[id]
    ensures CallbacksOk(s', b')
  {}

  // Nothing that was there is changed or taken back.
  ghost predicate Extends(b: Numbers, b': Numbers) {
    && (forall r :: r in b.replies ==> r in b'.replies)
    && (forall cb :: cb in b.of ==> cb in b'.of && b'.of[cb] == b.of[cb])
  }

  lemma ToldCarry(c: C.Sys, c': C.Sys, b: Numbers, b': Numbers, t: C.Tid)
    requires ToldOk(c, b) && Extends(b, b')
    requires forall u :: u in c'.threads && u != t ==>
        (u in c.threads && c'.threads[u] == c.threads[u]) || c'.threads[u].Reading?
    requires t in c'.threads ==> TellsOwn(b, c'.threads[t])
    requires var v, v' := c.invoked, c'.invoked;
      v' == v || (|v'| == |v| + 1 && v'[..|v|] == v && (v'[|v|].code == OK ==> Own(b, v'[|v|].cb, OK, v'[|v|].payload)))
    ensures ToldOk(c', b')
  {
    forall u | u in c'.threads ensures TellsOwn(b', c'.threads[u]) {
      var pc := c'.threads[u];
      assert TellsOwn(b, pc);
      if pc.Responding? { OwnGrows(b, b', pc.cb, pc.code, pc.payload); }
    }
    forall i | 0 <= i < |c'.invoked| && c'.invoked[i].code == OK
      ensures Own(b', c'.invoked[i].cb, OK, c'.invoked[i].payload)
    {
      var inv := c'.invoked[i];
      assert i < |c.invoked| ==> inv == c.invoked[i];
      OwnGrows(b, b', inv.cb, OK, inv.payload);
    }
  }

  /************ One step ************/

  lemma PushIsNoResponse(s: System, l: Label, it: Item)
    requires PipesOk(s) && Enabled(s, l) && l.Push? && NewItem(s, l, it)
    ensures Present(Apply(s, l), it) && IsAnswer(it) && !IsResponse(Apply(s, l), it) && !Present(s, it)
  {}

  lemma ReadableBefore(s: System, l: Label, it: Item)
    requires Inv(s) && Enabled(s, l) && Present(Apply(s, l), it) && !NewItem(s, l, it)
    ensures Readable(Apply(s, l).client, ConnOf(Apply(s, l), it)) ==> Readable(s.client, ConnOf(Apply(s, l), it))
  {
    var s' := Apply(s, l);
    if Readable(s'.client, ConnOf(s', it)) {
      match l
      case Client(c) =>
        if c.DialOk? {
          DialShape(s, c.t);
          DialPlaces(s, s', c.t, it);
        }
        ClientReaders(s.client, c, ConnOf(s', it));
      case ClientWriteFails(t, _) => ClientReaders(s.client, C.WriteFails(t), ConnOf(s', it));
      case _ =>
    }
  }

  lemma CarriedStepAt(s: System, l: Label, b: Numbers, b': Numbers, org: Item -> Item, it: Item)
    requires Inv(s) && Enabled(s, l) && !Registers(s, l) && b'.tag(it) == b.tag(org(it)) && org(it) == Origin(s, l, it)
    ensures CarriedAt(s, Apply(s, l), b, b', org, it)
  {
    if Present(Apply(s, l), it) {
      if NewItem(s, l, it) {
        PushIsNoResponse(s, l, it);
      } else {
        Comes(s, l, it);
        ReadableBefore(s, l, it);
      }
    }
  }

  lemma ApartStepAt(s: System, l: Label, org: Item -> Item, it: Item, it': Item)
    requires Inv(s) && Enabled(s, l) && !Registers(s, l) && org(it) == Origin(s, l, it) && org(it') == Origin(s, l, it')
    requires Open(Apply(s, l), it) && Open(Apply(s, l), it')
    ensures ApartAt(s, Apply(s, l), org, it, it')
  {
    if it != it' && org(it) == org(it') {
      Comes(s, l, it);
      Comes(s, l, it');
      OriginsDiffer(s, l, it, it');
    }
  }

  lemma CarriedStep(s: System, l: Label, b: Numbers, b': Numbers, org: Item -> Item)
    requires Inv(s) && Enabled(s, l) && !Registers(s, l)
    requires forall it :: org(it) == Origin(s, l, it) && b'.tag(it) == b.tag(org(it))
    ensures Carried(s, Apply(s, l), b, b', org)
  {
    forall it ensures CarriedAt(s, Apply(s, l), b, b', org, it) { CarriedStepAt(s, l, b, b', org, it); }
    forall it, it' | Open(Apply(s, l), it) && Open(Apply(s, l), it') ensures ApartAt(s, Apply(s, l), org, it, it') {
      ApartStepAt(s, l, org, it, it');
    }
  }

  // serveRequest answers request g in this step.
  ghost predicate Answers(s: System, l: Label, g: S.Req) {
    l.Server? && (l.s.Lookup? || l.s.Return?) && l.s.g == g
  }

  // From s to s' request g goes on, and `rs` are the answers this gives; n is its number.
  ghost predicate Serves(s: System, s': System, g: S.Req, n: nat, rs: seq<Reply>) {
    && s'.pipes == s.pipes && s'.client == s.client && s'.server.peers == s.server.peers
    && s'.book.calls == s.book.calls
    && g in s.server.reqs && g in s'.server.reqs && s'.server.reqs == s.server.reqs[g := s'.server.reqs[g]]
    && s'.server.reqs[g] == s.server.reqs[g].(pc := s'.server.reqs[g].pc)
    && (s.server.reqs[g].pc.Started? || s.server.reqs[g].pc.Calling?)
    && (s'.server.reqs[g].pc.Calling? || s'.server.reqs[g].pc.Answered?)
    && var r, pc := s.server.reqs[g], s'.server.reqs[g].pc;
    && (if pc.Answered? && r.peer in s.pipes then rs == [Reply(n, EndToEnd.Answer(r, pc.code, pc.payload))]
      else rs == [])
    && (rs != [] ==> rs[0].answer in s'.book.produced)
  }

  lemma AnswerShape(s: System, l: Label, g: S.Req, b: Numbers)
    requires Enabled(s, l) && Answers(s, l, g)
    ensures Serves(s, Apply(s, l), g, b.tag(AtReq(g)), Replies(s, l, b))
  {}

  lemma ProducedGrows(s: System, l: Label)
    requires Enabled(s, l)
    ensures s.book.produced <= Apply(s, l).book.produced
  {}

  lemma NoAnswerShape(s: System, l: Label, b: Numbers)
    requires Enabled(s, l) && !(l.Server? && (l.s.Lookup? || l.s.Return?))
    ensures Replies(s, l, b) == []
  {}

  lemma ServesAdds(s: System, s': System, b: Numbers, b': Numbers, g: S.Req, rs: seq<Reply>, org: Item -> Item)
    requires Serves(s, s', g, b.tag(AtReq(g)), rs) && b'.replies == b.replies + rs && forall it :: org(it) == it
    ensures AddsReply(s, s', b, b', org, AtReq(g))
  {}

  // The step answers a request, or it answers none.
  lemma RepliesAdd(s: System, l: Label, b: Numbers, b': Numbers, org: Item -> Item) returns (x: Item)
    requires Enabled(s, l) && b'.replies == b.replies + Replies(s, l, b) && forall it :: org(it) == Origin(s, l, it)
    ensures AddsReply(s, Apply(s, l), b, b', org, x)
  {
    x := Writing(0);
    if l.Server? && (l.s.Lookup? || l.s.Return?) {
      x := AtReq(l.s.g);
      AnswerShape(s, l, l.s.g, b);
      ServesAdds(s, Apply(s, l), b, b', l.s.g, Replies(s, l, b), org);
    } else {
      NoAnswerShape(s, l, b);
    }
  }

  lemma ServesHandsOn(s: System, s': System, b: Numbers, b': Numbers, g: S.Req, rs: seq<Reply>, org: Item -> Item,
                      it: Item)
    requires Serves(s, s', g, b.tag(AtReq(g)), rs) && b'.replies == b.replies + rs && org(it) == it
    requires b'.tag(it) == b.tag(it)
    ensures HandsOnAt(s, s', b', org, it)
  {
    if it == AtReq(g) && Present(s', it) && s'.server.reqs[g].pc.Answered? {
      assert rs[0] in b'.replies;
    }
  }

  // A response came from a response, or from the answered request it was made for.
  lemma SameHandsOn(s: System, s': System, b': Numbers, org: Item -> Item, it: Item)
    requires Present(s', it) && From(s, s', it, org(it))
    requires IsResponse(s', it) && !IsAnswer(org(it)) ==>
      && org(it).AtReq? && s.server.reqs[org(it).g].pc.Answered?
      && FrameOf(s', it) == Response(s.server.reqs[org(it).g])
    requires it.AtReq? && s'.server.reqs[it.g].pc.Answered? ==>
      org(it) == it && it.g in s.server.reqs && s.server.reqs[it.g] == s'.server.reqs[it.g]
    ensures HandsOnAt(s, s', b', org, it)
  {}

  // No step but an answering one makes a request answered.
  lemma ServerAnsweredBefore(v: S.Server, l: S.Label, g: S.Req)
    requires S.Enabled(v, l) && !l.Lookup? && !l.Return? && g in S.Apply(v, l).reqs
    requires S.Apply(v, l).reqs[g].pc.Answered?
    ensures g in v.reqs && v.reqs[g] == S.Apply(v, l).reqs[g] && !(l.Spawn? && l.g == g)
  {}

  lemma AnsweredBefore(s: System, l: Label, g: S.Req)
    requires Enabled(s, l) && !(l.Server? && (l.s.Lookup? || l.s.Return?))
    requires g in Apply(s, l).server.reqs && Apply(s, l).server.reqs[g].pc.Answered?
    ensures g in s.server.reqs && s.server.reqs[g] == Apply(s, l).server.reqs[g] && Origin(s, l, AtReq(g)) == AtReq(g)
  {
    match l
    case Server(c) => ServerAnsweredBefore(s.server, c, g);
    case ServerWriteFails(h, _) => ServerAnsweredBefore(s.server, S.Write(h), g);
    case _ =>
  }

  // Only a write makes a response of a request.
  lemma ResponseBefore(s: System, l: Label, it: Item)
    requires Enabled(s, l) && IsAnswer(it) && !IsAnswer(Origin(s, l, it))
    ensures l.Server? && l.s.Write? && Origin(s, l, it) == AtReq(l.s.g) && s.server.reqs[l.s.g].pc.Answered?
  {}

  lemma WrittenFrame(s: System, g: S.Req, it: Item)
    requires Enabled(s, Server(S.Write(g))) && Present(Apply(s, Server(S.Write(g))), it)
    requires it != AtReq(g) && Origin(s, Server(S.Write(g)), it) == AtReq(g)
    ensures FrameOf(Apply(s, Server(S.Write(g))), it) == Response(s.server.reqs[g])
  {}

  lemma OtherHandsOn(s: System, l: Label, b': Numbers, org: Item -> Item, it: Item)
    requires Inv(s) && Enabled(s, l) && !(l.Server? && (l.s.Lookup? || l.s.Return?)) && org(it) == Origin(s, l, it)
    requires Present(Apply(s, l), it) && !NewItem(s, l, it)
    ensures HandsOnAt(s, Apply(s, l), b', org, it)
  {
    Comes(s, l, it);
    if it.AtReq? && Apply(s, l).server.reqs[it.g].pc.Answered? { AnsweredBefore(s, l, it.g); }
    if IsAnswer(it) && !IsAnswer(org(it)) {
      ResponseBefore(s, l, it);
      WrittenFrame(s, l.s.g, it);
    }
    SameHandsOn(s, Apply(s, l), b', org, it);
  }

  lemma NewHandsOn(s: System, l: Label, b': Numbers, org: Item -> Item, it: Item)
    requires PipesOk(s) && Enabled(s, l) && !Registers(s, l) && NewItem(s, l, it)
    ensures HandsOnAt(s, Apply(s, l), b', org, it)
  {
    PushIsNoResponse(s, l, it);
  }

  lemma HandsOnStep(s: System, l: Label, b: Numbers, b': Numbers, org: Item -> Item, it: Item)
    requires Inv(s) && Enabled(s, l) && !Registers(s, l) && b'.replies == b.replies + Replies(s, l, b)
    requires org(it) == Origin(s, l, it) && b'.tag(it) == b.tag(org(it))
    ensures HandsOnAt(s, Apply(s, l), b', org, it)
  {
    if l.Server? && (l.s.Lookup? || l.s.Return?) {
      AnswerShape(s, l, l.s.g, b);
      ServesHandsOn(s, Apply(s, l), b, b', l.s.g, Replies(s, l, b), org, it);
    } else if NewItem(s, l, it) {
      NewHandsOn(s, l, b', org, it);
    } else if Present(Apply(s, l), it) {
      OtherHandsOn(s, l, b', org, it);
    }
  }

  /************ Callbacks ************/

  lemma CallsSame(s: System, l: Label)
    requires Enabled(s, l) && !Registers(s, l)
    ensures Apply(s, l).book.calls == s.book.calls
  {}

  lemma PendingShrinks(s: System, l: Label)
    requires Enabled(s, l) && !Registers(s, l)
    ensures forall id :: id in Apply(s, l).client.core.pending ==>
      id in s.client.core.pending && Apply(s, l).client.core.pending[id] == s.client.core.pending[id]
  {
    match l
    case Client(c) => if !c.Register? { ClientPending(s.client, c); }
    case ClientWriteFails(t, _) => ClientPending(s.client, C.WriteFails(t));
    case _ =>
  }

  // The response a reader handles is the answer to the very call it completes.
  lemma HandleOwn(s: System, t: C.Tid, b: Numbers)
    requires LastOk(s, b) && BackedOk(s, b) && CallbacksOk(s, b) && C.Enabled(s.client, C.Handle(t))
    ensures TellsOwn(b, C.Apply(s.client, C.Handle(t)).threads[t])
  {
    var f := s.client.threads[t].frame;
    assert LastAt(s, b, Handling(t)) && BackedAt(s, b, Handling(t));
    assert Reads(s.client.threads[t], s.client.threads[t].conn);
    if f.hdr.ftype == RESPONSE && f.hdr.callId in s.client.core.pending {
      var cb := s.client.core.pending[f.hdr.callId];
      var r :| r in b.replies && r.n == b.tag(Handling(t)) && S.U16(r.answer.code) == f.hdr.status
        && r.answer.payload == f.payload;
      assert Own(b, cb, f.hdr.status, if f.hdr.status == OK then f.payload else []);
    }
  }

  lemma OthersTellNone(c: C.Sys, l: C.Label, b: Numbers)
    requires C.Enabled(c, l) && !l.Handle?
    ensures TellsOwn(b, C.Apply(c, l).threads[l.t])
  {}

  lemma InvokesOwn(c: C.Sys, l: C.Label, k: EndToEnd.Book, b: Numbers)
    requires C.Enabled(c, l) && (l.t in c.threads ==> OutcomeOk(k, c.threads[l.t]) && TellsOwn(b, c.threads[l.t]))
    ensures var v, v' := c.invoked, C.Apply(c, l).invoked;
      v' == v || (|v'| == |v| + 1 && v'[..|v|] == v && (v'[|v|].code == OK ==> Own(b, v'[|v|].cb, OK, v'[|v|].payload)))
  {}

  lemma ClientTold(s: System, l: C.Label, b: Numbers, b': Numbers)
    requires OutcomesOk(s) && LastOk(s, b) && BackedOk(s, b) && CallbacksOk(s, b) && ToldOk(s.client, b)
    requires C.Enabled(s.client, l) && Extends(b, b')
    ensures ToldOk(C.Apply(s.client, l), b')
  {
    if l.Handle? { HandleOwn(s, l.t, b); } else { OthersTellNone(s.client, l, b); }
    InvokesOwn(s.client, l, s.book, b);
    ClientMovesOne(s.client, l);
    ToldCarry(s.client, C.Apply(s.client, l), b, b', l.t);
  }

  function ClientLabel(l: Label): Option<C.Label> {
    match l
    case Client(c) => Some(c)
    case ClientWriteFails(t, _) => Some(C.WriteFails(t))
    case _ => None
  }

  lemma ClientSide(s: System, l: Label)
    requires Enabled(s, l)
    ensures ClientLabel(l).None? ==> Apply(s, l).client == s.client
    ensures ClientLabel(l).Some? ==>
      C.Enabled(s.client, ClientLabel(l).value) && Apply(s, l).client == C.Apply(s.client, ClientLabel(l).value)
  {}

  lemma ToldStep(s: System, l: Label, b: Numbers, b': Numbers)
    requires OutcomesOk(s) && LastOk(s, b) && BackedOk(s, b) && CallbacksOk(s, b) && ToldOk(s.client, b)
    requires Enabled(s, l) && Extends(b, b')
    ensures ToldOk(Apply(s, l).client, b')
  {
    ClientSide(s, l);
    if ClientLabel(l).Some? { ClientTold(s, ClientLabel(l).value, b, b'); } else { SameTold(s.client, b, b'); }
  }

  lemma SameTold(c: C.Sys, b: Numbers, b': Numbers)
    requires ToldOk(c, b) && Extends(b, b')
    ensures ToldOk(c, b')
  {
    if 0 in c.threads { assert TellsOwn(b, c.threads[0]); }
    ToldCarry(c, c, b, b', 0);
  }

  lemma OtherStepKeeps(s: System, l: Label, b: Numbers, b': Numbers)
    requires Inv(s) && Kept(s, b) && Enabled(s, l) && !Registers(s, l) && b' == Enter(s, l, b)
    ensures Kept(Apply(s, l), b')
  {
    var s', org := Apply(s, l), (it: Item) => Origin(s, l, it);
    CarriedStep(s, l, b, b', org);
    var x := RepliesAdd(s, l, b, b', org);
    ProducedGrows(s, l);
    NumbersCarry(s, s', b, b', org, x);
    RepliesCarry(s, s', b, b', org, x);
    LastCarry(s, s', b, b', org);
    forall it ensures HandsOnAt(s, s', b', org, it) { HandsOnStep(s, l, b, b', org, it); }
    BackedCarry(s, s', b, b', org);
    CallsSame(s, l);
    PendingShrinks(s, l);
    CallbacksCarry(s, s', b, b');
    ToldStep(s, l, b, b');
  }

  /************ A registration ************/

  // A call has been registered and its goroutine t is about to write the request; nothing else has changed.
  ghost predicate Begins(s: System, s': System, t: C.Tid, b: Numbers, b': Numbers, cb: Cb, call: Call) {
    && s'.pipes == s.pipes && s'.server == s.server && s'.book.produced == s.book.produced
    && OneMoved(s.client, s'.client, t) && !Present(s, Writing(t)) && !Present(s', Handling(t))
    && s'.client.threads[t].Writing? && s'.client.threads[t].conn == call.conn
    && s'.client.threads[t].frame == RequestFrame(call.id, call.methodId, call.request)
    && cb !in s.book.calls && s'.book.calls == s.book.calls[cb := call]
    && s'.client.core.pending == s.client.core.pending[call.id := cb]
    && var n := |b.calls|;
    && b'.calls == b.calls + [call] && b'.of == b.of[cb := n] && b'.last == b.last[call.id := n]
    && b'.replies == b.replies
    && (forall it :: b'.tag(it) == if it == Writing(t) then n else b.tag(it))
  }

  lemma RegisterShape(s: System, t: C.Tid, b: Numbers)
    requires AskedOk(s) && ClientEnabled(s, C.Register(t)) && Admits(s, t)
    ensures var pc, core := s.client.threads[t], s.client.core;
      Begins(s, Apply(s, Client(C.Register(t))), t, b, Registered(s, t, b), pc.cb,
        Call(core.conn.value, core.nextCallId, pc.methodId, pc.request))
  {
    var pc := s.client.threads[t];
    assert WorkOf(pc) == C.ForCall(pc.cb, pc.methodId, pc.request);
  }

  lemma BeginsSame(s: System, s': System, t: C.Tid, b: Numbers, b': Numbers, cb: Cb, call: Call, it: Item)
    requires Begins(s, s', t, b, b', cb, call) && Present(s', it) && it != Writing(t)
    ensures Present(s, it) && FrameOf(s', it) == FrameOf(s, it) && ConnOf(s', it) == ConnOf(s, it)
    ensures Open(s', it) <==> Open(s, it)
  {}

  lemma BeginsNumbers(s: System, s': System, t: C.Tid, b: Numbers, b': Numbers, cb: Cb, call: Call)
    requires Begins(s, s', t, b, b', cb, call) && NumbersOk(s, b) && RepliesOk(s, b)
    ensures NumbersOk(s', b') && RepliesOk(s', b')
  {
    forall it ensures NumberOk(s', b', it) {
      if Open(s', it) && it != Writing(t) {
        BeginsSame(s, s', t, b, b', cb, call, it);
        assert NumberOk(s, b, it);
      }
    }
    forall it, it' | Open(s', it) && Open(s', it') && b'.tag(it) == b'.tag(it') ensures it == it' {
      if it != Writing(t) { BeginsSame(s, s', t, b, b', cb, call, it); assert NumberOk(s, b, it); }
      if it' != Writing(t) { BeginsSame(s, s', t, b, b', cb, call, it'); assert NumberOk(s, b, it'); }
    }
  }

  lemma BeginsLast(s: System, s': System, t: C.Tid, b: Numbers, b': Numbers, cb: Cb, call: Call)
    requires Begins(s, s', t, b, b', cb, call) && LastOk(s, b) && IdFree(s, call.id) && ReadersFrom(s.client, s'.client)
    ensures LastOk(s', b')
  {
    forall it ensures LastAt(s', b', it) {
      if Present(s', it) && it != Writing(t) {
        BeginsSame(s, s', t, b, b', cb, call, it);
        assert LastAt(s, b, it) && !Occupies(s, it, call.id);
      }
    }
  }

  lemma BeginsBacked(s: System, s': System, t: C.Tid, b: Numbers, b': Numbers, cb: Cb, call: Call)
    requires Begins(s, s', t, b, b', cb, call) && BackedOk(s, b)
    ensures BackedOk(s', b')
  {
    forall it ensures BackedAt(s', b', it) {
      if Present(s', it) && it != Writing(t) {
        BeginsSame(s, s', t, b, b', cb, call, it);
        assert BackedAt(s, b, it);
        if IsResponse(s', it) { BackedGrows(b, b', b.tag(it), FrameOf(s', it).hdr.status, FrameOf(s', it).payload); }
        else if it.AtReq? && s'.server.reqs[it.g].pc.Answered? {
          BackedGrows(b, b', b.tag(it), S.U16(s'.server.reqs[it.g].pc.code), s'.server.reqs[it.g].pc.payload);
        }
      }
    }
  }

  lemma BeginsCallbacks(s: System, s': System, t: C.Tid, b: Numbers, b': Numbers, cb: Cb, call: Call)
    requires Begins(s, s', t, b, b', cb, call) && CallbacksOk(s, b)
    ensures CallbacksOk(s', b')
  {
    OneMoreCallback(s.book.calls, s'.book.calls, b, b', cb, call);
    OneMorePending(s.client.core.pending, s'.client.core.pending, b, b', cb, call.id);
  }

  lemma OneMoreCallback(calls: map<Cb, Call>, calls': map<Cb, Call>, b: Numbers, b': Numbers, cb: Cb, call: Call)
    requires CallsOk(calls, b) && cb !in calls && calls' == calls[cb := call]
    requires b'.calls == b.calls + [call] && b'.of == b.of[cb := |b.calls|]
    ensures CallsOk(calls', b')
  {}

  lemma OneMorePending(pending: map<u32, Cb>, pending': map<u32, Cb>, b: Numbers, b': Numbers, cb: Cb, id: u32)
    requires PendingNumbered(pending, b) && cb !in b.of && pending' == pending[id := cb]
    requires b'.of == b.of[cb := |b.calls|] && b'.last == b.last[id := |b.calls|]
    ensures PendingNumbered(pending', b')
  {}

  lemma BeginsKeeps(s: System, s': System, t: C.Tid, b: Numbers, b': Numbers, cb: Cb, call: Call)
    requires Begins(s, s', t, b, b', cb, call) && IdFree(s, call.id) && ReadersFrom(s.client, s'.client)
    requires NumbersOk(s, b) && RepliesOk(s, b) && LastOk(s, b) && BackedOk(s, b) && CallbacksOk(s, b)
    ensures NumbersOk(s', b') && RepliesOk(s', b') && LastOk(s', b') && BackedOk(s', b') && CallbacksOk(s', b')
    ensures Extends(b, b')
  {
    BeginsNumbers(s, s', t, b, b', cb, call);
    BeginsLast(s, s', t, b, b', cb, call);
    BeginsBacked(s, s', t, b, b', cb, call);
    BeginsCallbacks(s, s', t, b, b', cb, call);
  }

  lemma RegisterKeeps(s: System, l: Label, b: Numbers, b': Numbers)
    requires Inv(s) && Kept(s, b) && Enabled(s, l) && Sane(s, l) && Registers(s, l) && b' == Enter(s, l, b)
    ensures Kept(Apply(s, l), b')
  {
    var t, pc, core := l.c.t, s.client.threads[l.c.t], s.client.core;
    RegisterShape(s, t, b);
    ClientReadersFrom(s.client, l.c);
    BeginsKeeps(s, Apply(s, l), t, b, b', pc.cb, Call(core.conn.value, core.nextCallId, pc.methodId, pc.request));
    ToldStep(s, l, b, b');
  }

  /************ Every run ************/

  lemma {:induction false} RunKeeps(s: System, ls: seq<Label>, b: Numbers)
    requires Inv(s) && Kept(s, b) && Legal(s, ls) && SaneRun(s, ls)
    ensures Kept(Exec(s, ls), Entered(s, ls, b))
    decreases |ls|
  {
    if ls != [] {
      var b' := Enter(s, ls[0], b);
      if Registers(s, ls[0]) { RegisterKeeps(s, ls[0], b, b'); } else { OtherStepKeeps(s, ls[0], b, b'); }
      EndToEnd.StepKeeps(s, ls[0]);
      RunKeeps(Apply(s, ls[0]), ls[1..], b');
    }
  }

  lemma RunFromStart(max: int, ls: seq<Label>)
    requires Legal(EndToEnd.Init(max), ls) && SaneRun(EndToEnd.Init(max), ls)
    ensures Kept(Exec(EndToEnd.Init(max), ls), Entered(EndToEnd.Init(max), ls, Blank()))
  {
    InitInv(max);
    RunKeeps(EndToEnd.Init(max), ls, Blank());
  }

  /** In every run serveRequest answers each registered call at most once, with an answer to that call's method and
      request.  */
  lemma OneAnswerPerCall(max: int, ls: seq<Label>)
    requires Legal(EndToEnd.Init(max), ls) && SaneRun(EndToEnd.Init(max), ls)
    ensures var s, b := Exec(EndToEnd.Init(max), ls), Entered(EndToEnd.Init(max), ls, Blank());
      && (forall i, j :: 0 <= i < j < |b.replies| ==> b.replies[i].n != b.replies[j].n)
      && (forall i :: 0 <= i < |b.replies| ==>
           && b.replies[i].n < |b.calls| && b.replies[i].answer.call == b.calls[b.replies[i].n]
           && b.replies[i].answer in s.book.produced)
  {
    RunFromStart(max, ls);
  }

  // The n-th call was answered with this payload and a code that is OK on the wire.
  ghost predicate Answered(b: Numbers, n: nat, payload: seq<byte>) {
    exists r :: r in b.replies && r.n == n && r.answer.payload == payload && r.answer.code % TWO16 == 0
  }

  /** In every run a callback invoked with OK has the payload of the one answer to its own call: that of its
      registration, and of no other with the same id, method and request.  */
  lemma CompletedCallsGotTheirOwnAnswer(max: int, ls: seq<Label>, i: nat)
    requires Legal(EndToEnd.Init(max), ls) && SaneRun(EndToEnd.Init(max), ls)
    requires i < |Exec(EndToEnd.Init(max), ls).client.invoked|
    requires Exec(EndToEnd.Init(max), ls).client.invoked[i].code == OK
    ensures var s, b := Exec(EndToEnd.Init(max), ls), Entered(EndToEnd.Init(max), ls, Blank());
      var inv := s.client.invoked[i];
      && inv.cb in b.of && b.of[inv.cb] < |b.calls| && inv.cb in s.book.calls
      && b.calls[b.of[inv.cb]] == s.book.calls[inv.cb]
      && (forall cb :: cb in b.of && b.of[cb] == b.of[inv.cb] ==> cb == inv.cb)
      && Answered(b, b.of[inv.cb], inv.payload)
  {
    RunFromStart(max, ls);
    var s, b := Exec(EndToEnd.Init(max), ls), Entered(EndToEnd.Init(max), ls, Blank());
    assert Own(b, s.client.invoked[i].cb, OK, s.client.invoked[i].payload);
  }
}
