/** What the steps of the C++ channel do, said without the functions that do it: which callbacks a step tells what,
    which frames go to the wire for which calls, and what reaches on_push.  */
module CppEffects {
  import opened Framing
  import opened CppChannel
  import opened CppClient
  import W = WritePump

  /************ Who is told what ************/

  ghost predicate IsPending(i: Impl, tok: Token) { exists id :: id in i.pending && i.pending[id] == tok }

  // Every pending call fails with this code.
  ghost predicate FailsPending(i: Impl, code: Code, d: Delivery) {
    IsPending(i, d.tok) && d.code == code && d.payload == []
  }

  ghost predicate TellsWaiter(i: Impl, code: Code, d: Delivery) {
    d.tok in i.waiters && d.code == code && d.payload == []
  }

  ghost predicate TaskCause(i: Impl, t: Task, d: Delivery) {
    match t
    case ConnectT(tok) =>
      if i.state.Closed? || i.stopped then d == Delivery(tok, 14, [])
      else i.state.Connected? && d == Delivery(tok, 0, [])
    case CallT(tok, _, _) => i.stopped && d == Delivery(tok, 1, [])
    case ShutdownT => FailsPending(i, 1, d) || TellsWaiter(i, 1, d)
  }

  ghost predicate ReadCause(i: Impl, f: Frame, d: Delivery) {
    if f.hdr.ftype == PUSH then false
    else if f.hdr.ftype != RESPONSE then FailsPending(i, 13, d)
    else
      && f.hdr.callId in i.pending && d.tok == i.pending[f.hdr.callId]
      && d.code == f.hdr.status && d.payload == if f.hdr.status == 0 then f.payload else []
  }

  // The step l tells a callback d.
  ghost predicate Cause(s: Sys, l: Label, d: Delivery)
    requires Enabled(s, l)
  {
    match l
    case CallFails(tok, code) => d == Delivery(tok, code, [])
    case ConnectStart(tok) => s.impl.stopped && d == Delivery(tok, 14, [])
    case ConnectEnsures(tok) => !s.ioStarted && s.impl.stopped && d == Delivery(tok, 14, [])
    case RunTask(_) => TaskCause(s.impl, s.posted[s.ran], d)
    case CoroFails(code) => TellsWaiter(s.impl, code, d)
    case CoroConnects => TellsWaiter(s.impl, if s.impl.state.Closed? || s.impl.stopped then 1 else 0, d)
    case Reads(f, _) => ReadCause(s.impl, f, d)
    case ReadFails(code, _) => FailsPending(s.impl, code, d)
    case WriteFails(_, code, _) => FailsPending(s.impl, code, d)
    case RunsOne => s.impl.pushed[s.impl.popped] == Done(d)
    case ShutChecks(_) => !s.ioStarted && FailsPending(s.impl, 1, d)
    case _ => false
  }

  // From i to i' exactly ds are told.
  ghost predicate Tells(i: Impl, i': Impl, ds: seq<Delivery>) {
    || (i'.delivered == i.delivered + ds && i'.pushed == i.pushed)
    || (i'.delivered == i.delivered && i'.pushed == i.pushed + Completions(ds))
  }

  lemma TellsIff(i: Impl, i': Impl, ds: seq<Delivery>, d: Delivery)
    requires Tells(i, i', ds)
    ensures Told(i, i', d) <==> d in ds
  {
    if k :| 0 <= k < |ds| && ds[k] == d {
      if i'.delivered == i.delivered + ds {
        assert i'.delivered[|i.delivered| + k] == d;
      } else {
        assert i'.pushed[|i.pushed| + k] == Done(d);
      }
    }
    if Told(i, i', d) {
      if k :| |i.delivered| <= k < |i'.delivered| && i'.delivered[k] == d {
        assert ds[k - |i.delivered|] == d;
      } else {
        var k :| |i.pushed| <= k < |i'.pushed| && i'.pushed[k] == Done(d);
        assert ds[k - |i.pushed|] == d;
      }
    }
  }

  lemma FatesIff(i: Impl, order: seq<u32>, code: Code, d: Delivery)
    requires Lists(order, i.pending)
    ensures d in Fates(order, i.pending, code) <==> FailsPending(i, code, d)
  {
    if k :| 0 <= k < |order| && Fates(order, i.pending, code)[k] == d { assert order[k] in i.pending; }
    if FailsPending(i, code, d) {
      var id :| id in i.pending && i.pending[id] == d.tok;
      var k :| 0 <= k < |order| && order[k] == id;
      assert Fates(order, i.pending, code)[k] == d;
    }
  }

  lemma WaiterFatesIff(i: Impl, code: Code, d: Delivery)
    ensures d in WaiterFates(i.waiters, code) <==> TellsWaiter(i, code, d)
  {
    if TellsWaiter(i, code, d) {
      var k :| 0 <= k < |i.waiters| && i.waiters[k] == d.tok;
      assert WaiterFates(i.waiters, code)[k] == d;
    }
  }

  lemma TaskTells(i: Impl, t: Task, order: seq<u32>, d: Delivery)
    requires Lists(order, i.pending)
    ensures Told(i, TaskEffect(i, t, order), d) <==> TaskCause(i, t, d)
  {
    var i' := TaskEffect(i, t, order);
    match t
    case ConnectT(tok) =>
      if i.state.Closed? || i.stopped { TellsIff(i, i', [Delivery(tok, UNAVAILABLE, [])], d); }
      else if i.state.Connected? { TellsIff(i, i', [Delivery(tok, OK, [])], d); }
      else { assert i'.delivered == i.delivered + [] && i'.pushed == i.pushed; TellsIff(i, i', [], d); }
    case CallT(tok, _, _) =>
      if i.stopped { TellsIff(i, i', [Delivery(tok, CANCELLED, [])], d); }
      else { assert i'.delivered == i.delivered + []; TellsIff(i, i', [], d); }
    case ShutdownT =>
      var ds, ws := Fates(order, i.pending, CANCELLED), WaiterFates(i.waiters, CANCELLED);
      assert i'.delivered == i.delivered + (ds + ws);
      TellsIff(i, i', ds + ws, d);
      FatesIff(i, order, CANCELLED, d);
      WaiterFatesIff(i, CANCELLED, d);
  }

  lemma ReadTells(i: Impl, f: Frame, order: seq<u32>, d: Delivery)
    requires i.readers > 0 && Lists(order, i.pending)
    ensures Told(i, ReadFrame(i, f, order), d) <==> ReadCause(i, f, d)
  {
    var i' := ReadFrame(i, f, order);
    if f.hdr.ftype != PUSH && f.hdr.ftype != RESPONSE {
      TellsIff(i, i', Fates(order, i.pending, INTERNAL), d);
      FatesIff(i, order, INTERNAL, d);
    } else if f.hdr.ftype == RESPONSE && f.hdr.callId in i.pending {
      TellsIff(i, i', [FromFrame(i.pending[f.hdr.callId], f)], d);
    }
  }

  lemma CoroTells(i: Impl, code: Code, d: Delivery)
    requires i.coros > 0
    ensures Told(i, ConnectFails(i, code), d) <==> TellsWaiter(i, code, d)
    ensures Told(i, ConnectSucceeds(i), d) <==> TellsWaiter(i, if i.state.Closed? || i.stopped then 1 else 0, d)
  {
    TellsIff(i, ConnectFails(i, code), WaiterFates(i.waiters, code), d);
    WaiterFatesIff(i, code, d);
    var verdict := if i.state.Closed? || i.stopped then CANCELLED else OK;
    TellsIff(i, ConnectSucceeds(i), WaiterFates(i.waiters, verdict), d);
    WaiterFatesIff(i, verdict, d);
  }

  lemma FailureTells(s: Sys, l: Label, d: Delivery)
    requires Enabled(s, l) && (l.ReadFails? || l.WriteFails? || l.ShutChecks?)
    ensures Told(s.impl, Apply(s, l).impl, d) <==> Cause(s, l, d)
  {
    var code := if l.ShutChecks? then CANCELLED else l.code;
    FatesIff(s.impl, l.order, code, d);
    if !(l.ShutChecks? && s.ioStarted) { TellsIff(s.impl, Apply(s, l).impl, Fates(l.order, s.impl.pending, code), d); }
  }

  lemma CallerTells(s: Sys, l: Label, d: Delivery)
    requires Enabled(s, l) && OfCaller(l)
    ensures Told(s.impl, Apply(s, l).impl, d) <==> Cause(s, l, d)
  {
    var i, i' := s.impl, Apply(s, l).impl;
    if l.CallFails? {
      TellsIff(i, i', [Delivery(l.tok, l.code, [])], d);
    } else if (l.ConnectStart? && i.stopped) || (l.ConnectEnsures? && !s.ioStarted && i.stopped) {
      TellsIff(i, i', [Delivery(l.tok, UNAVAILABLE, [])], d);
    } else {
      assert i' == i;
    }
  }

  lemma QuietTells(s: Sys, l: Label, d: Delivery)
    requires Enabled(s, l) && (l.Writes? || l.RunsOne? || l.IoExits? || l.ShutStart? || l.ShutJoins? || l.ShutDrains?)
    ensures Told(s.impl, Apply(s, l).impl, d) <==> Cause(s, l, d)
  {
    var i, i' := s.impl, Apply(s, l).impl;
    if l.RunsOne? && i.pushed[i.popped].Done? { TellsIff(i, i', [i.pushed[i.popped].d], d); }
  }

  lemma StepTells(s: Sys, l: Label, d: Delivery)
    requires Enabled(s, l)
    ensures Told(s.impl, Apply(s, l).impl, d) <==> Cause(s, l, d)
  {
    if OfCaller(l) {
      CallerTells(s, l, d);
    } else if l.ReadFails? || l.WriteFails? || l.ShutChecks? {
      FailureTells(s, l, d);
    } else if l.RunTask? || l.Reads? || l.CoroFails? || l.CoroConnects? {
      StrandTells(s, l, d);
    } else {
      QuietTells(s, l, d);
    }
  }

  lemma StrandTells(s: Sys, l: Label, d: Delivery)
    requires Enabled(s, l) && (l.RunTask? || l.Reads? || l.CoroFails? || l.CoroConnects?)
    ensures Told(s.impl, Apply(s, l).impl, d) <==> Cause(s, l, d)
  {
    match l
    case RunTask(order) => TaskTells(s.impl, s.posted[s.ran], order, d);
    case CoroFails(code) => CoroTells(s.impl, code, d);
    case CoroConnects => CoroTells(s.impl, OK, d);
    case Reads(f, order) => ReadTells(s.impl, f, order, d);
  }

  /** In every run every step tells exactly what its cause says: a failed call its error, a connect request the
      verdict, every waiter the outcome of the connect, a response's own call its status and payload, every pending
      call the failure of the connection or CANCELLED at shutdown, and a turn of RunCallbacks what was queued
      first.  */
  lemma EveryStepTells(inline: bool, ls: seq<Label>, l: Label, d: Delivery)
    requires Legal(Init(inline), ls) && Enabled(Exec(Init(inline), ls), l)
    ensures var s := Exec(Init(inline), ls); Told(s.impl, Apply(s, l).impl, d) <==> Cause(s, l, d)
  {
    StepTells(Exec(Init(inline), ls), l, d);
  }

  // What of `pending` a frame leaves.
  lemma ReadLeaves(s: Sys, f: Frame, order: seq<u32>)
    requires Enabled(s, Reads(f, order))
    ensures Apply(s, Reads(f, order)).impl.pending ==
      if f.hdr.ftype == PUSH then s.impl.pending
      else if f.hdr.ftype == RESPONSE then s.impl.pending - {f.hdr.callId}
      else map[]
  {
    if f.hdr.callId !in s.impl.pending { assert s.impl.pending - {f.hdr.callId} == s.impl.pending; }
  }

  /** In every run a response read ends the call that has its id pending, and no other: its callback is told the
      response's status, and its payload with OK only.  A frame that is neither push nor response ends every call with
      INTERNAL, and a push none.  */
  lemma FramesEndTheirCalls(inline: bool, ls: seq<Label>, f: Frame, order: seq<u32>)
    requires Legal(Init(inline), ls) && Enabled(Exec(Init(inline), ls), Reads(f, order))
    ensures var s := Exec(Init(inline), ls); var s' := Apply(s, Reads(f, order));
      && (f.hdr.ftype == RESPONSE ==>
           && s'.impl.pending == s.impl.pending - {f.hdr.callId}
           && forall d :: Told(s.impl, s'.impl, d) <==>
                && f.hdr.callId in s.impl.pending && d.tok == s.impl.pending[f.hdr.callId]
                && d.code == f.hdr.status && d.payload == if f.hdr.status == 0 then f.payload else [])
      && (f.hdr.ftype == PUSH ==> s'.impl.pending == s.impl.pending && forall d :: !Told(s.impl, s'.impl, d))
      && (f.hdr.ftype != RESPONSE && f.hdr.ftype != PUSH ==>
           && s'.impl.pending == map[]
           && forall d :: Told(s.impl, s'.impl, d) <==> FailsPending(s.impl, 13, d))
  {
    var s := Exec(Init(inline), ls);
    ReadLeaves(s, f, order);
    forall d ensures Told(s.impl, Apply(s, Reads(f, order)).impl, d) <==> ReadCause(s.impl, f, d) {
      StepTells(s, Reads(f, order), d);
    }
  }

  /************ The calls on the wire ************/

  // f is the request for the call that task t makes, under this id.
  predicate IsCall(f: Frame, t: Task, id: u32) {
    && t.CallT? && f.hdr.ftype == REQUEST && f.hdr.status == 0 && f.hdr.callId == id
    && f.hdr.methodId == t.methodId && f.payload == t.request && f.hdr.payloadSize == |t.request| % 0x1_0000_0000
  }

  ghost predicate RunsCall(s: Sys, l: Label)
    requires Enabled(s, l)
  {
    l.RunTask? && s.posted[s.ran].CallT? && !s.impl.stopped
  }

  // The calls of a run: their tasks, in the order run, as far as the channel was not stopped.
  ghost function CallsRun(s: Sys, ls: seq<Label>): seq<Task>
    requires Legal(s, ls)
    decreases |ls|
  {
    if ls == [] then [] else CallOf(s, ls[0]) + CallsRun(Apply(s, ls[0]), ls[1..])
  }

  ghost function CallOf(s: Sys, l: Label): seq<Task>
    requires Enabled(s, l)
  {
    if RunsCall(s, l) then [s.posted[s.ran]] else []
  }

  // The k-th call has id (1 + k) modulo 2^32: its frame was enqueued k-th, and only under that id is it pending.
  ghost predicate CallsOk(i: Impl, cs: seq<Task>) {
    && |i.writer.enqueued| == |cs| && i.nextCallId == (1 + |cs|) % 0x1_0000_0000
    && (forall k :: 0 <= k < |cs| ==> IsCall(i.writer.enqueued[k], cs[k], (1 + k) % 0x1_0000_0000))
    && (forall id :: id in i.pending ==> HasId(cs, id, i.pending[id]))
  }

  ghost predicate HasId(cs: seq<Task>, id: u32, tok: Token) {
    exists k :: 0 <= k < |cs| && cs[k].CallT? && cs[k].tok == tok && id == (1 + k) % 0x1_0000_0000
  }

  // From i to i' the call of task t has been registered and its frame enqueued.
  ghost predicate Registers(i: Impl, i': Impl, t: Task) {
    && |i'.writer.enqueued| == |i.writer.enqueued| + 1
    && i'.writer.enqueued[..|i.writer.enqueued|] == i.writer.enqueued
    && IsCall(i'.writer.enqueued[|i.writer.enqueued|], t, i.nextCallId)
    && i'.nextCallId == (i.nextCallId + 1) % 0x1_0000_0000 && t.CallT? && TakesId(i, i', i.nextCallId, t.tok)
  }

  // tok has taken id, or the call that has it pending keeps it.
  ghost predicate TakesId(i: Impl, i': Impl, id: u32, tok: Token) {
    if id in i.pending then i'.pending == i.pending && i'.dropped == i.dropped + {tok}
    else i'.pending == i.pending[id := tok] && i'.dropped == i.dropped
  }

  lemma CallRegisters(i: Impl, t: Task)
    requires t.CallT? && !i.stopped
    ensures Registers(i, CallTask(i, t.tok, t.methodId, t.request), t)
  {}

  lemma CallKeepsCalls(i: Impl, i': Impl, cs: seq<Task>, t: Task)
    requires CallsOk(i, cs) && Registers(i, i', t)
    ensures CallsOk(i', cs + [t])
  {
    var cs' := cs + [t];
    forall k | 0 <= k < |cs'| ensures IsCall(i'.writer.enqueued[k], cs'[k], (1 + k) % 0x1_0000_0000) {
      if k < |cs| { assert i'.writer.enqueued[k] == i.writer.enqueued[k]; }
    }
    forall id | id in i'.pending ensures HasId(cs', id, i'.pending[id]) {
      if id in i.pending { HasIdStill(cs, t, id, i.pending[id]); } else { assert cs'[|cs|] == t; }
    }
    OneMore(|cs|);
  }

  lemma OneMore(n: nat)
    ensures ((1 + n) % 0x1_0000_0000 + 1) % 0x1_0000_0000 == (1 + (n + 1)) % 0x1_0000_0000
  {}

  lemma HasIdStill(cs: seq<Task>, t: Task, id: u32, tok: Token)
    requires HasId(cs, id, tok)
    ensures HasId(cs + [t], id, tok)
  {
    var k :| 0 <= k < |cs| && cs[k].CallT? && cs[k].tok == tok && id == (1 + k) % 0x1_0000_0000;
    assert (cs + [t])[k] == cs[k];
  }

  // Any other step leaves ids and frames alone and only takes calls out of `pending`.
  ghost predicate LeavesCalls(i: Impl, i': Impl) {
    && i'.nextCallId == i.nextCallId && i'.writer.enqueued == i.writer.enqueued
    && forall id :: id in i'.pending ==> id in i.pending && i'.pending[id] == i.pending[id]
  }

  lemma TaskLeavesCalls(i: Impl, t: Task, order: seq<u32>)
    requires Lists(order, i.pending) && (!t.CallT? || i.stopped)
    ensures LeavesCalls(i, TaskEffect(i, t, order))
  {}

  lemma ReadLeavesCalls(i: Impl, f: Frame, order: seq<u32>)
    requires i.readers > 0 && Lists(order, i.pending)
    ensures LeavesCalls(i, ReadFrame(i, f, order))
  {}

  lemma CoroLeavesCalls(s: Sys, l: Label)
    requires Enabled(s, l) && (l.CoroFails? || l.CoroConnects?)
    ensures LeavesCalls(s.impl, Apply(s, l).impl)
  {}

  lemma CallLeavesCalls(s: Sys, l: Label)
    requires Enabled(s, l) && (l.CallStart? || l.CallFails? || l.CallPosts?)
    ensures LeavesCalls(s.impl, Apply(s, l).impl)
  {}

  lemma ConnectLeavesCalls(s: Sys, l: Label)
    requires Enabled(s, l) && (l.ConnectStart? || l.ConnectEnsures? || l.ConnectPosts?)
    ensures LeavesCalls(s.impl, Apply(s, l).impl)
  {}

  lemma CallerLeavesCalls(s: Sys, l: Label)
    requires Enabled(s, l) && OfCaller(l)
    ensures LeavesCalls(s.impl, Apply(s, l).impl)
  {
    if l.CallStart? || l.CallFails? || l.CallPosts? { CallLeavesCalls(s, l); } else { ConnectLeavesCalls(s, l); }
  }

  lemma ChecksLeavesCalls(s: Sys, order: seq<u32>)
    requires Enabled(s, ShutChecks(order))
    ensures LeavesCalls(s.impl, Apply(s, ShutChecks(order)).impl)
  {}

  lemma RunsOneLeavesCalls(s: Sys)
    requires Enabled(s, RunsOne)
    ensures LeavesCalls(s.impl, Apply(s, RunsOne).impl)
  {}

  lemma ShutLeavesCalls(s: Sys, l: Label)
    requires Enabled(s, l) && OfShutdown(l)
    ensures LeavesCalls(s.impl, Apply(s, l).impl)
  {
    if l.ShutChecks? { ChecksLeavesCalls(s, l.order); } else if l.RunsOne? { RunsOneLeavesCalls(s); }
  }

  lemma OtherLeavesCalls(s: Sys, l: Label)
    requires Enabled(s, l) && !RunsCall(s, l)
    ensures LeavesCalls(s.impl, Apply(s, l).impl)
  {
    if OfCaller(l) {
      CallerLeavesCalls(s, l);
    } else if OfShutdown(l) {
      ShutLeavesCalls(s, l);
    } else {
      match l
      case RunTask(order) => TaskLeavesCalls(s.impl, s.posted[s.ran], order);
      case Reads(f, order) => ReadLeavesCalls(s.impl, f, order);
      case CoroFails(_) => CoroLeavesCalls(s, l);
      case CoroConnects => CoroLeavesCalls(s, l);
      case _ =>
    }
  }

  lemma StepCalls(s: Sys, l: Label, cs: seq<Task>)
    requires CallsOk(s.impl, cs) && Enabled(s, l)
    ensures CallsOk(Apply(s, l).impl, cs + CallOf(s, l))
  {
    if RunsCall(s, l) {
      CallRegisters(s.impl, s.posted[s.ran]);
      CallKeepsCalls(s.impl, Apply(s, l).impl, cs, s.posted[s.ran]);
    } else {
      OtherLeavesCalls(s, l);
      assert cs + [] == cs;
    }
  }

  lemma {:induction false} RunCalls(s: Sys, ls: seq<Label>, cs: seq<Task>)
    requires CallsOk(s.impl, cs) && Legal(s, ls)
    ensures CallsOk(Exec(s, ls).impl, cs + CallsRun(s, ls))
    decreases |ls|
  {
    if ls == [] {
      assert cs + [] == cs;
    } else {
      var one, rest := CallOf(s, ls[0]), CallsRun(Apply(s, ls[0]), ls[1..]);
      StepCalls(s, ls[0], cs);
      RunCalls(Apply(s, ls[0]), ls[1..], cs + one);
      assert cs + one + rest == cs + (one + rest);
    }
  }

  // What a caller and a task carry is what AsyncUnaryCall was entered with.
  ghost predicate AskedOk(s: Sys, past: seq<Label>) {
    && (forall tok :: tok in s.callers && s.callers[tok].Calling? ==>
         CallStart(tok, s.callers[tok].methodId, s.callers[tok].request) in past)
    && (forall k :: 0 <= k < |s.posted| && s.posted[k].CallT? ==>
         CallStart(s.posted[k].tok, s.posted[k].methodId, s.posted[k].request) in past)
  }

  lemma StepAsked(s: Sys, l: Label, past: seq<Label>)
    requires AskedOk(s, past) && Enabled(s, l)
    ensures AskedOk(Apply(s, l), past + [l])
  {}

  lemma {:induction false} RunAsked(s: Sys, ls: seq<Label>, past: seq<Label>, all: seq<Label>)
    requires AskedOk(s, past) && Legal(s, ls) && all == past + ls && 0 <= s.ran <= |s.posted|
    ensures forall k :: 0 <= k < |CallsRun(s, ls)| ==>
      var t := CallsRun(s, ls)[k]; t.CallT? && CallStart(t.tok, t.methodId, t.request) in all
    decreases |ls|
  {
    if ls != [] {
      StepAsked(s, ls[0], past);
      assert all == (past + [ls[0]]) + ls[1..];
      RunAsked(Apply(s, ls[0]), ls[1..], past + [ls[0]], all);
    }
  }

  /** In every run the k-th frame enqueued is the request of the k-th call run: with id (1 + k) modulo 2^32 and with
      the method and the request its AsyncUnaryCall was given.  A call is pending under its own id only.  */
  lemma CallsGoOut(inline: bool, ls: seq<Label>)
    requires Legal(Init(inline), ls)
    ensures var i, cs := Exec(Init(inline), ls).impl, CallsRun(Init(inline), ls);
      && |i.writer.enqueued| == |cs|
      && (forall k :: 0 <= k < |cs| ==>
           && IsCall(i.writer.enqueued[k], cs[k], (1 + k) % 0x1_0000_0000)
           && CallStart(cs[k].tok, cs[k].methodId, cs[k].request) in ls)
      && (forall id :: id in i.pending ==> HasId(cs, id, i.pending[id]))
  {
    RunCalls(Init(inline), ls, []);
    assert [] + CallsRun(Init(inline), ls) == CallsRun(Init(inline), ls);
    assert [] + ls == ls;
    RunAsked(Init(inline), ls, [], ls);
  }

  lemma TaskTakesId(s: Sys, order: seq<u32>, id: u32)
    requires Enabled(s, RunTask(order)) && RunsCall(s, RunTask(order)) && id == s.impl.nextCallId
    ensures TakesId(s.impl, Apply(s, RunTask(order)).impl, id, s.posted[s.ran].tok)
  {
    CallRegisters(s.impl, s.posted[s.ran]);
  }

  lemma NextId(inline: bool, ls: seq<Label>)
    requires Legal(Init(inline), ls)
    ensures Exec(Init(inline), ls).impl.nextCallId == (1 + |CallsRun(Init(inline), ls)|) % 0x1_0000_0000
  {
    RunCalls(Init(inline), ls, []);
    assert [] + CallsRun(Init(inline), ls) == CallsRun(Init(inline), ls);
  }

  /** In every run a call's task registers its callback under the next id, unless a call still pending has it.  */
  lemma CallTakesItsId(inline: bool, ls: seq<Label>, order: seq<u32>)
    requires Legal(Init(inline), ls) && Enabled(Exec(Init(inline), ls), RunTask(order))
    requires RunsCall(Exec(Init(inline), ls), RunTask(order))
    ensures var s, n := Exec(Init(inline), ls), |CallsRun(Init(inline), ls)|;
      TakesId(s.impl, Apply(s, RunTask(order)).impl, (1 + n) % 0x1_0000_0000, s.posted[s.ran].tok)
  {
    NextId(inline, ls);
    var s := Exec(Init(inline), ls);
    TaskTakesId(s, order, s.impl.nextCallId);
  }

  /************ The completion queue ************/

  // The deliveries, and the pushes, among completions.
  function Dones(cs: seq<Completion>): seq<Delivery> {
    if cs == [] then [] else Dones(cs[..|cs| - 1]) + if cs[|cs| - 1].Done? then [cs[|cs| - 1].d] else []
  }

  function Notes(cs: seq<Completion>): seq<Note> {
    if cs == [] then [] else Notes(cs[..|cs| - 1]) + if cs[|cs| - 1].PushNote? then [cs[|cs| - 1].note] else []
  }

  // What the turns of RunCallbacks in a run have told.
  ghost function ToldByTurns(s: Sys, ls: seq<Label>): seq<Delivery>
    requires Legal(s, ls)
    decreases |ls|
  {
    if ls == [] then [] else ToldByTurn(s, ls[0]) + ToldByTurns(Apply(s, ls[0]), ls[1..])
  }

  ghost function ToldByTurn(s: Sys, l: Label): seq<Delivery>
    requires Enabled(s, l)
  {
    ToldGrows(s, l);
    if l.RunsOne? then Apply(s, l).impl.delivered[|s.impl.delivered|..] else []
  }

  // The pushes a run has read.
  function PushesRead(ls: seq<Label>): seq<Note> {
    if ls == [] then [] else PushOf(ls[0]) + PushesRead(ls[1..])
  }

  function PushOf(l: Label): seq<Note> {
    if l.Reads? && l.frame.hdr.ftype == PUSH then [Note(l.frame.hdr.methodId, l.frame.payload)] else []
  }

  // The completions popped are what turns have told and what on_push has heard; all pushes read were queued.
  ghost predicate QueueOk(i: Impl, told: seq<Delivery>, read: seq<Note>) {
    && i.popped <= |i.pushed| && Dones(i.pushed[..i.popped]) == told
    && if i.inline then i.heard == read && i.pushed == []
       else i.heard == Notes(i.pushed[..i.popped]) && Notes(i.pushed) == read
  }

  // A turn takes the oldest completion.
  lemma TurnTakes(i: Impl, i': Impl, told: seq<Delivery>, read: seq<Note>, c: Completion)
    requires QueueOk(i, told, read) && i.popped < |i.pushed| && c == i.pushed[i.popped]
    requires i' == RunCompletion(i.(popped := i.popped + 1), c)
    ensures QueueOk(i', told + i'.delivered[|i.delivered|..], read)
  {
    var all, p := i.pushed, i.popped;
    assert all[..p + 1][..p] == all[..p] && all[..p + 1][p] == c;
    assert i'.delivered[|i.delivered|..] == if c.Done? then [c.d] else [];
  }

  // Completions are queued behind the others, and nothing is taken.
  ghost predicate Queues(i: Impl, i': Impl, more: seq<Completion>) {
    && i'.inline == i.inline && i'.popped == i.popped && i'.pushed == i.pushed + more
    && (i.inline ==> more == [])
  }

  lemma {:induction false} NotesAppend(cs: seq<Completion>, more: seq<Completion>)
    ensures Notes(cs + more) == Notes(cs) + Notes(more)
    decreases |more|
  {
    if more == [] {
      assert cs + more == cs;
    } else {
      var k := |more| - 1;
      assert (cs + more)[..|cs| + k] == cs + more[..k];
      NotesAppend(cs, more[..k]);
    }
  }

  lemma QueuesKeep(i: Impl, i': Impl, told: seq<Delivery>, read: seq<Note>, more: seq<Completion>, notes: seq<Note>)
    requires QueueOk(i, told, read) && Queues(i, i', more)
    requires if i.inline then i'.heard == i.heard + notes else i'.heard == i.heard && Notes(more) == notes
    ensures QueueOk(i', told, read + notes)
  {
    assert i'.pushed[..i'.popped] == i.pushed[..i.popped];
    if !i.inline { NotesAppend(i.pushed, more); }
  }

  lemma {:induction false} NoNotes(cs: seq<Completion>)
    requires forall k :: 0 <= k < |cs| ==> cs[k].Done?
    ensures Notes(cs) == []
    decreases |cs|
  {
    if cs != [] { NoNotes(cs[..|cs| - 1]); }
  }

  // Only deliveries have been queued, and under Inline dispatch not even those.
  ghost predicate OnlyDones(i: Impl, i': Impl) {
    && i'.inline == i.inline && i'.popped == i.popped && i'.heard == i.heard && i.pushed <= i'.pushed
    && (forall k :: |i.pushed| <= k < |i'.pushed| ==> i'.pushed[k].Done?)
    && (i.inline ==> i'.pushed == i.pushed)
  }

  lemma TaskOnlyDones(i: Impl, t: Task, order: seq<u32>)
    requires Lists(order, i.pending)
    ensures OnlyDones(i, TaskEffect(i, t, order))
  {}

  lemma ReadOnlyDones(i: Impl, f: Frame, order: seq<u32>)
    requires i.readers > 0 && Lists(order, i.pending) && f.hdr.ftype != PUSH
    ensures OnlyDones(i, ReadFrame(i, f, order))
  {}

  lemma CoroOnlyDones(i: Impl, code: Code)
    requires i.coros > 0
    ensures OnlyDones(i, ConnectFails(i, code)) && OnlyDones(i, ConnectSucceeds(i))
  {}

  lemma FailOnlyDones(s: Sys, l: Label)
    requires Enabled(s, l) && (l.ReadFails? || l.WriteFails? || l.ShutChecks?)
    ensures OnlyDones(s.impl, Apply(s, l).impl)
  {}

  lemma CallOnlyDones(s: Sys, l: Label)
    requires Enabled(s, l) && (l.CallStart? || l.CallFails? || l.CallPosts?)
    ensures OnlyDones(s.impl, Apply(s, l).impl)
  {}

  lemma ConnectOnlyDones(s: Sys, l: Label)
    requires Enabled(s, l) && (l.ConnectStart? || l.ConnectEnsures? || l.ConnectPosts?)
    ensures OnlyDones(s.impl, Apply(s, l).impl)
  {}

  lemma CallerOnlyDones(s: Sys, l: Label)
    requires Enabled(s, l) && OfCaller(l)
    ensures OnlyDones(s.impl, Apply(s, l).impl)
  {
    if l.CallStart? || l.CallFails? || l.CallPosts? { CallOnlyDones(s, l); } else { ConnectOnlyDones(s, l); }
  }

  lemma OtherOnlyDones(s: Sys, l: Label)
    requires Enabled(s, l) && !l.RunsOne? && !l.ShutDrains? && PushOf(l) == []
    ensures OnlyDones(s.impl, Apply(s, l).impl)
  {
    if OfCaller(l) {
      CallerOnlyDones(s, l);
    } else if l.ReadFails? || l.WriteFails? || l.ShutChecks? {
      FailOnlyDones(s, l);
    } else {
      match l
      case RunTask(order) => TaskOnlyDones(s.impl, s.posted[s.ran], order);
      case Reads(f, order) => ReadOnlyDones(s.impl, f, order);
      case CoroFails(code) => CoroOnlyDones(s.impl, code);
      case CoroConnects => CoroOnlyDones(s.impl, OK);
      case _ =>
    }
  }

  lemma DonesKeep(i: Impl, i': Impl, told: seq<Delivery>, read: seq<Note>)
    requires QueueOk(i, told, read) && OnlyDones(i, i')
    ensures QueueOk(i', told, read)
  {
    var more := i'.pushed[|i.pushed|..];
    NoNotes(more);
    QueuesKeep(i, i', told, read, more, []);
    assert read + [] == read;
  }

  lemma PushKeeps(i: Impl, f: Frame, order: seq<u32>, told: seq<Delivery>, read: seq<Note>)
    requires QueueOk(i, told, read) && f.hdr.ftype == PUSH && i.readers > 0 && Lists(order, i.pending)
    ensures QueueOk(ReadFrame(i, f, order), told, read + [Note(f.hdr.methodId, f.payload)])
  {
    var note := Note(f.hdr.methodId, f.payload);
    var more := if i.inline then [] else [PushNote(note)];
    assert [PushNote(note)][..0] == [];
    QueuesKeep(i, ReadFrame(i, f, order), told, read, more, [note]);
  }

  lemma StepQueue(s: Sys, l: Label, told: seq<Delivery>, read: seq<Note>)
    requires QueueOk(s.impl, told, read) && Enabled(s, l) && !l.ShutDrains?
    ensures QueueOk(Apply(s, l).impl, told + ToldByTurn(s, l), read + PushOf(l))
  {
    assert told + [] == told && read + [] == read;
    if l.RunsOne? {
      TurnTakes(s.impl, Apply(s, l).impl, told, read, s.impl.pushed[s.impl.popped]);
    } else if PushOf(l) != [] {
      PushKeeps(s.impl, l.frame, l.order, told, read);
    } else {
      OtherOnlyDones(s, l);
      DonesKeep(s.impl, Apply(s, l).impl, told, read);
    }
  }

  predicate NoDrain(ls: seq<Label>) { forall k :: 0 <= k < |ls| ==> !ls[k].ShutDrains? }

  lemma Unroll(s: Sys, ls: seq<Label>)
    requires Legal(s, ls) && ls != []
    ensures ToldByTurns(s, ls) == ToldByTurn(s, ls[0]) + ToldByTurns(Apply(s, ls[0]), ls[1..])
    ensures PushesRead(ls) == PushOf(ls[0]) + PushesRead(ls[1..])
  {}

  lemma Assoc<T>(a: seq<T>, b: seq<T>, c: seq<T>, bc: seq<T>)
    requires bc == b + c
    ensures a + b + c == a + bc
  {}

  lemma {:induction false} RunQueue(s: Sys, ls: seq<Label>, told: seq<Delivery>, read: seq<Note>,
                                    told': seq<Delivery>, read': seq<Note>)
    requires QueueOk(s.impl, told, read) && Legal(s, ls) && NoDrain(ls)
    requires told' == told + ToldByTurns(s, ls) && read' == read + PushesRead(ls)
    ensures QueueOk(Exec(s, ls).impl, told', read')
    decreases |ls|
  {
    if ls == [] {
      assert told' == told && read' == read;
    } else {
      Unroll(s, ls);
      Assoc(told, ToldByTurn(s, ls[0]), ToldByTurns(Apply(s, ls[0]), ls[1..]), ToldByTurns(s, ls));
      Assoc(read, PushOf(ls[0]), PushesRead(ls[1..]), PushesRead(ls));
      StepQueue(s, ls[0], told, read);
      RunQueue(Apply(s, ls[0]), ls[1..], told + ToldByTurn(s, ls[0]), read + PushOf(ls[0]), told', read');
    }
  }

  lemma ReturnedStays(s: Sys, l: Label)
    requires Control(s) && Enabled(s, l) && s.shutdown.Returned?
    ensures Apply(s, l).shutdown.Returned?
  {}

  lemma {:induction false} ReturnedForGood(s: Sys, ls: seq<Label>)
    requires Control(s) && Legal(s, ls) && s.shutdown.Returned?
    ensures Exec(s, ls).shutdown.Returned?
    decreases |ls|
  {
    if ls != [] {
      StepControl(s, ls[0]);
      ReturnedStays(s, ls[0]);
      ReturnedForGood(Apply(s, ls[0]), ls[1..]);
    }
  }

  lemma {:induction false} DrainReturns(s: Sys, ls: seq<Label>)
    requires Control(s) && Legal(s, ls) && !Exec(s, ls).shutdown.Returned?
    ensures NoDrain(ls)
    decreases |ls|
  {
    if ls != [] {
      StepControl(s, ls[0]);
      if ls[0].ShutDrains? { ReturnedForGood(Apply(s, ls[0]), ls[1..]); }
      DrainReturns(Apply(s, ls[0]), ls[1..]);
      assert forall k :: 0 < k < |ls| ==> ls[k] == ls[1..][k - 1];
    }
  }

  /** In every run, until Shutdown has returned: the turns of RunCallbacks tell exactly the deliveries queued, in
      their order, and every push read reaches on_push, in order: at once under Inline dispatch, and otherwise when
      its turn comes.  */
  lemma QueueRunsInOrder(inline: bool, ls: seq<Label>)
    requires Legal(Init(inline), ls) && !Exec(Init(inline), ls).shutdown.Returned?
    ensures var i := Exec(Init(inline), ls).impl;
      && i.popped <= |i.pushed| && ToldByTurns(Init(inline), ls) == Dones(i.pushed[..i.popped])
      && (inline ==> i.heard == PushesRead(ls))
      && (!inline ==> i.heard == Notes(i.pushed[..i.popped]) && Notes(i.pushed) == PushesRead(ls))
  {
    FromInit(inline, ls);
    FromInit(inline, []);
    DrainReturns(Init(inline), ls);
    RunQueue(Init(inline), ls, [], [], ToldByTurns(Init(inline), ls), PushesRead(ls));
  }

  // The step may run callbacks at once, whatever the dispatch: RunCallbacks itself, connect requests and Shutdown.
  ghost predicate AtOnce(s: Sys, l: Label)
    requires Enabled(s, l)
  {
    || l.RunsOne? || l.ConnectStart? || l.ConnectEnsures? || l.ShutChecks?
    || (l.RunTask? && !s.posted[s.ran].CallT?)
  }

  /** Under Manual dispatch a callback is run outside RunCallbacks only to answer a request to connect, or by
      Shutdown; under Inline dispatch none is ever queued.  */
  lemma ManualDispatchDefers(inline: bool, ls: seq<Label>, l: Label)
    requires Legal(Init(inline), ls) && Enabled(Exec(Init(inline), ls), l)
    ensures var s := Exec(Init(inline), ls);
      && (!inline && !AtOnce(s, l) ==> Apply(s, l).impl.delivered == s.impl.delivered)
      && (inline ==> s.impl.pushed == [])
  {
    FromInit(inline, ls);
    if !inline && !AtOnce(Exec(Init(inline), ls), l) { Defers(Exec(Init(inline), ls), l); }
  }

  lemma Defers(s: Sys, l: Label)
    requires Enabled(s, l) && !AtOnce(s, l) && !s.impl.inline
    ensures Apply(s, l).impl.delivered == s.impl.delivered
  {
    match l
    case RunTask(order) => assert s.posted[s.ran].CallT?;
    case Reads(f, order) => assert ReadFrame(s.impl, f, order).delivered == s.impl.delivered;
    case _ =>
  }
}
