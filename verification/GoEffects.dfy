/** What the Go channel tells its callbacks and why, said of the labels of a run and not of the functions that make
    its steps.  */
module GoEffects {
  import opened Framing
  import opened GoChannel
  import opened GoClient

  /************ Frames ************/

  // From s to s' the reader t has handled frame f of connection conn.
  ghost predicate Handled(s: Sys, s': Sys, t: Tid, conn: Conn, gen: u64, f: Frame) {
    && s'.core == s.core.(pending := s'.core.pending) && s'.invoked == s.invoked && t in s'.threads
    && if f.hdr.ftype == RESPONSE then
         && s'.core.pending == s.core.pending - {f.hdr.callId} && s'.heard == s.heard
         && s'.threads[t] ==
              if f.hdr.callId !in s.core.pending then Reading(conn, gen)
              else Responding(conn, gen, s.core.pending[f.hdr.callId], f.hdr.status,
                              if f.hdr.status == 0 then f.payload else [])
       else
         && s'.core.pending == s.core.pending
         && if f.hdr.ftype == PUSH
            then s'.threads[t] == Reading(conn, gen) && s'.heard == s.heard + [Heard(conn, f.hdr.methodId, f.payload)]
            else s'.threads[t] == Tearing(conn, gen, 13, true) && s'.heard == s.heard
  }

  // The next step of t runs cb with what response f says.
  ghost predicate RunsNext(s: Sys, t: Tid, cb: Cb, f: Frame) {
    && Enabled(s, Respond(t))
    && Apply(s, Respond(t)).invoked ==
         s.invoked + [Invocation(cb, f.hdr.status, if f.hdr.status == 0 then f.payload else [])]
  }

  /** In every run a response a reader handles ends the call that has its id pending, and no other: its callback is
      about to be run with the response's status, and its payload with OK only, and the next step of the reader runs
      it so.  A push goes to OnPush and ends none, and after any other frame the reader tears the connection down with
      INTERNAL.  */
  lemma FramesEndTheirCalls(ls: seq<Label>, t: Tid)
    requires Legal(Init(), ls) && Enabled(Exec(Init(), ls), Handle(t))
    ensures var s := Exec(Init(), ls); var pc, s' := s.threads[t], Apply(s, Handle(t));
      && Handled(s, s', t, pc.conn, pc.gen, pc.frame)
      && (pc.frame.hdr.ftype == RESPONSE && pc.frame.hdr.callId in s.core.pending ==>
           RunsNext(s', t, s.core.pending[pc.frame.hdr.callId], pc.frame))
  {
    var s := Exec(Init(), ls);
    var id := s.threads[t].frame.hdr.callId;
    assert id !in s.core.pending ==> s.core.pending - {id} == s.core.pending;
  }

  /************ Causes ************/

  // The connection, or the channel, was given up.
  predicate IsBreak(l: Label) { l.Close? || l.Teardown? || l.ReadFails? || l.WriteFails? }

  ghost predicate Broke(past: seq<Label>) { exists l :: l in past && IsBreak(l) }

  ghost predicate WasClosed(past: seq<Label>) { exists t :: Close(t) in past }

  predicate Says(f: Frame, code: Code, payload: seq<byte>) {
    f.hdr.ftype == RESPONSE && f.hdr.status == code && payload == if code == 0 then f.payload else []
  }

  ghost predicate WasRead(past: seq<Label>, f: Frame) { exists t :: ReadOk(t, f) in past }

  /** Why a callback may be told this: a response read says so; or the channel was closed, and it is told CANCELLED; or
      a frame was read that is neither push nor response, and it is told INTERNAL; or dialling failed, and it is told
      the dial's code; or the connection was given up, and it is told UNAVAILABLE.  */
  ghost predicate Why(past: seq<Label>, code: Code, payload: seq<byte>) {
    || (exists f :: WasRead(past, f) && Says(f, code, payload))
    || (payload == [] && FailCause(past, code))
  }

  ghost predicate FailCause(past: seq<Label>, code: Code) {
    || (code == 1 && WasClosed(past))
    || (code == 13 && exists f :: WasRead(past, f) && f.hdr.ftype != PUSH && f.hdr.ftype != RESPONSE)
    || (exists t :: DialFails(t, code) in past)
    || (code == 14 && Broke(past))
  }

  // The channel is connected, or was and is no more.
  ghost predicate WasLive(s: Sys, past: seq<Label>) { Live(s.core) || Broke(past) }

  ghost predicate PcOk(s: Sys, past: seq<Label>, pc: Pc) {
    match pc
    case Spawning(_, _, _) => WasLive(s, past)
    case Leaving(_, code) => if code == 0 then WasLive(s, past) else FailCause(past, code)
    case Registering(_, _, _) => WasLive(s, past)
    case Tearing(_, _, code, _) => FailCause(past, code)
    case Flushing(_, code) => FailCause(past, code)
    case Failing(_, code) => FailCause(past, code)
    case Handling(_, _, f) => WasRead(past, f)
    case Responding(_, _, _, code, payload) => Why(past, code, payload)
    case _ => true
  }

  ghost predicate CausesOk(s: Sys, past: seq<Label>) {
    && (s.core.closed ==> WasClosed(past))
    && (forall t :: t in s.threads ==> PcOk(s, past, s.threads[t]))
    && (forall i :: 0 <= i < |s.invoked| ==> Why(past, s.invoked[i].code, s.invoked[i].payload))
  }

  // What was a cause stays one.
  lemma CausesGrow(past: seq<Label>, l: Label, code: Code, payload: seq<byte>)
    ensures Broke(past) ==> Broke(past + [l])
    ensures WasClosed(past) ==> WasClosed(past + [l])
    ensures FailCause(past, code) ==> FailCause(past + [l], code)
    ensures Why(past, code, payload) ==> Why(past + [l], code, payload)
  {
    forall f | WasRead(past, f) ensures WasRead(past + [l], f) { ReadGrows(past, l, f); }
    if WasClosed(past) { ClosedGrows(past, l); }
    if t :| DialFails(t, code) in past { assert DialFails(t, code) in past + [l]; }
    if b :| b in past && IsBreak(b) { assert b in past + [l]; }
  }

  lemma ReadGrows(past: seq<Label>, l: Label, f: Frame)
    requires WasRead(past, f)
    ensures WasRead(past + [l], f)
  {
    var t :| ReadOk(t, f) in past;
    assert ReadOk(t, f) in past + [l];
  }

  lemma ClosedGrows(past: seq<Label>, l: Label)
    requires WasClosed(past)
    ensures WasClosed(past + [l])
  {
    var t :| Close(t) in past;
    assert Close(t) in past + [l];
  }

  // The channel is given up only by a teardown or by Close.
  lemma LiveGrows(s: Sys, l: Label, past: seq<Label>)
    requires Enabled(s, l) && WasLive(s, past)
    ensures WasLive(Apply(s, l), past + [l])
  {
    if Broke(past) {
      CausesGrow(past, l, 0, []);
    } else if !Live(Apply(s, l).core) {
      assert l in past + [l] && IsBreak(l);
    }
  }

  lemma PcGrows(s: Sys, l: Label, past: seq<Label>, pc: Pc)
    requires Enabled(s, l) && PcOk(s, past, pc)
    ensures PcOk(Apply(s, l), past + [l], pc)
  {
    match pc
    case Spawning(_, _, _) => LiveGrows(s, l, past);
    case Leaving(_, code) => if code == 0 { LiveGrows(s, l, past); } else { CausesGrow(past, l, code, []); }
    case Registering(_, _, _) => LiveGrows(s, l, past);
    case Tearing(_, _, code, _) => CausesGrow(past, l, code, []);
    case Flushing(_, code) => CausesGrow(past, l, code, []);
    case Failing(_, code) => CausesGrow(past, l, code, []);
    case Handling(_, _, f) => ReadGrows(past, l, f);
    case Responding(_, _, _, code, payload) => CausesGrow(past, l, code, payload);
    case _ =>
  }

  // The step itself gives up the connection, closes the channel, or reads a frame.
  lemma Now(past: seq<Label>, l: Label)
    ensures IsBreak(l) ==> Broke(past + [l])
    ensures l.Close? ==> WasClosed(past + [l])
    ensures l.ReadOk? ==> WasRead(past + [l], l.frame)
    ensures l.DialFails? ==> FailCause(past + [l], l.code)
  {
    assert (past + [l])[|past|] == l;
    if l.Close? { assert Close(l.t) in past + [l]; }
    if l.ReadOk? { assert ReadOk(l.t, l.frame) in past + [l]; }
    if l.DialFails? { assert DialFails(l.t, l.code) in past + [l]; }
  }

  lemma ClosedIsBroke(past: seq<Label>)
    requires WasClosed(past)
    ensures Broke(past)
  {
    var t :| Close(t) in past;
    assert IsBreak(Close(t));
  }

  lemma ConnectPc(s: Sys, l: Label, past: seq<Label>)
    requires CausesOk(s, past) && Enabled(s, l)
    requires l.Check? || l.Recheck? || l.DialFails? || l.Install? || l.Spawn? || l.Leave?
    ensures PcOk(Apply(s, l), past + [l], Apply(s, l).threads[l.t])
  {
    assert PcOk(s, past, s.threads[l.t]);
    PcGrows(s, l, past, s.threads[l.t]);
    Now(past, l);
    if s.core.closed {
      ClosedGrows(past, l);
      ClosedIsBroke(past + [l]);
    }
  }

  lemma RegisterPc(s: Sys, t: Tid, past: seq<Label>)
    requires CausesOk(s, past) && Enabled(s, Register(t))
    ensures PcOk(Apply(s, Register(t)), past + [Register(t)], Apply(s, Register(t)).threads[t])
  {
    assert PcOk(s, past, s.threads[t]);
    CausesGrow(past, Register(t), 0, []);
  }

  lemma FailPc(s: Sys, l: Label, past: seq<Label>)
    requires CausesOk(s, past) && Enabled(s, l)
    requires l.WriteFails? || l.ReadFails? || l.Teardown? || l.Close? || l.Flush? || l.Fail?
    ensures PcOk(Apply(s, l), past + [l], Apply(s, l).threads[l.t])
  {
    assert PcOk(s, past, s.threads[l.t]);
    PcGrows(s, l, past, s.threads[l.t]);
    Now(past, l);
  }

  lemma ReadPc(s: Sys, l: Label, past: seq<Label>)
    requires CausesOk(s, past) && Enabled(s, l) && (l.ReadOk? || l.Handle? || l.Respond?)
    ensures PcOk(Apply(s, l), past + [l], Apply(s, l).threads[l.t])
  {
    assert PcOk(s, past, s.threads[l.t]);
    Now(past, l);
    if l.Handle? {
      var f := s.threads[l.t].frame;
      ReadGrows(past, l, f);
      if f.hdr.ftype == RESPONSE { assert Says(f, f.hdr.status, if f.hdr.status == OK then f.payload else []); }
    }
  }

  lemma OwnPc(s: Sys, l: Label, past: seq<Label>)
    requires CausesOk(s, past) && Enabled(s, l)
    ensures PcOk(Apply(s, l), past + [l], Apply(s, l).threads[l.t])
  {
    match l
    case Check(_) => ConnectPc(s, l, past);
    case Recheck(_) => ConnectPc(s, l, past);
    case DialFails(_, _) => ConnectPc(s, l, past);
    case Install(_) => ConnectPc(s, l, past);
    case Spawn(_, _) => ConnectPc(s, l, past);
    case Leave(_) => ConnectPc(s, l, past);
    case Register(t) => RegisterPc(s, t, past);
    case ReadOk(_, _) => ReadPc(s, l, past);
    case Handle(_) => ReadPc(s, l, past);
    case Respond(_) => ReadPc(s, l, past);
    case WriteFails(_) => FailPc(s, l, past);
    case ReadFails(_) => FailPc(s, l, past);
    case Teardown(_) => FailPc(s, l, past);
    case Close(_) => FailPc(s, l, past);
    case Flush(_, _) => FailPc(s, l, past);
    case Fail(_) => FailPc(s, l, past);
    case _ =>
  }

  lemma OthersPc(s: Sys, l: Label, past: seq<Label>, u: Tid)
    requires CausesOk(s, past) && Enabled(s, l) && u in Apply(s, l).threads && u != l.t
    ensures PcOk(Apply(s, l), past + [l], Apply(s, l).threads[u])
  {
    OneMoves(s, l, u);
    if u in s.threads && Apply(s, l).threads[u] == s.threads[u] {
      assert PcOk(s, past, s.threads[u]);
      PcGrows(s, l, past, s.threads[u]);
    }
  }

  // A step moves its own goroutine, and Spawn starts a reader.
  lemma OneMoves(s: Sys, l: Label, u: Tid)
    requires Enabled(s, l) && u in Apply(s, l).threads && u != l.t
    ensures (u in s.threads && Apply(s, l).threads[u] == s.threads[u]) || Apply(s, l).threads[u].Reading?
  {}

  // A step makes one invocation at most, of what its goroutine holds.
  lemma Invokes(s: Sys, l: Label)
    requires Enabled(s, l)
    ensures var v, v' := s.invoked, Apply(s, l).invoked;
      || v' == v
      || (l.Flush? && v' == v + [Invocation(l.cb, s.threads[l.t].code, [])])
      || (l.Fail? && v' == v + [Invocation(s.threads[l.t].cb, s.threads[l.t].code, [])])
      || (l.Respond? && v' == v + [Invocation(s.threads[l.t].cb, s.threads[l.t].code, s.threads[l.t].payload)])
  {}

  lemma InvokesWhy(s: Sys, l: Label, past: seq<Label>, i: nat)
    requires CausesOk(s, past) && Enabled(s, l) && i < |Apply(s, l).invoked|
    ensures Why(past + [l], Apply(s, l).invoked[i].code, Apply(s, l).invoked[i].payload)
  {
    Invokes(s, l);
    var v := Apply(s, l).invoked[i];
    if i == |s.invoked| { assert PcOk(s, past, s.threads[l.t]); }
    assert Why(past, v.code, v.payload);
    CausesGrow(past, l, v.code, v.payload);
  }

  lemma ClosedWhy(s: Sys, l: Label, past: seq<Label>)
    requires CausesOk(s, past) && Enabled(s, l) && Apply(s, l).core.closed
    ensures WasClosed(past + [l])
  {
    if s.core.closed { ClosedGrows(past, l); } else { Now(past, l); }
  }

  lemma StepCauses(s: Sys, l: Label, past: seq<Label>)
    requires CausesOk(s, past) && Enabled(s, l)
    ensures CausesOk(Apply(s, l), past + [l])
  {
    var s' := Apply(s, l);
    if s'.core.closed { ClosedWhy(s, l, past); }
    forall u | u in s'.threads ensures PcOk(s', past + [l], s'.threads[u]) {
      if u == l.t { OwnPc(s, l, past); } else { OthersPc(s, l, past, u); }
    }
    forall i | 0 <= i < |s'.invoked| ensures Why(past + [l], s'.invoked[i].code, s'.invoked[i].payload) {
      InvokesWhy(s, l, past, i);
    }
  }

  lemma {:induction false} RunCauses(s: Sys, ls: seq<Label>, past: seq<Label>, all: seq<Label>)
    requires CausesOk(s, past) && Legal(s, ls) && all == past + ls
    ensures CausesOk(Exec(s, ls), all)
    decreases |ls|
  {
    if ls == [] {
      assert all == past;
    } else {
      StepCauses(s, ls[0], past);
      assert all == (past + [ls[0]]) + ls[1..];
      RunCauses(Apply(s, ls[0]), ls[1..], past + [ls[0]], all);
    }
  }

  /** In every run whatever a callback was told has its cause in the run: the response read, with its status and
      payload; Close, for CANCELLED; a frame of another type, for INTERNAL; the dial's own failure; or a connection
      given up, for UNAVAILABLE.  */
  lemma EveryInvocationHasItsCause(ls: seq<Label>, i: nat)
    requires Legal(Init(), ls) && i < |Exec(Init(), ls).invoked|
    ensures var v := Exec(Init(), ls).invoked[i]; Why(ls, v.code, v.payload)
  {
    assert [] + ls == ls;
    RunCauses(Init(), ls, [], ls);
  }
}
