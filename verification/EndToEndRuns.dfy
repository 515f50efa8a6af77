/** Runs of the whole system, step by step: a call that is answered, a failure that arrives as a success, and a
    response that completes the wrong call once 2^32 others have been registered.  */
module EndToEndRuns {
  import opened Framing
  import opened Flows
  import opened GoChannel
  import opened EndToEnd
  import C = GoClient
  import S = GoServer

  lemma {:induction false} Snoc(s: System, ls: seq<Label>, l: Label)
    requires Legal(s, ls) && EndToEnd.Enabled(Exec(s, ls), l)
    ensures Legal(s, ls + [l]) && Exec(s, ls + [l]) == EndToEnd.Apply(Exec(s, ls), l)
    ensures SaneRun(s, ls) && Sane(Exec(s, ls), l) ==> SaneRun(s, ls + [l])
    decreases |ls|
  {
    if ls == [] {
      assert [] + [l] == [l] && [l][1..] == [];
    } else {
      Snoc(EndToEnd.Apply(s, ls[0]), ls[1..], l);
      assert (ls + [l])[1..] == ls[1..] + [l];
    }
  }

  // Some run with small payloads ends in s; a sane one if asked.
  ghost predicate Reached(s: System, sane: bool) {
    exists ls :: Legal(EndToEnd.Init(0), ls) && Exec(EndToEnd.Init(0), ls) == s && SmallPayloads(ls)
      && (sane ==> SaneRun(EndToEnd.Init(0), ls))
  }

  predicate Small(l: Label) { SmallPayloads([l]) }

  lemma SmallSnoc(ls: seq<Label>, l: Label)
    requires SmallPayloads(ls) && Small(l)
    ensures SmallPayloads(ls + [l])
  {
    assert l in [l];
  }

  ghost function AllReached(sane: bool): iset<System> { iset s: System | Reached(s, sane) }

  // R is closed under step l from s.
  ghost predicate Goes(R: iset<System>, sane: bool, s: System, l: Label) {
    s in R && EndToEnd.Enabled(s, l) && Small(l) && (sane ==> Sane(s, l)) ==> EndToEnd.Apply(s, l) in R
  }

  // R holds the initial state and everything runs reach from it; the runs below need to know no more of it.
  ghost predicate Closed(R: iset<System>, sane: bool) { EndToEnd.Init(0) in R && forall s, l :: Goes(R, sane, s, l) }

  lemma ReachedIsClosed(sane: bool)
    ensures Closed(AllReached(sane), sane)
  {
    var R := AllReached(sane);
    assert Legal(EndToEnd.Init(0), []);
    forall s, l ensures Goes(R, sane, s, l) {
      if s in R && EndToEnd.Enabled(s, l) && Small(l) && (sane ==> Sane(s, l)) { Extend(s, l, sane); }
    }
  }

  lemma Extend(s: System, l: Label, sane: bool)
    requires Reached(s, sane) && EndToEnd.Enabled(s, l) && Small(l) && (sane ==> Sane(s, l))
    ensures Reached(EndToEnd.Apply(s, l), sane)
  {
    var ls :| Legal(EndToEnd.Init(0), ls) && Exec(EndToEnd.Init(0), ls) == s && SmallPayloads(ls)
      && (sane ==> SaneRun(EndToEnd.Init(0), ls));
    Snoc(EndToEnd.Init(0), ls, l);
    SmallSnoc(ls, l);
    assert Legal(EndToEnd.Init(0), ls + [l]);
  }

  lemma Step(R: iset<System>, s: System, l: Label, s': System, sane: bool)
    requires Closed(R, sane) && s in R && EndToEnd.Enabled(s, l) && Small(l) && (sane ==> Sane(s, l))
    requires s' == EndToEnd.Apply(s, l)
    ensures s' in R
  {
    assert Goes(R, sane, s, l);
  }

  // Client steps that touch neither wire nor history, and server steps likewise.
  predicate Quiet(l: C.Label) {
    !l.StartCall? && !l.DialOk? && !l.WriteOk? && !l.WriteFails? && !l.ReadOk? && !l.Register?
  }

  lemma ClientStep(R: iset<System>, s: System, l: C.Label, c': C.Sys, sane: bool)
    requires Closed(R, sane) && s in R && Quiet(l) && C.Enabled(s.client, l) && c' == C.Apply(s.client, l)
    ensures s.(client := c') in R
  {
    Step(R, s, Client(l), s.(client := c'), sane);
  }

  predicate QuietServer(l: S.Label) { !l.ReadOk? && !l.Lookup? && !l.Return? && !l.Write? }

  lemma ServerStep(R: iset<System>, s: System, l: S.Label, v': S.Server, sane: bool)
    requires Closed(R, sane) && s in R && QuietServer(l) && S.Enabled(s.server, l) && v' == S.Apply(s.server, l)
    ensures s.(server := v') in R
  {
    Step(R, s, Server(l), s.(server := v'), sane);
  }

  /************ A call is registered and sent ************/

  // Callback 0 asks for method 1, with no request bytes.
  const WORK: C.Work := C.ForCall(0, 1, [])
  const REQ: Frame := RequestFrame(1, 1, [])
  const ASKED: map<Cb, Ask> := map[0 := Ask(1, [])]

  function ClientAt(pc: C.Pc, mu: Option<C.Tid>, next: Conn): C.Sys {
    C.Sys(InitCore(), mu, map[0 := pc], next, {0}, [], {}, [], 0)
  }

  function At(client: C.Sys, pipes: map<Conn, Pipe>): System {
    System(client, S.Init(0), pipes, Book(ASKED, map[], map[], {}, 0))
  }

  const FRESH: map<Conn, Pipe> := map[0 := Pipe(EmptyFlow(), EmptyFlow())]

  lemma Starts(R: iset<System>)
    requires Closed(R, true)
    ensures At(ClientAt(C.Checking(WORK), None, 0), map[]) in R
  {
    var s0 := EndToEnd.Init(0);
    Step(R, s0, Client(C.StartCall(0, 0, 1, [])), At(ClientAt(C.Checking(WORK), None, 0), map[]), true);
  }

  lemma GoesToDial(R: iset<System>)
    requires Closed(R, true)
    ensures At(ClientAt(C.Dialing(WORK), Some(0), 0), map[]) in R
  {
    Starts(R);
    ClientStep(R, At(ClientAt(C.Checking(WORK), None, 0), map[]), C.Check(0), ClientAt(C.Waiting(WORK), None, 0), true);
    ClientStep(R, At(ClientAt(C.Waiting(WORK), None, 0), map[]), C.LockMu(0), ClientAt(C.Rechecking(WORK), Some(0), 0),
      true);
    ClientStep(R, At(ClientAt(C.Rechecking(WORK), Some(0), 0), map[]), C.Recheck(0),
      ClientAt(C.Dialing(WORK), Some(0), 0), true);
  }

  lemma Dials(R: iset<System>)
    requires Closed(R, true)
    ensures At(ClientAt(C.Dialed(WORK, 0), Some(0), 1), FRESH) in R
  {
    GoesToDial(R);
    Step(R, At(ClientAt(C.Dialing(WORK), Some(0), 0), map[]), Client(C.DialOk(0)),
      At(ClientAt(C.Dialed(WORK, 0), Some(0), 1), FRESH), true);
  }

  function Linked(core: Core, pc: C.Pc, mu: Option<C.Tid>): C.Sys {
    C.Sys(core, mu, map[0 := pc, 1 := C.Reading(0, 1)], 1, {0}, [], {}, [], 1)
  }

  const LIVE: Core := Core(Some(0), true, false, 1, 1, map[])
  const BUSY: Core := Core(Some(0), true, false, 1, 2, map[1 := 0])

  lemma Installs(R: iset<System>)
    requires Closed(R, true)
    ensures At(Linked(LIVE, C.Leaving(WORK, OK), Some(0)), FRESH) in R
  {
    Dials(R);
    var c := C.Sys(LIVE, Some(0), map[0 := C.Spawning(WORK, 0, 1)], 1, {0}, [], {}, [], 1);
    ClientStep(R, At(ClientAt(C.Dialed(WORK, 0), Some(0), 1), FRESH), C.Install(0), c, true);
    ClientStep(R, At(c, FRESH), C.Spawn(0, 1), Linked(LIVE, C.Leaving(WORK, OK), Some(0)), true);
  }

  lemma Connects(R: iset<System>)
    requires Closed(R, true)
    ensures At(Linked(LIVE, C.Registering(0, 1, []), None), FRESH) in R
  {
    Installs(R);
    ClientStep(R, At(Linked(LIVE, C.Leaving(WORK, OK), Some(0)), FRESH), C.Leave(0),
      Linked(LIVE, C.Registering(0, 1, []), None), true);
  }

  // The book once the call is registered, with the answers in `produced`.
  function Booked(produced: set<Produced>): Book { Book(ASKED, map[0 := CALL], map[1 := 0], produced, 1) }

  const CALL: Call := Call(0, 1, 1, [])

  // Nothing carries an id yet.
  lemma NothingInFlight(s: System, id: u32)
    requires s.client.core.pending == map[] && s.pipes == FRESH && s.server == S.Init(0)
    requires forall t :: t in s.client.threads ==> !s.client.threads[t].Writing? && !s.client.threads[t].Handling?
    ensures IdFree(s, id)
  {}

  lemma RegistersFirst(R: iset<System>)
    requires Closed(R, true)
    ensures System(Linked(BUSY, C.Writing(0, 1, REQ), None), S.Init(0), FRESH, Booked({})) in R
  {
    Connects(R);
    var s := At(Linked(LIVE, C.Registering(0, 1, []), None), FRESH);
    NothingInFlight(s, 1);
    Step(R, s, Client(C.Register(0)), System(Linked(BUSY, C.Writing(0, 1, REQ), None), S.Init(0), FRESH, Booked({})),
      true);
  }

  function UpPipe(up: Flow): map<Conn, Pipe> { map[0 := Pipe(up, EmptyFlow())] }

  lemma Writes(R: iset<System>)
    requires Closed(R, true)
    ensures System(Linked(BUSY, C.Done, None), S.Init(0), UpPipe(AfterWrite(EmptyFlow(), REQ)), Booked({})) in R
  {
    RegistersFirst(R);
    Step(R, System(Linked(BUSY, C.Writing(0, 1, REQ), None), S.Init(0), FRESH, Booked({})), Client(C.WriteOk(0)),
         System(Linked(BUSY, C.Done, None), S.Init(0), UpPipe(AfterWrite(EmptyFlow(), REQ)), Booked({})), true);
  }

  /************ The server takes it ************/

  function ServerAt(peers: map<S.Peer, S.ConnPc>, inflight: map<S.Peer, nat>, reqs: map<S.Req, S.Request>): S.Server {
    S.Server(0, 0, false, map[1 := 0], if peers == map[] then {} else {0}, peers, inflight, reqs, [])
  }

  function Listening(pc: S.ConnPc): S.Server { ServerAt(map[0 := pc], map[0 := 0], map[]) }

  lemma Accepts(R: iset<System>, s: System)
    requires Closed(R, true) && s in R && s.server == S.Init(0)
    ensures s.(server := Listening(S.Serving)) in R
  {
    var v := ServerAt(map[], map[], map[]);
    ServerStep(R, s, S.RegisterMethod(1, 0), v, true);
    ServerStep(R, s.(server := v), S.Accept(0), Listening(S.Handshaking), true);
    ServerStep(R, s.(server := Listening(S.Handshaking)), S.Handshake(0, true), Listening(S.Serving), true);
  }

  // The flow after the only frame written to it has been read.
  lemma ReadsBack(f: Frame, fl: Flow)
    requires Sized(f) && fl == AfterWrite(EmptyFlow(), f)
    ensures CanRead(fl, f) && AfterRead(fl).frames == [f] && AfterRead(fl).taken == 1
  {
    assert FrameBytes(f) + [] == FrameBytes(f) && [] + FrameBytes(f) == FrameBytes(f)
      && FrameBytes(f)[0..] == FrameBytes(f);
    ParseFrame(f, []);
  }

  lemma ServerReads(R: iset<System>, s: System, f: Frame)
    requires Closed(R, true) && s in R && s.server == Listening(S.Serving) && f.hdr.ftype == REQUEST
    requires 0 in s.pipes && CanRead(s.pipes[0].up, f)
    ensures SetUp(s, 0, AfterRead(s.pipes[0].up)).(server := Listening(S.Got(f))) in R
  {
    Step(R, s, Server(S.ReadOk(0, f)), SetUp(s, 0, AfterRead(s.pipes[0].up)).(server := Listening(S.Got(f))), true);
  }

  function Serving(f: Frame, pc: S.ReqPc): S.Server {
    ServerAt(map[0 := S.Serving], map[0 := 1], map[0 := S.Request(0, f, pc)])
  }

  lemma Dispatches(R: iset<System>, s: System, f: Frame)
    requires Closed(R, true) && s in R && s.server == Listening(S.Got(f))
    ensures s.(server := Serving(f, S.Started)) in R
  {
    Counts(R, s, f);
    ServerStep(R, s.(server := Counted(f)), S.Spawn(0, 0), Serving(f, S.Started), true);
  }

  function Counted(f: Frame): S.Server { ServerAt(map[0 := S.Counted(f)], map[0 := 1], map[]) }

  lemma Counts(R: iset<System>, s: System, f: Frame)
    requires Closed(R, true) && s in R && s.server == Listening(S.Got(f))
    ensures s.(server := Counted(f)) in R
  {
    ServerStep(R, s, S.Acquire(0), Listening(S.Acquired(f)), true);
    ServerStep(R, s.(server := Listening(S.Acquired(f))), S.Count(0), Counted(f), true);
  }

  lemma Calls(R: iset<System>, s: System, f: Frame)
    requires Closed(R, true) && s in R && s.server == Serving(f, S.Started) && f.hdr.methodId == 1
    ensures s.(server := Serving(f, S.Calling(0))) in R
  {
    Step(R, s, Server(S.Lookup(0)), s.(server := Serving(f, S.Calling(0))), true);
  }

  function AnswerTo(f: Frame, code: Code, payload: seq<byte>): Produced {
    Produced(Call(0, f.hdr.callId, f.hdr.methodId, f.payload), code, payload)
  }

  // The handler returns.
  lemma Returns(R: iset<System>, s: System, f: Frame, code: Code, payload: seq<byte>)
    requires Closed(R, true) && s in R && s.server == Serving(f, S.Calling(0)) && |payload| < TWO32
    requires code != OK ==> payload == []
    ensures s.(server := Serving(f, S.Answered(code, payload)),
        book := s.book.(produced := s.book.produced + {AnswerTo(f, code, payload)})) in R
  {
    Step(R, s, Server(S.Return(0, code, payload)),
         s.(server := Serving(f, S.Answered(code, payload)),
           book := s.book.(produced := s.book.produced + {AnswerTo(f, code, payload)})), true);
  }

  // The handler has answered the first call, and the answer has not been written yet.
  predicate Parked(s: System, code: Code, payload: seq<byte>) {
    && s.client == Linked(BUSY, C.Done, None) && s.server == Serving(REQ, S.Answered(code, payload))
    && 0 in s.pipes && s.pipes[0].down == EmptyFlow() && s.book == Booked({AnswerTo(REQ, code, payload)})
  }

  lemma TakesRequest(R: iset<System>) returns (s: System)
    requires Closed(R, true)
    ensures s in R && s.client == Linked(BUSY, C.Done, None) && s.server == Listening(S.Got(REQ))
    ensures s.book == Booked({})
    ensures 0 in s.pipes && s.pipes[0].down == EmptyFlow()
  {
    Writes(R);
    var up := AfterWrite(EmptyFlow(), REQ);
    s := System(Linked(BUSY, C.Done, None), S.Init(0), UpPipe(up), Booked({}));
    Accepts(R, s);
    s := s.(server := Listening(S.Serving));
    ReadsBack(REQ, up);
    ServerReads(R, s, REQ);
    s := SetUp(s, 0, AfterRead(s.pipes[0].up)).(server := Listening(S.Got(REQ)));
  }

  lemma Parks(R: iset<System>, code: Code, payload: seq<byte>) returns (s: System)
    requires Closed(R, true) && |payload| < TWO32 && (code != OK ==> payload == [])
    ensures s in R && Parked(s, code, payload)
  {
    s := TakesRequest(R);
    Dispatches(R, s, REQ);
    s := s.(server := Serving(REQ, S.Started));
    Calls(R, s, REQ);
    s := s.(server := Serving(REQ, S.Calling(0)));
    Returns(R, s, REQ, code, payload);
    s := s.(server := Serving(REQ, S.Answered(code, payload)),
      book := s.book.(produced := s.book.produced + {AnswerTo(REQ, code, payload)}));
  }

  /************ The answer comes back ************/

  // Goroutine 1 reads connection 0, over which nothing has come yet.
  predicate Waits(s: System) {
    && 1 in s.client.threads && s.client.threads[1] == C.Reading(0, 1) && 0 in s.pipes && s.pipes[0].down == EmptyFlow()
  }

  lemma Replies(R: iset<System>, sane: bool, s: System, f: Frame, code: Code, payload: seq<byte>) returns (s': System)
    requires Closed(R, sane) && s in R && Waits(s) && s.server == Serving(f, S.Answered(code, payload))
    ensures s' in R && s'.client == s.client && s'.book == s.book && 0 in s'.pipes
    ensures s'.pipes[0].down == AfterWrite(EmptyFlow(), S.ResponseFrame(f, code, payload))
  {
    s' := WriteStep(R, sane, s, s.pipes[0].down, f, code, payload);
  }

  lemma WriteStep(R: iset<System>, sane: bool, s: System, down: Flow, f: Frame, code: Code, payload: seq<byte>)
    returns (s': System)
    requires Closed(R, sane) && s in R && 0 in s.pipes && s.pipes[0].down == down && !down.broken
    requires 0 in s.server.reqs && s.server.reqs[0] == S.Request(0, f, S.Answered(code, payload))
    ensures s' in R && s' == SetDown(s, 0, AfterWrite(down, S.ResponseFrame(f, code, payload))).(server := s'.server)
  {
    s' := EndToEnd.Apply(s, Server(S.Write(0)));
    Step(R, s, Server(S.Write(0)), s', sane);
  }

  lemma Receives(R: iset<System>, sane: bool, s: System, f: Frame) returns (s': System)
    requires Closed(R, sane) && s in R && 1 in s.client.threads && s.client.threads[1] == C.Reading(0, 1)
    requires 0 in s.pipes && CanRead(s.pipes[0].down, f)
    ensures s' in R && s'.client == C.Go(s.client, 1, C.Handling(0, 1, f)) && s'.book == s.book
  {
    s' := SetDown(s, 0, AfterRead(s.pipes[0].down)).(client := C.Apply(s.client, C.ReadOk(1, f)));
    Step(R, s, Client(C.ReadOk(1, f)), s', sane);
  }

  lemma Completes(R: iset<System>, sane: bool, s: System, f: Frame) returns (s': System)
    requires Closed(R, sane) && s in R && 1 in s.client.threads && s.client.threads[1] == C.Handling(0, 1, f)
    requires f.hdr.ftype == RESPONSE && f.hdr.callId in s.client.core.pending
    ensures s' in R && s'.book == s.book
    ensures s'.client.invoked == s.client.invoked
      + [C.Invocation(s.client.core.pending[f.hdr.callId], f.hdr.status, if f.hdr.status == OK then f.payload else [])]
  {
    var c1 := C.Apply(s.client, C.Handle(1));
    ClientStep(R, s, C.Handle(1), c1, sane);
    s' := s.(client := c1);
    ClientStep(R, s', C.Respond(1), C.Apply(c1, C.Respond(1)), sane);
    s' := s.(client := C.Apply(c1, C.Respond(1)));
  }

  // The answer is written, read, and completes whatever call has its id pending.
  lemma Delivers(R: iset<System>, sane: bool, s: System, f: Frame, code: Code, payload: seq<byte>) returns (s': System)
    requires Closed(R, sane) && s in R && Waits(s) && s.server == Serving(f, S.Answered(code, payload))
    requires |payload| < TWO32 && f.hdr.callId in s.client.core.pending
    ensures s' in R && s'.book == s.book
    ensures s'.client.invoked == s.client.invoked
      + [C.Invocation(s.client.core.pending[f.hdr.callId], S.U16(code), if S.U16(code) == OK then payload else [])]
  {
    var resp := S.ResponseFrame(f, code, payload);
    var s1 := Replies(R, sane, s, f, code, payload);
    ReadsBack(resp, s1.pipes[0].down);
    var s2 := Receives(R, sane, s1, resp);
    s' := Completes(R, sane, s2, resp);
  }

  lemma RunOf(s: System, sane: bool) returns (ls: seq<Label>)
    requires s in AllReached(sane)
    ensures Legal(EndToEnd.Init(0), ls) && Exec(EndToEnd.Init(0), ls) == s && SmallPayloads(ls)
    ensures sane ==> SaneRun(EndToEnd.Init(0), ls)
  {
    ls :| Legal(EndToEnd.Init(0), ls) && Exec(EndToEnd.Init(0), ls) == s && SmallPayloads(ls)
      && (sane ==> SaneRun(EndToEnd.Init(0), ls));
  }

  // The first call's handler answers, and its callback hears what the wire carries of that.
  lemma FirstCall(code: Code, payload: seq<byte>) returns (ls: seq<Label>)
    requires |payload| < TWO32 && (code != OK ==> payload == [])
    ensures Legal(EndToEnd.Init(0), ls) && SaneRun(EndToEnd.Init(0), ls)
    ensures var s := Exec(EndToEnd.Init(0), ls);
      && s.client.invoked == [C.Invocation(0, S.U16(code), if S.U16(code) == OK then payload else [])]
      && s.book == Booked({AnswerTo(REQ, code, payload)})
  {
    ReachedIsClosed(true);
    var s := Parks(AllReached(true), code, payload);
    s := Delivers(AllReached(true), true, s, REQ, code, payload);
    ls := RunOf(s, true);
  }

  /** A sane run in which a call completes with OK.  */
  lemma SomeCallIsAnswered() returns (ls: seq<Label>)
    ensures Legal(EndToEnd.Init(0), ls) && SaneRun(EndToEnd.Init(0), ls)
    ensures Exec(EndToEnd.Init(0), ls).client.invoked == [C.Invocation(0, OK, [7])]
  {
    ls := FirstCall(OK, [7]);
  }

  /** A sane run in which a handler fails with code 65536 and the callback is told OK.  */
  lemma FailureArrivesAsSuccess() returns (ls: seq<Label>)
    ensures Legal(EndToEnd.Init(0), ls) && SaneRun(EndToEnd.Init(0), ls)
    ensures var s := Exec(EndToEnd.Init(0), ls);
      s.client.invoked == [C.Invocation(0, OK, [])] && s.book.calls == map[0 := CALL]
        && s.book.produced == {Produced(CALL, 65536, [])}
  {
    ls := FirstCall(65536, []);
  }

  /************ 2^32 calls later ************/

  lemma AnyIsSane(R: iset<System>)
    requires Closed(R, false)
    ensures Closed(R, true)
  {
    forall s, l ensures Goes(R, true, s, l) { assert Goes(R, false, s, l); }
  }

  predicate Open(c: C.Sys) { !c.core.closed && c.core.connected && c.core.conn == Some(0) && c.core.gen == 1 }

  function Begun(s: System, t: C.Tid, cb: Cb): System {
    s.(client := C.Go(s.client.(issued := s.client.issued + {cb}), t, C.Checking(C.ForCall(cb, 0, []))),
       book := s.book.(asked := s.book.asked[cb := Ask(0, [])]))
  }

  lemma Begins(R: iset<System>, s: System, t: C.Tid, cb: Cb)
    requires Closed(R, false) && s in R && Open(s.client) && t !in s.client.threads && cb !in s.client.issued
    ensures Begun(s, t, cb).(client := C.Go(Begun(s, t, cb).client, t, C.Registering(cb, 0, []))) in R
  {
    var s1 := Begun(s, t, cb);
    Step(R, s, Client(C.StartCall(t, cb, 0, [])), s1, false);
    ClientStep(R, s1, C.Check(t), C.Go(s1.client, t, C.Registering(cb, 0, [])), false);
  }

  // What registering callback cb leaves as it was, and what it adds; `issued` is all callbacks so far.
  predicate Adds(s: System, s': System, t: C.Tid, cb: Cb, issued: set<Cb>) {
    var id := s.client.core.nextCallId;
    && s'.server == s.server && s'.pipes == s.pipes && s'.book.produced == s.book.produced
    && s'.book.registered == s.book.registered + 1
    && s'.client.core == Registered(s.client.core, cb) && s'.client.invoked == s.client.invoked
    && s'.client.threads == s.client.threads[t := C.Writing(0, 1, RequestFrame(id, 0, []))]
    && s'.client.issued == issued
    && s'.book.calls == s.book.calls[cb := Call(0, id, 0, [])]
  }

  lemma AddsOne(R: iset<System>, s: System, t: C.Tid, cb: Cb) returns (s': System)
    requires Closed(R, false) && s in R && Open(s.client) && t !in s.client.threads && cb !in s.client.issued
    ensures s' in R && Adds(s, s', t, cb, s.client.issued + {cb})
  {
    Begins(R, s, t, cb);
    var s1 := Begun(s, t, cb).(client := C.Go(Begun(s, t, cb).client, t, C.Registering(cb, 0, [])));
    s' := RegisterAt(R, s1, t, cb);
  }

  // A goroutine that is about to register does.
  lemma RegisterAt(R: iset<System>, s: System, t: C.Tid, cb: Cb) returns (s': System)
    requires Closed(R, false) && s in R && Open(s.client) && t in s.client.threads
    requires s.client.threads[t] == C.Registering(cb, 0, [])
    ensures s' in R && Adds(s, s', t, cb, s.client.issued)
  {
    s' := EndToEnd.Apply(s, Client(C.Register(t)));
    Step(R, s, Client(C.Register(t)), s', false);
  }

  // k calls after the first, which is still unanswered.
  ghost predicate Filled(s0: System, s: System, k: nat) {
    && s.server == s0.server && s.pipes == s0.pipes && s.book.produced == s0.book.produced
    && s.book.registered == 1 + k && s.client.invoked == [] && Open(s.client)
    && s.client.core.nextCallId == C.IdOf(1 + k)
    && 1 in s.client.threads && s.client.threads[1] == C.Reading(0, 1)
    && (forall t :: t in s.client.threads ==> t <= 1 + k) && (forall cb :: cb in s.client.issued ==> cb <= k)
    && (k > 0 ==> C.IdOf(k) in s.client.core.pending && s.client.core.pending[C.IdOf(k)] == k
                  && k in s.book.calls && s.book.calls[k] == Call(0, C.IdOf(k), 0, []))
  }

  lemma {:induction false} Fills(R: iset<System>, s0: System, code: Code, payload: seq<byte>, k: nat)
    returns (s: System)
    requires Closed(R, false) && s0 in R && Parked(s0, code, payload)
    ensures s in R && Filled(s0, s, k)
    decreases k
  {
    if k == 0 {
      s := s0;
    } else {
      var s1 := Fills(R, s0, code, payload, k - 1);
      s := AddsOne(R, s1, 1 + k, k);
      FilledMore(s0, s1, s, k);
    }
  }

  lemma FilledMore(s0: System, s1: System, s: System, k: nat)
    requires k > 0 && Filled(s0, s1, k - 1) && Adds(s1, s, 1 + k, k, s1.client.issued + {k})
    ensures Filled(s0, s, k)
  {}

  /** The condition on ids is needed: a run with small payloads that registers 2^32 + 1 calls, and in which a
      callback told OK was never served, its payload being the answer to the first call.  */
  lemma IdReuseMisdelivers() returns (ls: seq<Label>)
    ensures Legal(EndToEnd.Init(0), ls) && SmallPayloads(ls)
    ensures var s := Exec(EndToEnd.Init(0), ls);
      && s.book.registered == TWO32 + 1 && s.client.invoked == [C.Invocation(TWO32, OK, [7])]
      && !Served(s.book, TWO32, [7])
  {
    var R := AllReached(false);
    ReachedIsClosed(false);
    AnyIsSane(R);
    var s0 := Parks(R, OK, [7]);
    var s1 := Fills(R, s0, OK, [7], TWO32);
    assert C.IdOf(TWO32) == 1;
    var s := Delivers(R, false, s1, REQ, OK, [7]);
    ls := RunOf(s, false);
  }
}
