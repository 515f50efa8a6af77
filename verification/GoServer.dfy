/** The server of go/server.go over all its connections: one goroutine per connection, one per
    request, a semaphore shared by all of them and one wait group per connection.  */
module GoServer {
  import opened Framing

  type Peer = nat
  type Req = nat        // identity of a request goroutine
  type Handler = nat
  type Code = int       // StatusCode; 0 is OK

  const OK: Code := 0
  const UNIMPLEMENTED: Code := 12

  // Where handleConn stands.
  datatype ConnPc =
    | Handshaking
    | Serving                     // at ReadFrame
    | Got(frame: Frame)           // a request read, before the semaphore
    | Acquired(frame: Frame)      // token taken, before inflight.Add
    | Counted(frame: Frame)       // inflight.Add(1) done, before `go`
    | Draining                    // returned; inside the deferred inflight.Wait()
    | Disconnected                // onDisconnect has run
    | Gone                        // removed from sessions

  // Where a request goroutine stands.
  datatype ReqPc =
    | Started
    | Calling(handler: Handler)
    | Answered(code: Code, payload: seq<byte>)
    | Written                     // response write attempted
    | Released                    // semaphore token returned
    | Finished                    // inflight.Done() done

  datatype Request = Request(peer: Peer, frame: Frame, pc: ReqPc)
  datatype Attempt = Attempt(g: Req, frame: Frame)

  /** `tokens` is len(s.sem); maxConcurrent <= 0 means no semaphore.  `attempts` is history: the
      response frames handed to WriteFrame.  */
  datatype Server = Server(maxConcurrent: int, tokens: nat, done: bool, handlers: map<u32, Handler>,
                           sessions: set<Peer>, peers: map<Peer, ConnPc>, inflight: map<Peer, nat>,
                           reqs: map<Req, Request>, attempts: seq<Attempt>)

  datatype Label =
    | RegisterMethod(id: u32, handler: Handler)
    | Shutdown
    | Accept(p: Peer)
    | Handshake(p: Peer, ok: bool)
    | ReadOk(p: Peer, frame: Frame)
    | ReadFails(p: Peer)
    | Acquire(p: Peer)
    | Abandon(p: Peer)                                // <-s.done won the select
    | Count(p: Peer)
    | Spawn(p: Peer, g: Req)
    | Lookup(g: Req)
    | Return(g: Req, code: Code, payload: seq<byte>)  // the handler returns
    | Write(g: Req)
    | Release(g: Req)
    | Finish(g: Req)
    | OnDisconnect(p: Peer)
    | Remove(p: Peer)

  function Init(maxConcurrent: int): Server {
    Server(maxConcurrent, 0, false, map[], {}, map[], map[], map[], [])
  }

  predicate HasSem(s: Server) { s.maxConcurrent > 0 }

  predicate ConnAt(s: Server, p: Peer) { p in s.peers && p in s.inflight }

  predicate Enabled(s: Server, l: Label) {
    match l
    case RegisterMethod(_, _) => true
    case Shutdown => true
    case Accept(p) => p !in s.peers
    case Handshake(p, _) => ConnAt(s, p) && s.peers[p].Handshaking?
    case ReadOk(p, _) => ConnAt(s, p) && s.peers[p].Serving?
    case ReadFails(p) => ConnAt(s, p) && s.peers[p].Serving?
    case Acquire(p) => ConnAt(s, p) && s.peers[p].Got? && (HasSem(s) ==> s.tokens < s.maxConcurrent)
    case Abandon(p) => ConnAt(s, p) && s.peers[p].Got? && HasSem(s) && s.done
    case Count(p) => ConnAt(s, p) && s.peers[p].Acquired?
    case Spawn(p, g) => ConnAt(s, p) && s.peers[p].Counted? && g !in s.reqs
    case Lookup(g) => g in s.reqs && s.reqs[g].pc.Started?
    case Return(g, _, _) => g in s.reqs && s.reqs[g].pc.Calling?
    case Write(g) => g in s.reqs && s.reqs[g].pc.Answered?
    case Release(g) => g in s.reqs && s.reqs[g].pc.Written? && (HasSem(s) ==> s.tokens > 0)
    case Finish(g) => g in s.reqs && s.reqs[g].pc.Released? && ConnAt(s, s.reqs[g].peer)
      && s.inflight[s.reqs[g].peer] > 0
    case OnDisconnect(p) => ConnAt(s, p) && s.peers[p].Draining? && s.inflight[p] == 0
    case Remove(p) => ConnAt(s, p) && s.peers[p].Disconnected?
  }

  function Conn(s: Server, p: Peer, pc: ConnPc): Server { s.(peers := s.peers[p := pc]) }

  function Move(s: Server, g: Req, pc: ReqPc): Server
    requires g in s.reqs
  {
    s.(reqs := s.reqs[g := s.reqs[g].(pc := pc)])
  }

  function U16(code: Code): u16 { code % TWO16 }

  // The header and payload serveRequest sends for a request it answers with (code, payload).
  function ResponseFrame(req: Frame, code: Code, payload: seq<byte>): Frame {
    Frame(Header(RESPONSE, U16(code), req.hdr.callId, req.hdr.methodId, |payload| % TWO32), payload)
  }

  function Apply(s: Server, l: Label): Server
    requires Enabled(s, l)
  {
    match l
    case RegisterMethod(id, h) => s.(handlers := s.handlers[id := h])
    case Shutdown => s.(done := true)
    case Accept(p) => Conn(s, p, Handshaking).(sessions := s.sessions + {p}, inflight := s.inflight[p := 0])
    case Handshake(p, ok) => Conn(s, p, if ok then Serving else Draining)
    case ReadOk(p, f) => Conn(s, p, if f.hdr.ftype == REQUEST then Got(f) else Draining)
    case ReadFails(p) => Conn(s, p, Draining)
    case Acquire(p) => Conn(s, p, Acquired(s.peers[p].frame)).(tokens := if HasSem(s) then s.tokens + 1 else s.tokens)
    case Abandon(p) => Conn(s, p, Draining)
    case Count(p) => Conn(s, p, Counted(s.peers[p].frame)).(inflight := s.inflight[p := s.inflight[p] + 1])
    case Spawn(p, g) => Conn(s, p, Serving).(reqs := s.reqs[g := Request(p, s.peers[p].frame, Started)])
    case Lookup(g) =>
      var m := s.reqs[g].frame.hdr.methodId;
      Move(s, g, if m in s.handlers then Calling(s.handlers[m]) else Answered(UNIMPLEMENTED, []))
    case Return(g, code, payload) => Move(s, g, if code == OK then Answered(OK, payload) else Answered(code, []))
    case Write(g) =>
      var r := s.reqs[g];
      Move(s, g, Written).(attempts := s.attempts + [Attempt(g, ResponseFrame(r.frame, r.pc.code, r.pc.payload))])
    case Release(g) => Move(s, g, Released).(tokens := if HasSem(s) then s.tokens - 1 else s.tokens)
    case Finish(g) => var p := s.reqs[g].peer; Move(s, g, Finished).(inflight := s.inflight[p := s.inflight[p] - 1])
    case OnDisconnect(p) => Conn(s, p, Disconnected)
    case Remove(p) => Conn(s, p, Gone).(sessions := s.sessions - {p})
  }

  predicate Legal(s: Server, ls: seq<Label>)
    decreases |ls|
  {
    ls == [] || (Enabled(s, ls[0]) && Legal(Apply(s, ls[0]), ls[1..]))
  }

  function Exec(s: Server, ls: seq<Label>): Server
    requires Legal(s, ls)
    decreases |ls|
  {
    if ls == [] then s else Exec(Apply(s, ls[0]), ls[1..])
  }

  /************ Semaphore and wait-group accounting ************/

  // Connections that hold a token for a request whose goroutine has not started.
  function Starting(s: Server): set<Peer> {
    set p | p in s.peers && (s.peers[p].Acquired? || s.peers[p].Counted?)
  }

  predicate HoldsToken(pc: ReqPc) { !pc.Released? && !pc.Finished? }

  // Request goroutines that have started and not yet returned their token.
  function Running(s: Server): set<Req> { set g | g in s.reqs && HoldsToken(s.reqs[g].pc) }

  // Request goroutines of p that inflight.Wait() must still wait for.
  function Working(s: Server, p: Peer): set<Req> {
    set g | g in s.reqs && s.reqs[g].peer == p && !s.reqs[g].pc.Finished?
  }

  function Counts(pc: ConnPc): nat { if pc.Counted? then 1 else 0 }

  ghost predicate SemOk(s: Server) {
    HasSem(s) ==> s.tokens == |Starting(s)| + |Running(s)| && s.tokens <= s.maxConcurrent
  }

  ghost predicate InflightOk(s: Server) {
    && (forall p :: p in s.peers <==> p in s.inflight)
    && (forall p :: p in s.peers ==> s.inflight[p] == |Working(s, p)| + Counts(s.peers[p]))
    && (forall g :: g in s.reqs ==> s.reqs[g].peer in s.peers)
  }

  // After onDisconnect the connection has no unfinished request, and gets no new one.
  ghost predicate DrainedOk(s: Server) {
    forall p :: p in s.peers && (s.peers[p].Disconnected? || s.peers[p].Gone?) ==> Working(s, p) == {}
  }

  predicate Attempted(pc: ReqPc) { pc.Written? || pc.Released? || pc.Finished? }

  ghost predicate AttemptsOk(s: Server) {
    && (forall i :: 0 <= i < |s.attempts| ==>
         && s.attempts[i].g in s.reqs && Attempted(s.reqs[s.attempts[i].g].pc)
         && Answers(s.attempts[i].frame, s.reqs[s.attempts[i].g].frame))
    && (forall i, j :: 0 <= i < j < |s.attempts| ==> s.attempts[i].g != s.attempts[j].g)
    && (forall g :: g in s.reqs && Attempted(s.reqs[g].pc) ==>
      exists i :: 0 <= i < |s.attempts| && s.attempts[i].g == g)
  }

  // A response frame carries the ids of the request it answers.
  predicate Answers(resp: Frame, req: Frame) {
    resp.hdr.ftype == RESPONSE && resp.hdr.callId == req.hdr.callId && resp.hdr.methodId == req.hdr.methodId
  }

  ghost predicate Inv(s: Server) { SemOk(s) && InflightOk(s) && DrainedOk(s) && AttemptsOk(s) }

  predicate Takes(pc: ConnPc) { pc.Acquired? || pc.Counted? }

  // Only connection p has moved.
  ghost predicate ConnMoves(s: Server, s': Server, p: Peer) {
    p in s'.peers && s'.peers == s.peers[p := s'.peers[p]] && s'.reqs == s.reqs && s'.attempts == s.attempts
      && s'.maxConcurrent == s.maxConcurrent
  }

  // Only request g has moved.
  ghost predicate ReqMoves(s: Server, s': Server, g: Req) {
    && g in s.reqs && g in s'.reqs && s'.reqs == s.reqs[g := s'.reqs[g]] && s'.peers == s.peers
    && s'.reqs[g] == s.reqs[g].(pc := s'.reqs[g].pc)
    && s'.maxConcurrent == s.maxConcurrent
  }

  function One(b: bool): int { if b then 1 else 0 }

  predicate IsStarting(s: Server, p: Peer) { p in s.peers && Takes(s.peers[p]) }

  predicate IsRunning(s: Server, g: Req) { g in s.reqs && HoldsToken(s.reqs[g].pc) }

  predicate IsWorking(s: Server, g: Req, p: Peer) { g in s.reqs && s.reqs[g].peer == p && !s.reqs[g].pc.Finished? }

  lemma CardAfter<T>(a: set<T>, b: set<T>, x: T)
    requires a - {x} == b - {x}
    ensures |b| == |a| + One(x in b) - One(x in a)
  {
    assert x in a ==> a == (a - {x}) + {x};
    assert x in b ==> b == (b - {x}) + {x};
    assert x !in a ==> a == a - {x};
    assert x !in b ==> b == b - {x};
  }

  // Moving one member changes the count by what that member contributes.
  lemma StartingAfter(s: Server, s': Server, p: Peer)
    requires p in s'.peers && s'.peers == s.peers[p := s'.peers[p]]
    ensures |Starting(s')| == |Starting(s)| + One(IsStarting(s', p)) - One(IsStarting(s, p))
  {
    assert Starting(s') - {p} == Starting(s) - {p};
    CardAfter(Starting(s), Starting(s'), p);
  }

  lemma RunningAfter(s: Server, s': Server, g: Req)
    requires g in s'.reqs && s'.reqs == s.reqs[g := s'.reqs[g]]
    ensures |Running(s')| == |Running(s)| + One(IsRunning(s', g)) - One(IsRunning(s, g))
  {
    assert Running(s') - {g} == Running(s) - {g};
    CardAfter(Running(s), Running(s'), g);
  }

  lemma WorkingAfter(s: Server, s': Server, g: Req, p: Peer)
    requires g in s'.reqs && s'.reqs == s.reqs[g := s'.reqs[g]]
    ensures |Working(s', p)| == |Working(s, p)| + One(IsWorking(s', g, p)) - One(IsWorking(s, g, p))
  {
    assert Working(s', p) - {g} == Working(s, p) - {g};
    CardAfter(Working(s, p), Working(s', p), g);
  }

  // A connection that takes a token, or keeps what it had.
  lemma ConnSem(s: Server, s': Server, p: Peer)
    requires SemOk(s) && ConnMoves(s, s', p)
    requires HasSem(s) ==> s'.tokens <= s.maxConcurrent
    requires HasSem(s) ==> s'.tokens == s.tokens + One(IsStarting(s', p)) - One(IsStarting(s, p))
    ensures SemOk(s')
  {
    StartingAfter(s, s', p);
    assert Running(s') == Running(s);
  }

  lemma ReqSem(s: Server, s': Server, g: Req)
    requires SemOk(s) && ReqMoves(s, s', g)
    requires HoldsToken(s'.reqs[g].pc) ==> HoldsToken(s.reqs[g].pc)
    requires HasSem(s) ==> s'.tokens == s.tokens + One(IsRunning(s', g)) - One(IsRunning(s, g))
    ensures SemOk(s')
  {
    RunningAfter(s, s', g);
    assert Starting(s') == Starting(s);
  }

  lemma SpawnSem(s: Server, p: Peer, g: Req)
    requires SemOk(s) && Enabled(s, Spawn(p, g))
    ensures SemOk(Apply(s, Spawn(p, g)))
  {
    var s' := Apply(s, Spawn(p, g));
    StartingAfter(s, s', p);
    RunningAfter(s, s', g);
  }

  lemma StepSem(s: Server, l: Label)
    requires SemOk(s) && Enabled(s, l)
    ensures SemOk(Apply(s, l))
  {
    var s' := Apply(s, l);
    match l
    case RegisterMethod(_, _) => assert Starting(s') == Starting(s) && Running(s') == Running(s);
    case Shutdown => assert Starting(s') == Starting(s) && Running(s') == Running(s);
    case Accept(p) => ConnSem(s, s', p);
    case Handshake(p, _) => ConnSem(s, s', p);
    case ReadOk(p, _) => ConnSem(s, s', p);
    case ReadFails(p) => ConnSem(s, s', p);
    case Acquire(p) => ConnSem(s, s', p);
    case Abandon(p) => ConnSem(s, s', p);
    case Count(p) => ConnSem(s, s', p);
    case Spawn(p, g) => SpawnSem(s, p, g);
    case Lookup(g) => ReqSem(s, s', g);
    case Return(g, _, _) => ReqSem(s, s', g);
    case Write(g) => ReqSem(s, s', g);
    case Release(g) => ReqSem(s, s', g);
    case Finish(g) => ReqSem(s, s', g);
    case OnDisconnect(p) => ConnSem(s, s', p);
    case Remove(p) => ConnSem(s, s', p);
  }

  // inflight follows a connection's counting.
  lemma ConnInflight(s: Server, s': Server, p: Peer)
    requires InflightOk(s) && ConnMoves(s, s', p)
    requires p in s'.inflight && s'.inflight == s.inflight[p := s'.inflight[p]]
    requires s'.inflight[p] == (if p in s.peers then s.inflight[p] - Counts(s.peers[p]) else 0) + Counts(s'.peers[p])
    ensures InflightOk(s')
  {
    forall r | r in s'.peers ensures s'.inflight[r] == |Working(s', r)| + Counts(s'.peers[r]) {
      assert Working(s', r) == Working(s, r);
      if r !in s.peers { assert Working(s, r) == {}; }
    }
  }

  lemma ReqInflight(s: Server, s': Server, g: Req)
    requires InflightOk(s) && ReqMoves(s, s', g) && !s.reqs[g].pc.Finished?
    requires var p := s.reqs[g].peer;
      if s'.reqs[g].pc.Finished?
        then p in s.inflight && s.inflight[p] > 0 && s'.inflight == s.inflight[p := s.inflight[p] - 1]
      else s'.inflight == s.inflight
    ensures InflightOk(s')
  {
    forall p | p in s'.peers ensures s'.inflight[p] == |Working(s', p)| + Counts(s'.peers[p]) {
      WorkingAfter(s, s', g, p);
    }
  }

  lemma SpawnInflight(s: Server, p: Peer, g: Req)
    requires InflightOk(s) && Enabled(s, Spawn(p, g))
    ensures InflightOk(Apply(s, Spawn(p, g)))
  {
    var s' := Apply(s, Spawn(p, g));
    forall r | r in s'.peers ensures s'.inflight[r] == |Working(s', r)| + Counts(s'.peers[r]) {
      WorkingAfter(s, s', g, r);
    }
  }

  lemma SameInflight(s: Server, s': Server)
    requires InflightOk(s) && s'.peers == s.peers && s'.inflight == s.inflight && s'.reqs == s.reqs
    ensures InflightOk(s')
  {
    forall p ensures Working(s', p) == Working(s, p) {}
  }

  lemma ConnStepInflight(s: Server, l: Label)
    requires InflightOk(s) && Enabled(s, l)
    requires l.Accept? || l.Handshake? || l.ReadOk? || l.ReadFails? || l.Acquire? || l.Abandon? || l.Count?
        || l.OnDisconnect? || l.Remove?
    ensures InflightOk(Apply(s, l))
  {
    ConnInflight(s, Apply(s, l), l.p);
  }

  lemma ReqStepInflight(s: Server, l: Label)
    requires InflightOk(s) && Enabled(s, l) && (l.Lookup? || l.Return? || l.Write? || l.Release? || l.Finish?)
    ensures InflightOk(Apply(s, l))
  {
    ReqInflight(s, Apply(s, l), l.g);
  }

  lemma StepInflight(s: Server, l: Label)
    requires InflightOk(s) && Enabled(s, l)
    ensures InflightOk(Apply(s, l))
  {
    match l
    case RegisterMethod(_, _) => SameInflight(s, Apply(s, l));
    case Shutdown => SameInflight(s, Apply(s, l));
    case Spawn(p, g) => SpawnInflight(s, p, g);
    case Lookup(g) => ReqStepInflight(s, l);
    case Return(g, _, _) => ReqStepInflight(s, l);
    case Write(g) => ReqStepInflight(s, l);
    case Release(g) => ReqStepInflight(s, l);
    case Finish(g) => ReqStepInflight(s, l);
    case _ => ConnStepInflight(s, l);
  }

  // A request of a drained connection would have kept inflight above zero.
  lemma StepDrained(s: Server, l: Label)
    requires InflightOk(s) && DrainedOk(s) && Enabled(s, l)
    ensures DrainedOk(Apply(s, l))
  {
    var s' := Apply(s, l);
    forall p | p in s'.peers && (s'.peers[p].Disconnected? || s'.peers[p].Gone?) ensures Working(s', p) == {} {
      assert Working(s, p) == {};
      forall g ensures g !in Working(s', p) { assert g !in Working(s, p); }
    }
  }

  // Requests keep their frame, and the set of attempted ones is unchanged.
  lemma AttemptsKept(s: Server, s': Server)
    requires AttemptsOk(s) && s'.attempts == s.attempts
    requires forall g :: g in s.reqs ==> g in s'.reqs && s'.reqs[g].frame == s.reqs[g].frame
    requires forall g :: g in s'.reqs && Attempted(s'.reqs[g].pc) <==> g in s.reqs && Attempted(s.reqs[g].pc)
    ensures AttemptsOk(s')
  {}

  lemma WriteAttempts(s: Server, g: Req)
    requires AttemptsOk(s) && Enabled(s, Write(g))
    ensures AttemptsOk(Apply(s, Write(g)))
  {
    var s' := Apply(s, Write(g));
    forall h | h in s'.reqs && Attempted(s'.reqs[h].pc)
      ensures exists i :: 0 <= i < |s'.attempts| && s'.attempts[i].g == h
    {
      if h == g {
        assert s'.attempts[|s.attempts|].g == h;
      } else {
        var i :| 0 <= i < |s.attempts| && s.attempts[i].g == h;
        assert s'.attempts[i].g == h;
      }
    }
  }

  lemma StepAttempts(s: Server, l: Label)
    requires AttemptsOk(s) && Enabled(s, l)
    ensures AttemptsOk(Apply(s, l))
  {
    if l.Write? { WriteAttempts(s, l.g); } else { AttemptsKept(s, Apply(s, l)); }
  }

  lemma StepInv(s: Server, l: Label)
    requires Inv(s) && Enabled(s, l)
    ensures Inv(Apply(s, l)) && Apply(s, l).maxConcurrent == s.maxConcurrent
  {
    StepSem(s, l);
    StepInflight(s, l);
    StepDrained(s, l);
    StepAttempts(s, l);
  }

  lemma {:induction false} RunInv(s: Server, ls: seq<Label>)
    requires Inv(s) && Legal(s, ls)
    ensures Inv(Exec(s, ls)) && Exec(s, ls).maxConcurrent == s.maxConcurrent
    decreases |ls|
  {
    if ls != [] {
      StepInv(s, ls[0]);
      RunInv(Apply(s, ls[0]), ls[1..]);
    }
  }

  lemma InitInv(max: int)
    ensures Inv(Init(max))
  {
    assert Starting(Init(max)) == {} && Running(Init(max)) == {};
  }

  /** With a semaphore, in every interleaving over all connections: the started requests that have
      not returned their token are as many as the tokens held minus those acquired for a request
      not yet started, and never more than maxConcurrent.  */
  lemma ConcurrencyBound(max: int, ls: seq<Label>)
    requires max > 0 && Legal(Init(max), ls)
    ensures var s := Exec(Init(max), ls);
      |Running(s)| == s.tokens - |Starting(s)| && |Running(s)| <= max && s.tokens <= max
  {
    InitInv(max);
    RunInv(Init(max), ls);
  }

  /** Returning a token never blocks, and neither does inflight.Done() go below zero.  */
  lemma ReleaseNeverBlocks(max: int, ls: seq<Label>, g: Req)
    requires Legal(Init(max), ls) && g in Exec(Init(max), ls).reqs
    ensures var s := Exec(Init(max), ls);
      && (s.reqs[g].pc.Written? ==> Enabled(s, Release(g)))
      && (s.reqs[g].pc.Released? ==> Enabled(s, Finish(g)))
  {
    InitInv(max);
    RunInv(Init(max), ls);
    var s := Exec(Init(max), ls);
    if IsRunning(s, g) { assert g in Running(s); }
    if !s.reqs[g].pc.Finished? { assert g in Working(s, s.reqs[g].peer); }
  }

  /** onDisconnect runs only after every dispatched request of that peer has had exactly one response
      write attempted, carrying the request's own CallID and MethodID.  */
  lemma DisconnectAfterAnswers(max: int, ls: seq<Label>, p: Peer, g: Req)
    requires Legal(Init(max), ls)
    requires var s := Exec(Init(max), ls);
      p in s.peers && (s.peers[p].Disconnected? || s.peers[p].Gone?) && g in s.reqs && s.reqs[g].peer == p
    ensures var s := Exec(Init(max), ls);
      exists i :: 0 <= i < |s.attempts| && s.attempts[i].g == g && Answers(s.attempts[i].frame, s.reqs[g].frame)
        && forall j :: 0 <= j < |s.attempts| && s.attempts[j].g == g ==> j == i
  {
    InitInv(max);
    RunInv(Init(max), ls);
    var s := Exec(Init(max), ls);
    assert g !in Working(s, p);
    var i :| 0 <= i < |s.attempts| && s.attempts[i].g == g;
  }
}
