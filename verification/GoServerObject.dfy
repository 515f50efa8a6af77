/** The server of go/server.go as an object: handleConn and serveRequest run on its fields, with the steps of
    all other goroutines let in between any two of their own.  */
module GoServerObject {
  import opened Framing
  import opened GoServer

  /** What other goroutines do before each step of a handleConn: before its handshake, before the k-th step of its
      n-th turn, and in its deferred function; and which case its n-th select takes when both are ready.  */
  datatype Schedule = Schedule(first: seq<Label>, turns: nat -> nat -> seq<Label>, last: nat -> seq<Label>,
                               quits: nat -> bool)

  // Steps of p's own handleConn.
  predicate OfConn(l: Label, p: Peer) {
    match l
    case Accept(q) => q == p
    case Handshake(q, _) => q == p
    case ReadOk(q, _) => q == p
    case ReadFails(q) => q == p
    case Acquire(q) => q == p
    case Abandon(q) => q == p
    case Count(q) => q == p
    case Spawn(q, _) => q == p
    case OnDisconnect(q) => q == p
    case Remove(q) => q == p
    case _ => false
  }

  // Steps of request goroutine g.
  predicate OfReq(l: Label, g: Req) {
    match l
    case Lookup(h) => h == g
    case Return(h, _, _) => h == g
    case Write(h) => h == g
    case Release(h) => h == g
    case Finish(h) => h == g
    case _ => false
  }

  lemma ConnUndisturbed(s: Server, l: Label, p: Peer)
    requires Enabled(s, l) && !OfConn(l, p) && ConnAt(s, p)
    ensures ConnAt(Apply(s, l), p) && Apply(s, l).peers[p] == s.peers[p]
    ensures p in Apply(s, l).sessions <==> p in s.sessions
  {}

  lemma ReqUndisturbed(s: Server, l: Label, g: Req)
    requires Enabled(s, l) && !OfReq(l, g) && g in s.reqs
    ensures g in Apply(s, l).reqs && Apply(s, l).reqs[g] == s.reqs[g]
  {}

  // From s to s' requests stay what they are, p gets no new one but those in `news`, and nothing is taken back.
  ghost predicate Keeps(s: Server, s': Server, p: Peer, news: set<Req>) {
    && (forall g :: g in s.reqs ==> g in s'.reqs && s'.reqs[g] == s.reqs[g].(pc := s'.reqs[g].pc))
    && (forall g :: g in s'.reqs && g !in s.reqs && s'.reqs[g].peer == p ==> g in news)
    && (s.done ==> s'.done) && s.handlers.Keys <= s'.handlers.Keys
  }

  lemma StepKeeps(s: Server, l: Label, p: Peer)
    requires Enabled(s, l)
    ensures Keeps(s, Apply(s, l), p, NewOf(l, p))
  {}

  function NewOf(l: Label, p: Peer): set<Req> { if l.Spawn? && l.p == p then {l.g} else {} }

  lemma KeepsStep(s0: Server, s: Server, l: Label, p: Peer)
    requires Keeps(s0, s, p, {}) && Enabled(s, l)
    ensures Keeps(s0, Apply(s, l), p, NewOf(l, p))
  {
    StepKeeps(s, l, p);
    KeepsTwice(s0, s, Apply(s, l), p, {}, NewOf(l, p));
    assert {} + NewOf(l, p) == NewOf(l, p);
  }

  lemma KeepsTwice(s: Server, s1: Server, s2: Server, p: Peer, a: set<Req>, b: set<Req>)
    requires Keeps(s, s1, p, a) && Keeps(s1, s2, p, b)
    ensures Keeps(s, s2, p, a + b)
  {}

  // From s0 to s, p's new requests are gs, one for each of the first frames, all of them requests.
  ghost predicate Dispatched(s0: Server, s: Server, p: Peer, gs: seq<Req>, frames: seq<Frame>) {
    && |gs| <= |frames| && Keeps(s0, s, p, set i | 0 <= i < |gs| :: gs[i])
    && (forall i :: 0 <= i < |gs| ==> gs[i] !in s0.reqs && gs[i] in s.reqs && frames[i].hdr.ftype == REQUEST
                                      && s.reqs[gs[i]].peer == p && s.reqs[gs[i]].frame == frames[i])
    && (forall i, j :: 0 <= i < j < |gs| ==> gs[i] != gs[j])
  }

  lemma DispatchedNone(s0: Server, s: Server, p: Peer, frames: seq<Frame>)
    requires Keeps(s0, s, p, {})
    ensures Dispatched(s0, s, p, [], frames)
  {}

  lemma DispatchedKept(s0: Server, s1: Server, s: Server, p: Peer, gs: seq<Req>, frames: seq<Frame>)
    requires Dispatched(s0, s1, p, gs, frames) && Keeps(s1, s, p, {})
    ensures Dispatched(s0, s, p, gs, frames)
  {}

  lemma DispatchedMore(s0: Server, s1: Server, s: Server, p: Peer, gs: seq<Req>, frames: seq<Frame>, g: Req)
    requires Dispatched(s0, s1, p, gs, frames) && Keeps(s1, s, p, {g}) && |gs| < |frames|
    requires frames[|gs|].hdr.ftype == REQUEST
    requires g !in s1.reqs && g in s.reqs && s.reqs[g].peer == p && s.reqs[g].frame == frames[|gs|]
    ensures Dispatched(s0, s, p, gs + [g], frames)
  {
    var gs' := gs + [g];
    assert gs'[|gs|] == g;
    forall h | h in s.reqs && h !in s0.reqs && s.reqs[h].peer == p ensures h in set i | 0 <= i < |gs'| :: gs'[i] {
      if h in s1.reqs {
        var i :| 0 <= i < |gs| && gs[i] == h;
        assert gs'[i] == h;
      } else {
        assert h == gs'[|gs|];
      }
    }
  }

  // Goroutine identities never run out.
  lemma {:induction false} Pigeonhole(s: set<nat>, n: nat)
    requires forall h: nat :: h < n ==> h in s
    ensures |s| >= n
  {
    if n > 0 {
      var t := s - {n - 1};
      forall h: nat | h < n - 1 ensures h in t {}
      Pigeonhole(t, n - 1);
    }
  }

  // A request of p was answered once, with its own ids.
  ghost predicate AnsweredOnce(s: Server, g: Req)
    requires g in s.reqs
  {
    exists i :: 0 <= i < |s.attempts| && s.attempts[i].g == g && Answers(s.attempts[i].frame, s.reqs[g].frame)
      && forall j :: 0 <= j < |s.attempts| && s.attempts[j].g == g ==> j == i
  }

  lemma FinishedWasAnswered(s: Server, g: Req)
    requires Inv(s) && g in s.reqs && Attempted(s.reqs[g].pc)
    ensures AnsweredOnce(s, g)
  {
    var i :| 0 <= i < |s.attempts| && s.attempts[i].g == g;
    assert Answers(s.attempts[i].frame, s.reqs[g].frame);
  }

  lemma GoneWasAnswered(s: Server, p: Peer)
    requires Inv(s) && p in s.peers && s.peers[p].Gone?
    ensures forall g :: g in s.reqs && s.reqs[g].peer == p ==> s.reqs[g].pc.Finished? && AnsweredOnce(s, g)
  {
    forall g | g in s.reqs && s.reqs[g].peer == p ensures s.reqs[g].pc.Finished? && AnsweredOnce(s, g) {
      assert g !in Working(s, p);
      FinishedWasAnswered(s, g);
    }
  }

  // Returning the token and leaving the wait group never block.
  lemma MayRelease(s: Server, g: Req)
    requires Inv(s) && g in s.reqs && s.reqs[g].pc.Written?
    ensures Enabled(s, Release(g))
  {
    assert g in Running(s);
  }

  lemma MayFinish(s: Server, g: Req)
    requires Inv(s) && g in s.reqs && s.reqs[g].pc.Released?
    ensures Enabled(s, Finish(g))
  {
    assert g in Working(s, s.reqs[g].peer);
  }

  class ServerObject {
    const maxConcurrent: int
    var tokens: nat
    var done: bool
    var handlers: map<u32, Handler>
    var sessions: set<Peer>
    var peers: map<Peer, ConnPc>
    var inflight: map<Peer, nat>
    var reqs: map<Req, Request>
    var attempts: seq<Attempt>

    function State(): Server
      reads this
    {
      Server(maxConcurrent, tokens, done, handlers, sessions, peers, inflight, reqs, attempts)
    }

    constructor (max: int)
      ensures State() == Init(max)
    {
      maxConcurrent := max;
      tokens, done, handlers, sessions, peers, inflight, reqs, attempts := 0, false, map[], {}, map[], map[], map[], [];
    }

    // One atomic step of one goroutine.
    method Do(l: Label)
      requires Inv(State()) && Enabled(State(), l)
      modifies this
      ensures State() == Apply(old(State()), l) && Inv(State())
    {
      StepInv(State(), l);
      if l.Lookup? || l.Return? || l.Write? || l.Release? || l.Finish? { RequestStep(l); } else { ConnectionStep(l); }
    }

    // A step of a request goroutine.
    method RequestStep(l: Label)
      requires Enabled(State(), l) && (l.Lookup? || l.Return? || l.Write? || l.Release? || l.Finish?)
      modifies this`reqs, this`attempts, this`tokens, this`inflight
      ensures State() == Apply(old(State()), l)
    {
      var g := l.g;
      var r := reqs[g];
      if l.Lookup? {
        var id := r.frame.hdr.methodId;
        reqs := reqs[g := r.(pc := if id in handlers then Calling(handlers[id]) else Answered(UNIMPLEMENTED, []))];
      } else if l.Return? {
        reqs := reqs[g := r.(pc := Answered(l.code, if l.code == OK then l.payload else []))];
      } else if l.Write? {
        attempts := attempts + [Attempt(g, ResponseFrame(r.frame, r.pc.code, r.pc.payload))];
        reqs := reqs[g := r.(pc := Written)];
      } else if l.Release? {
        if maxConcurrent > 0 { tokens := tokens - 1; }
        reqs := reqs[g := r.(pc := Released)];
      } else {
        inflight := inflight[r.peer := inflight[r.peer] - 1];
        reqs := reqs[g := r.(pc := Finished)];
      }
    }

    // A step of acceptLoop, of a handleConn, of RegisterMethod or of Shutdown.
    method ConnectionStep(l: Label)
      requires Enabled(State(), l) && !(l.Lookup? || l.Return? || l.Write? || l.Release? || l.Finish?)
      modifies this`handlers, this`done, this`sessions, this`peers, this`inflight, this`tokens, this`reqs
      ensures State() == Apply(old(State()), l)
    {
      match l
      case RegisterMethod(id, h) => handlers := handlers[id := h];
      case Shutdown => done := true;
      case Accept(p) => peers, sessions, inflight := peers[p := Handshaking], sessions + {p}, inflight[p := 0];
      case Handshake(p, ok) => peers := peers[p := if ok then Serving else Draining];
      case ReadOk(p, f) => peers := peers[p := if f.hdr.ftype == REQUEST then Got(f) else Draining];
      case ReadFails(p) => peers := peers[p := Draining];
      case Acquire(p) =>
        if maxConcurrent > 0 { tokens := tokens + 1; }
        peers := peers[p := Acquired(peers[p].frame)];
      case Abandon(p) => peers := peers[p := Draining];
      case Count(p) => inflight, peers := inflight[p := inflight[p] + 1], peers[p := Counted(peers[p].frame)];
      case Spawn(p, g) => reqs, peers := reqs[g := Request(p, peers[p].frame, Started)], peers[p := Serving];
      case OnDisconnect(p) => peers := peers[p := Disconnected];
      case Remove(p) => sessions, peers := sessions - {p}, peers[p := Gone];
    }

    // A step of p's handleConn, s0 being where it is compared from.
    method OwnStep(l: Label, p: Peer, ghost s0: Server)
      requires Inv(State()) && Enabled(State(), l) && Keeps(s0, State(), p, {})
      modifies this
      ensures State() == Apply(old(State()), l) && Inv(State()) && Keeps(s0, State(), p, NewOf(l, p))
    {
      KeepsStep(s0, State(), l, p);
      Do(l);
    }

    method OtherStep(l: Label, p: Peer, ghost s0: Server)
      requires Inv(State()) && Enabled(State(), l) && !OfConn(l, p) && ConnAt(State(), p) && Keeps(s0, State(), p, {})
      modifies this
      ensures Inv(State()) && Keeps(s0, State(), p, {})
      ensures ConnAt(State(), p) && peers[p] == old(peers[p]) && (p in sessions <==> p in old(sessions))
    {
      ConnUndisturbed(State(), l, p);
      OwnStep(l, p, s0);
    }

    // Other goroutines run while p's handleConn does not; steps they cannot take are passed over.
    method Others(env: seq<Label>, p: Peer, ghost s0: Server)
      requires Inv(State()) && ConnAt(State(), p) && Keeps(s0, State(), p, {})
      modifies this
      ensures Inv(State()) && Keeps(s0, State(), p, {})
      ensures ConnAt(State(), p) && peers[p] == old(peers[p]) && (p in sessions <==> p in old(sessions))
    {
      var i := 0;
      while i < |env|
        invariant 0 <= i <= |env| && Inv(State()) && Keeps(s0, State(), p, {})
        invariant ConnAt(State(), p) && peers[p] == old(peers[p]) && (p in sessions <==> p in old(sessions))
      {
        if !OfConn(env[i], p) && Enabled(State(), env[i]) { OtherStep(env[i], p, s0); }
        i := i + 1;
      }
    }

    /** serveRequest with the deferred calls around it: what the handler returns is given, and env(k) is what
        other goroutines do before its k-th step.  It ends with the request answered exactly once, under its own
        ids.  */
    method ServeRequest(g: Req, code: Code, payload: seq<byte>, env: nat -> seq<Label>)
      requires Inv(State()) && g in reqs && reqs[g].pc.Started?
      modifies this
      ensures Inv(State()) && g in reqs && reqs[g].pc.Finished? && AnsweredOnce(State(), g)
      ensures reqs[g].frame == old(reqs[g].frame) && reqs[g].peer == old(reqs[g].peer)
    {
      Answer(g, code, payload, env);
      Reply(g, env);
      Leave(g, env);
      FinishedWasAnswered(State(), g);
    }

    // Up to the response: a handler registered before answers, and none does if there is none even afterwards.
    method Answer(g: Req, code: Code, payload: seq<byte>, env: nat -> seq<Label>)
      requires Inv(State()) && g in reqs && reqs[g].pc.Started?
      modifies this
      ensures Inv(State()) && g in reqs
      ensures || reqs[g] == old(reqs[g]).(pc := Answered(UNIMPLEMENTED, []))
              || reqs[g] == old(reqs[g]).(pc := Answered(code, if code == OK then payload else []))
      ensures old(reqs[g]).frame.hdr.methodId in old(handlers) ==>
                reqs[g].pc == Answered(code, if code == OK then payload else [])
      ensures old(reqs[g]).frame.hdr.methodId !in handlers ==> reqs[g].pc == Answered(UNIMPLEMENTED, [])
    {
      OtherRequests(env(0), g);
      Do(Lookup(g));
      if reqs[g].pc.Calling? { RunHandler(g, code, payload, env(1)); }
    }

    method RunHandler(g: Req, code: Code, payload: seq<byte>, env: seq<Label>)
      requires Inv(State()) && g in reqs && reqs[g].pc.Calling?
      modifies this
      ensures Inv(State()) && g in reqs && old(handlers).Keys <= handlers.Keys
      ensures reqs[g] == old(reqs[g]).(pc := Answered(code, if code == OK then payload else []))
    {
      OtherRequests(env, g);
      Do(Return(g, code, payload));
    }

    method Reply(g: Req, env: nat -> seq<Label>)
      requires Inv(State()) && g in reqs && reqs[g].pc.Answered?
      modifies this
      ensures Inv(State()) && g in reqs && reqs[g] == old(reqs[g]).(pc := Written)
    {
      OtherRequests(env(2), g);
      Do(Write(g));
    }

    // The deferred calls, in reverse order of their defer statements.
    method Leave(g: Req, env: nat -> seq<Label>)
      requires Inv(State()) && g in reqs && reqs[g].pc.Written?
      modifies this
      ensures Inv(State()) && g in reqs && reqs[g] == old(reqs[g]).(pc := Finished)
    {
      OtherRequests(env(3), g);
      MayRelease(State(), g);
      Do(Release(g));
      OtherRequests(env(4), g);
      MayFinish(State(), g);
      Do(Finish(g));
    }

    // Other goroutines run while request g does not.
    method OtherRequests(env: seq<Label>, g: Req)
      requires Inv(State()) && g in reqs
      modifies this
      ensures Inv(State()) && g in reqs && reqs[g] == old(reqs[g]) && old(handlers).Keys <= handlers.Keys
    {
      var i := 0;
      while i < |env|
        invariant 0 <= i <= |env| && Inv(State()) && g in reqs && reqs[g] == old(reqs[g])
        invariant old(handlers).Keys <= handlers.Keys
      {
        if !OfReq(env[i], g) && Enabled(State(), env[i]) {
          ReqUndisturbed(State(), env[i], g);
          Do(env[i]);
        }
        i := i + 1;
      }
    }

    method FreshReq() returns (g: Req)
      ensures g !in reqs
    {
      g := 0;
      while g in reqs
        invariant forall h: nat :: h < g ==> h in reqs
        decreases |reqs.Keys| - g
      {
        Pigeonhole(reqs.Keys, g + 1);
        g := g + 1;
      }
    }

    // p's handleConn waits for a token to serve f.
    ghost predicate AwaitsToken(p: Peer, f: Frame)
      requires ConnAt(State(), p)
      reads this
    {
      peers[p] == Got(f) && maxConcurrent > 0 && tokens >= maxConcurrent && !done
    }

    /** handleConn from its start to its deferred function.  `frames` are what the connection delivers before it
        fails and `sched` what other goroutines do before each of its steps.  `gs` are the goroutines it starts: one
        for each of the first frames, all of them requests, and no others of p's.  If `gone` is false it is left
        waiting: for a token to serve the next request, or for a request of its own to finish.  Otherwise it has
        returned: every request of p has finished and was answered exactly once, the session is removed, and, unless
        the server is shutting down, no leading request was left out.  */
    method HandleConn(p: Peer, handshake: bool, frames: seq<Frame>, sched: Schedule) returns (gone: bool, gs: seq<Req>)
      requires Inv(State()) && ConnAt(State(), p) && peers[p].Handshaking?
      modifies this
      ensures Inv(State())
      ensures Dispatched(old(State()), State(), p, gs, frames) && (!handshake ==> gs == [])
      ensures gone ==> p in peers && peers[p].Gone? && p !in sessions
      ensures gone ==> forall g :: g in reqs && reqs[g].peer == p ==> reqs[g].pc.Finished? && AnsweredOnce(State(), g)
      ensures !gone ==> ConnAt(State(), p)
      ensures !gone ==> || (handshake && |gs| < |frames| && AwaitsToken(p, frames[|gs|]))
                        || (peers[p].Draining? && inflight[p] > 0)
      ensures handshake && !(done && maxConcurrent > 0) && (gone || peers[p].Draining?) ==>
                |gs| == |frames| || frames[|gs|].hdr.ftype != REQUEST
    {
      ghost var s0 := State();
      gs := [];
      Others(sched.first, p, s0);
      OwnStep(Handshake(p, handshake), p, s0);
      assert Dispatched(s0, State(), p, gs, frames) by { DispatchedNone(s0, State(), p, frames); }
      if handshake {
        var blocked;
        blocked, gs := ServeLoop(p, frames, sched, s0);
        if blocked { return false, gs; }
      }
      ghost var s1 := State();
      gone := Deferred(p, sched.last);
      assert s1.done ==> done;
      DispatchedKept(s0, s1, State(), p, gs, frames);
    }

    method ServeLoop(p: Peer, frames: seq<Frame>, sched: Schedule, ghost s0: Server)
      returns (blocked: bool, gs: seq<Req>)
      requires Inv(State()) && ConnAt(State(), p) && peers[p].Serving? && Keeps(s0, State(), p, {})
      modifies this
      ensures Inv(State()) && ConnAt(State(), p) && Dispatched(s0, State(), p, gs, frames)
      ensures if blocked then |gs| < |frames| && AwaitsToken(p, frames[|gs|]) else peers[p].Draining?
      ensures !blocked && !(done && maxConcurrent > 0) ==> |gs| == |frames| || frames[|gs|].hdr.ftype != REQUEST
    {
      gs := [];
      var more := true;
      blocked := false;
      while more
        invariant Inv(State()) && ConnAt(State(), p) && Dispatched(s0, State(), p, gs, frames)
        invariant !blocked ==> if more then peers[p].Serving? else peers[p].Draining?
        invariant blocked ==> |gs| < |frames| && AwaitsToken(p, frames[|gs|])
        invariant !more && !blocked && !(done && maxConcurrent > 0) ==>
                    |gs| == |frames| || frames[|gs|].hdr.ftype != REQUEST
        invariant blocked ==> !more
        decreases |frames| - |gs|, more
      {
        more, blocked, gs := Turn(p, frames, sched.turns(|gs|), sched.quits(|gs|), gs, s0);
      }
    }

    // One turn of the loop: read, and if that gives a request dispatch it.
    method Turn(p: Peer, frames: seq<Frame>, env: nat -> seq<Label>, quits: bool, gs: seq<Req>, ghost s0: Server)
      returns (more: bool, blocked: bool, gs': seq<Req>)
      requires Inv(State()) && ConnAt(State(), p) && peers[p].Serving? && Dispatched(s0, State(), p, gs, frames)
      modifies this
      ensures Inv(State()) && ConnAt(State(), p) && Dispatched(s0, State(), p, gs', frames)
      ensures !blocked ==> if more then peers[p].Serving? else peers[p].Draining?
      ensures blocked ==> |gs'| < |frames| && AwaitsToken(p, frames[|gs'|])
      ensures !more && !blocked && !(done && maxConcurrent > 0) ==>
                |gs'| == |frames| || frames[|gs'|].hdr.ftype != REQUEST
      ensures (blocked ==> !more) && (more ==> |gs'| == |gs| + 1) && (!more ==> gs' == gs)
    {
      ghost var s1 := State();
      more, blocked, gs' := false, false, gs;
      if |gs| == |frames| {
        Others(env(0), p, s1);
        OwnStep(ReadFails(p), p, s1);
        DispatchedKept(s0, s1, State(), p, gs, frames);
        return;
      }
      var g;
      more, blocked, g := Dispatch(p, frames[|gs|], env, quits);
      if more {
        DispatchedMore(s0, s1, State(), p, gs, frames, g);
        gs' := gs + [g];
      } else {
        DispatchedKept(s0, s1, State(), p, gs, frames);
      }
    }

    /** One turn of the request loop: a request is counted and started, or it waits for a token none of which is
        left, or the loop ends, because f is no request or the server is shutting down.  */
    method Dispatch(p: Peer, f: Frame, env: nat -> seq<Label>, quits: bool)
      returns (dispatched: bool, blocked: bool, g: Req)
      requires Inv(State()) && ConnAt(State(), p) && peers[p].Serving?
      modifies this
      ensures Inv(State()) && ConnAt(State(), p)
      ensures !blocked ==> if dispatched then peers[p].Serving? else peers[p].Draining?
      ensures blocked ==> !dispatched && f.hdr.ftype == REQUEST && AwaitsToken(p, f)
      ensures dispatched ==> f.hdr.ftype == REQUEST && g !in old(reqs) && g in reqs && reqs[g] == Request(p, f, Started)
      ensures dispatched ==> Keeps(old(State()), State(), p, {g})
      ensures !dispatched ==> Keeps(old(State()), State(), p, {})
      ensures !dispatched && !blocked ==> f.hdr.ftype != REQUEST || (done && maxConcurrent > 0)
    {
      dispatched, blocked, g := false, false, 0;
      ghost var s0 := State();
      Others(env(0), p, s0);
      OwnStep(ReadOk(p, f), p, s0);
      if f.hdr.ftype != REQUEST { return; }
      dispatched, blocked, g := Select(p, f, env, quits, s0);
    }

    // The select on the semaphore and the server's end, and what follows it; `quits` chooses when both are ready.
    method Select(p: Peer, f: Frame, env: nat -> seq<Label>, quits: bool, ghost s0: Server)
      returns (dispatched: bool, blocked: bool, g: Req)
      requires Inv(State()) && ConnAt(State(), p) && peers[p] == Got(f) && Keeps(s0, State(), p, {})
      modifies this
      ensures Inv(State()) && ConnAt(State(), p)
      ensures !blocked ==> if dispatched then peers[p].Serving? else peers[p].Draining? && done && maxConcurrent > 0
      ensures blocked ==> !dispatched && AwaitsToken(p, f)
      ensures dispatched ==>
          g !in s0.reqs && g in reqs && reqs[g] == Request(p, f, Started) && Keeps(s0, State(), p, {g})
      ensures !dispatched ==> Keeps(s0, State(), p, {})
    {
      dispatched, blocked, g := false, false, 0;
      Others(env(1), p, s0);
      if maxConcurrent > 0 && done && (quits || tokens >= maxConcurrent) {
        OwnStep(Abandon(p), p, s0);
        return;
      }
      if maxConcurrent > 0 && tokens >= maxConcurrent {
        blocked := true;
        return;
      }
      g := Admit(p, f, env, s0);
      dispatched := true;
    }

    // The token is there: take it, count the request and start its goroutine.
    method Admit(p: Peer, f: Frame, env: nat -> seq<Label>, ghost s0: Server) returns (g: Req)
      requires Inv(State()) && ConnAt(State(), p) && peers[p] == Got(f)
      requires maxConcurrent > 0 ==> tokens < maxConcurrent
      requires Keeps(s0, State(), p, {})
      modifies this
      ensures Inv(State()) && ConnAt(State(), p) && peers[p].Serving?
      ensures g !in s0.reqs && g in reqs && reqs[g] == Request(p, f, Started) && Keeps(s0, State(), p, {g})
    {
      OwnStep(Acquire(p), p, s0);
      Others(env(2), p, s0);
      OwnStep(Count(p), p, s0);
      Others(env(3), p, s0);
      g := FreshReq();
      OwnStep(Spawn(p, g), p, s0);
    }

    // The deferred function.
    method Deferred(p: Peer, env: nat -> seq<Label>) returns (gone: bool)
      requires Inv(State()) && ConnAt(State(), p) && peers[p].Draining?
      modifies this
      ensures Inv(State()) && Keeps(old(State()), State(), p, {})
      ensures gone ==> p in peers && peers[p].Gone? && p !in sessions
      ensures gone ==> forall g :: g in reqs && reqs[g].peer == p ==> reqs[g].pc.Finished? && AnsweredOnce(State(), g)
      ensures !gone ==> ConnAt(State(), p) && peers[p].Draining? && inflight[p] > 0
    {
      ghost var s0 := State();
      Others(env(0), p, s0);
      if inflight[p] > 0 { return false; }
      OwnStep(OnDisconnect(p), p, s0);
      Others(env(1), p, s0);
      OwnStep(Remove(p), p, s0);
      GoneWasAnswered(State(), p);
      gone := true;
    }
  }
}
