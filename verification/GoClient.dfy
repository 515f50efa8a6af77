/** All runs of the Go channel: any number of goroutines calling AsyncUnaryCall, Connect and Close,
    and one reader per installed connection, interleaved at critical sections.  Dialling, reading
    and writing may fail at any time and any frame may arrive.  */
module GoClient {
  import opened Framing
  import opened GoChannel

  type Tid = nat

  datatype Work = ForCall(cb: Cb, methodId: u32, request: seq<byte>) | ForConnect

  // Where a goroutine stands.
  datatype Pc =
    | Checking(w: Work)                                  // ensureConnected, before the first check
    | Waiting(w: Work)                                   // before connectMu.Lock
    | Rechecking(w: Work)                                // connectMu held from here ...
    | Dialing(w: Work)
    | Dialed(w: Work, conn: Conn)
    | Spawning(w: Work, conn: Conn, gen: u64)            // installed, before `go readLoop`
    | Leaving(w: Work, code: Code)                       // ... to here
    | Registering(cb: Cb, methodId: u32, request: seq<byte>)
    | Writing(conn: Conn, gen: u64, frame: Frame)
    | Tearing(conn: Conn, gen: u64, code: Code, reader: bool)   // before teardown's lock
    | Closing                                            // before Close's lock
    | Flushing(cbs: set<Cb>, code: Code)                 // snapshot taken, callbacks still to run
    | Failing(cb: Cb, code: Code)                        // about to run cb with an error
    | Reading(conn: Conn, gen: u64)
    | Handling(conn: Conn, gen: u64, frame: Frame)
    | Responding(conn: Conn, gen: u64, cb: Cb, code: Code, payload: seq<byte>)
    | Done

  datatype Invocation = Invocation(cb: Cb, code: Code, payload: seq<byte>)
  datatype Heard = Heard(conn: Conn, methodId: u32, payload: seq<byte>)

  /** `issued`, `invoked`, `lost` and `heard` are history: the callbacks handed in, the invocations made,
      the callbacks overwritten in `pending` by a call with the same wrapped id, and the pushes given to
      OnPush.  `bumps` counts the increments of `gen`.  */
  datatype Sys = Sys(core: Core, connectMu: Option<Tid>, threads: map<Tid, Pc>, nextConn: Conn,
                     issued: set<Cb>, invoked: seq<Invocation>, lost: set<Cb>, heard: seq<Heard>, bumps: nat)

  datatype Label =
    | StartCall(t: Tid, cb: Cb, methodId: u32, request: seq<byte>)
    | StartConnect(t: Tid)
    | StartClose(t: Tid)
    | Check(t: Tid)
    | LockMu(t: Tid)
    | Recheck(t: Tid)
    | DialFails(t: Tid, code: Code)
    | DialOk(t: Tid)
    | Install(t: Tid)
    | Spawn(t: Tid, r: Tid)
    | Leave(t: Tid)
    | Register(t: Tid)
    | WriteOk(t: Tid)
    | WriteFails(t: Tid)
    | Teardown(t: Tid)
    | Close(t: Tid)
    | Flush(t: Tid, cb: Cb)
    | Fail(t: Tid)
    | ReadOk(t: Tid, frame: Frame)
    | ReadFails(t: Tid)
    | Handle(t: Tid)
    | Respond(t: Tid)

  function Init(): Sys { Sys(InitCore(), None, map[], 0, {}, [], {}, [], 0) }

  predicate At(s: Sys, t: Tid) { t in s.threads }

  predicate Enabled(s: Sys, l: Label) {
    match l
    case StartCall(t, cb, m, r) => !At(s, t) && cb !in s.issued
    case StartConnect(t) => !At(s, t)
    case StartClose(t) => !At(s, t)
    case Check(t) => At(s, t) && s.threads[t].Checking?
    case LockMu(t) => At(s, t) && s.threads[t].Waiting? && s.connectMu.None?
    case Recheck(t) => At(s, t) && s.threads[t].Rechecking?
    case DialFails(t, code) => At(s, t) && s.threads[t].Dialing? && code != OK
    case DialOk(t) => At(s, t) && s.threads[t].Dialing?
    case Install(t) => At(s, t) && s.threads[t].Dialed?
    case Spawn(t, r) => At(s, t) && s.threads[t].Spawning? && !At(s, r)
    case Leave(t) => At(s, t) && s.threads[t].Leaving?
    case Register(t) => At(s, t) && s.threads[t].Registering?
    case WriteOk(t) => At(s, t) && s.threads[t].Writing?
    case WriteFails(t) => At(s, t) && s.threads[t].Writing?
    case Teardown(t) => At(s, t) && s.threads[t].Tearing?
    case Close(t) => At(s, t) && s.threads[t].Closing?
    case Flush(t, cb) => At(s, t) && s.threads[t].Flushing? && cb in s.threads[t].cbs
    case Fail(t) => At(s, t) && s.threads[t].Failing?
    case ReadOk(t, f) => At(s, t) && s.threads[t].Reading?
    case ReadFails(t) => At(s, t) && s.threads[t].Reading?
    case Handle(t) => At(s, t) && s.threads[t].Handling?
    case Respond(t) => At(s, t) && s.threads[t].Responding?
  }

  function Go(s: Sys, t: Tid, pc: Pc): Sys { s.(threads := s.threads[t := pc]) }

  // ensureConnected has returned `code`: a call goes on or fails, Connect returns.
  function AfterConnect(w: Work, code: Code): Pc {
    match w
    case ForCall(cb, m, r) => if code == OK then Registering(cb, m, r) else Failing(cb, code)
    case ForConnect => Done
  }

  function CheckStep(s: Sys, t: Tid, w: Work): Sys {
    match CheckCore(s.core)
    case AnswerClosed => Go(s, t, AfterConnect(w, UNAVAILABLE))
    case AnswerConnected => Go(s, t, AfterConnect(w, OK))
    case AnswerDial => Go(s, t, Waiting(w))
  }

  function RecheckStep(s: Sys, t: Tid, w: Work): Sys {
    match CheckCore(s.core)
    case AnswerClosed => Go(s, t, Leaving(w, UNAVAILABLE))
    case AnswerConnected => Go(s, t, Leaving(w, OK))
    case AnswerDial => Go(s, t, Dialing(w))
  }

  function InstallStep(s: Sys, t: Tid, w: Work, conn: Conn): Sys {
    if s.core.closed then Go(s, t, Leaving(w, UNAVAILABLE))
    else
      var c := Installed(s.core, conn);
      Go(s.(core := c, bumps := s.bumps + 1), t, Spawning(w, conn, c.gen))
  }

  function RegisterStep(s: Sys, t: Tid, cb: Cb, m: u32, request: seq<byte>): Sys {
    var c := s.core;
    if c.closed then Go(s, t, Failing(cb, CANCELLED))
    else if !Live(c) then Go(s, t, Failing(cb, UNAVAILABLE))
    else
      var over := if c.nextCallId in c.pending then {c.pending[c.nextCallId]} else {};
      Go(s.(core := Registered(c, cb), lost := s.lost + over), t,
         Writing(c.conn.value, c.gen, RequestFrame(c.nextCallId, m, request)))
  }

  function TeardownStep(s: Sys, t: Tid, gen: u64, code: Code): Sys {
    if gen != s.core.gen then Go(s, t, Done)
    else Go(s.(core := TornDown(s.core), bumps := s.bumps + 1), t, Flushing(s.core.pending.Values, code))
  }

  function CloseStep(s: Sys, t: Tid): Sys {
    if s.core.closed then Go(s, t, Done)
    else Go(s.(core := TornDown(s.core).(closed := true), bumps := s.bumps + 1), t,
            Flushing(s.core.pending.Values, CANCELLED))
  }

  function Invoke(s: Sys, cb: Cb, code: Code, payload: seq<byte>): Sys {
    s.(invoked := s.invoked + [Invocation(cb, code, payload)])
  }

  function HandleStep(s: Sys, t: Tid, conn: Conn, gen: u64, f: Frame): Sys {
    if f.hdr.ftype == PUSH then
      Go(s.(heard := s.heard + [Heard(conn, f.hdr.methodId, f.payload)]), t, Reading(conn, gen))
    else if f.hdr.ftype != RESPONSE then Go(s, t, Tearing(conn, gen, INTERNAL, true))
    else if f.hdr.callId !in s.core.pending then Go(s, t, Reading(conn, gen))
    else
      var cb := s.core.pending[f.hdr.callId];
      var payload := if f.hdr.status == OK then f.payload else [];
      Go(s.(core := Removed(s.core, f.hdr.callId)), t, Responding(conn, gen, cb, f.hdr.status, payload))
  }

  function Apply(s: Sys, l: Label): Sys
    requires Enabled(s, l)
  {
    match l
    case StartCall(t, cb, m, r) => Go(s.(issued := s.issued + {cb}), t, Checking(ForCall(cb, m, r)))
    case StartConnect(t) => Go(s, t, Checking(ForConnect))
    case StartClose(t) => Go(s, t, Closing)
    case Check(t) => CheckStep(s, t, s.threads[t].w)
    case LockMu(t) => Go(s.(connectMu := Some(t)), t, Rechecking(s.threads[t].w))
    case Recheck(t) => RecheckStep(s, t, s.threads[t].w)
    case DialFails(t, code) => Go(s, t, Leaving(s.threads[t].w, code))
    case DialOk(t) => Go(s.(nextConn := s.nextConn + 1), t, Dialed(s.threads[t].w, s.nextConn))
    case Install(t) => InstallStep(s, t, s.threads[t].w, s.threads[t].conn)
    case Spawn(t, r) => var pc := s.threads[t];
      Go(Go(s, r, Reading(pc.conn, pc.gen)), t, Leaving(pc.w, OK))
    case Leave(t) => Go(s.(connectMu := None), t, AfterConnect(s.threads[t].w, s.threads[t].code))
    case Register(t) => var pc := s.threads[t]; RegisterStep(s, t, pc.cb, pc.methodId, pc.request)
    case WriteOk(t) => Go(s, t, Done)
    case WriteFails(t) => var pc := s.threads[t]; Go(s, t, Tearing(pc.conn, pc.gen, UNAVAILABLE, false))
    case Teardown(t) => TeardownStep(s, t, s.threads[t].gen, s.threads[t].code)
    case Close(t) => CloseStep(s, t)
    case Flush(t, cb) => var pc := s.threads[t]; Go(Invoke(s, cb, pc.code, []), t, Flushing(pc.cbs - {cb}, pc.code))
    case Fail(t) => Go(Invoke(s, s.threads[t].cb, s.threads[t].code, []), t, Done)
    case ReadOk(t, f) => var pc := s.threads[t]; Go(s, t, Handling(pc.conn, pc.gen, f))
    case ReadFails(t) => var pc := s.threads[t]; Go(s, t, Tearing(pc.conn, pc.gen, UNAVAILABLE, true))
    case Handle(t) => var pc := s.threads[t]; HandleStep(s, t, pc.conn, pc.gen, pc.frame)
    case Respond(t) => var pc := s.threads[t];
      Go(Invoke(s, pc.cb, pc.code, pc.payload), t, Reading(pc.conn, pc.gen))
  }

  predicate Legal(s: Sys, ls: seq<Label>)
    decreases |ls|
  {
    ls == [] || (Enabled(s, ls[0]) && Legal(Apply(s, ls[0]), ls[1..]))
  }

  function Exec(s: Sys, ls: seq<Label>): Sys
    requires Legal(s, ls)
    decreases |ls|
  {
    if ls == [] then s else Exec(Apply(s, ls[0]), ls[1..])
  }

  /************ Callbacks: exactly one place ************/

  // The callbacks a goroutine is responsible for.
  function WorkCbs(w: Work): set<Cb> { if w.ForCall? then {w.cb} else {} }

  function Holds(pc: Pc): set<Cb> {
    match pc
    case Checking(w) => WorkCbs(w)
    case Waiting(w) => WorkCbs(w)
    case Rechecking(w) => WorkCbs(w)
    case Dialing(w) => WorkCbs(w)
    case Dialed(w, _) => WorkCbs(w)
    case Spawning(w, _, _) => WorkCbs(w)
    case Leaving(w, _) => WorkCbs(w)
    case Registering(cb, _, _) => {cb}
    case Failing(cb, _) => {cb}
    case Flushing(cbs, _) => cbs
    case Responding(_, _, cb, _, _) => {cb}
    case _ => {}
  }

  /** Where a callback can be: with a goroutine (not yet registered, or taken by a reader, a
      teardown or Close), in `pending`, in the log of invocations, or overwritten.  */
  datatype Place = Held(t: Tid) | Pending(id: u32) | Invoked(i: nat) | Lost

  ghost predicate In(s: Sys, cb: Cb, p: Place) {
    match p
    case Held(t) => t in s.threads && cb in Holds(s.threads[t])
    case Pending(id) => id in s.core.pending && s.core.pending[id] == cb
    case Invoked(i) => i < |s.invoked| && s.invoked[i].cb == cb
    case Lost => cb in s.lost
  }

  // Every issued callback is in exactly one place, and no other callback is anywhere.
  ghost predicate Accounted(s: Sys) {
    && (forall cb :: cb in s.issued ==> exists p :: In(s, cb, p))
    && (forall cb, p, q :: In(s, cb, p) && In(s, cb, q) ==> p == q)
    && (forall cb, p :: In(s, cb, p) ==> cb in s.issued)
  }

  // A step that sends the callbacks of `to` to new places and leaves the others alone.
  lemma Relocated(s: Sys, s': Sys, to: map<Cb, Place>)
    requires Accounted(s)
    requires forall cb, p :: In(s', cb, p) <==> if cb in to then p == to[cb] else In(s, cb, p)
    requires forall cb :: cb in s'.issued <==> cb in s.issued || cb in to
    ensures Accounted(s')
  {
    forall cb | cb in s'.issued ensures exists p :: In(s', cb, p) {
      if cb in to {
        assert In(s', cb, to[cb]);
      } else {
        var p :| In(s, cb, p);
        assert In(s', cb, p);
      }
    }
  }

  function HoldsAt(s: Sys, t: Tid): set<Cb> { if t in s.threads then Holds(s.threads[t]) else {} }

  // Only goroutine t has changed; `u` is unaffected otherwise.
  ghost predicate OthersStay(s: Sys, s': Sys, t: Tid) {
    forall u :: u != t ==> (u in s'.threads <==> u in s.threads) && (u in s.threads ==> s'.threads[u] == s.threads[u])
  }

  // The same goroutine goes on with the same callbacks.
  lemma MoveKeeps(s: Sys, s': Sys, t: Tid)
    requires Accounted(s) && OthersStay(s, s', t) && HoldsAt(s', t) == HoldsAt(s, t)
    requires s'.core.pending == s.core.pending && s'.invoked == s.invoked && s'.lost == s.lost && s'.issued == s.issued
    ensures Accounted(s')
  {
    forall cb, p ensures In(s', cb, p) <==> In(s, cb, p) {
      if p.Held? { assert cb in HoldsAt(s', p.t) <==> cb in HoldsAt(s, p.t); }
    }
    Relocated(s, s', map[]);
  }

  lemma StartKeeps(s: Sys, t: Tid, cb: Cb, m: u32, r: seq<byte>)
    requires Accounted(s) && Enabled(s, StartCall(t, cb, m, r))
    ensures Accounted(Apply(s, StartCall(t, cb, m, r)))
  {
    var s' := Apply(s, StartCall(t, cb, m, r));
    forall c, p ensures In(s', c, p) <==> if c == cb then p == Held(t) else In(s, c, p) {
      if c == cb { assert !In(s, cb, p); }
    }
    Relocated(s, s', map[cb := Held(t)]);
  }

  // A goroutine runs one of its callbacks and keeps the others.
  lemma InvokeKeeps(s: Sys, s': Sys, t: Tid, cb: Cb)
    requires Accounted(s) && OthersStay(s, s', t) && cb in HoldsAt(s, t) && HoldsAt(s', t) == HoldsAt(s, t) - {cb}
    requires s'.core.pending == s.core.pending && s'.lost == s.lost && s'.issued == s.issued
    requires |s'.invoked| == |s.invoked| + 1 && s'.invoked[..|s.invoked|] == s.invoked
    requires s'.invoked[|s.invoked|].cb == cb
    ensures Accounted(s')
  {
    assert In(s, cb, Held(t));
    forall c, p ensures In(s', c, p) <==> if c == cb then p == Invoked(|s.invoked|) else In(s, c, p) {
      assert c == cb && In(s, c, p) ==> p == Held(t);
      if p.Held? { assert c in HoldsAt(s', p.t) <==> c in HoldsAt(s, p.t) && !(p.t == t && c == cb); }
      if p.Invoked? && p.i < |s.invoked| { assert s'.invoked[p.i] == s.invoked[p.i]; }
    }
    Relocated(s, s', map[cb := Invoked(|s.invoked|)]);
  }

  // A call is registered: its callback moves to `pending`; one with the same id is overwritten.
  lemma RegisterKeeps(s: Sys, t: Tid)
    requires Accounted(s) && Enabled(s, Register(t)) && !s.core.closed && Live(s.core)
    ensures Accounted(Apply(s, Register(t)))
  {
    var s' := Apply(s, Register(t));
    var cb, id, pending := s.threads[t].cb, s.core.nextCallId, s.core.pending;
    assert In(s, cb, Held(t));
    var to: map<Cb, Place> := map[cb := Pending(id)];
    if id in pending {
      assert In(s, pending[id], Pending(id));
      to := to[pending[id] := Lost];
    }
    forall c, p ensures In(s', c, p) <==> if c in to then p == to[c] else In(s, c, p) {
      assert c == cb && In(s, c, p) ==> p == Held(t);
      assert id in pending && c == pending[id] && In(s, c, p) ==> p == Pending(id);
      if p.Held? { assert c in HoldsAt(s', p.t) <==> c in HoldsAt(s, p.t) && !(p.t == t && c == cb); }
    }
    Relocated(s, s', to);
  }

  // A teardown or Close takes every pending callback.
  lemma SnapshotKeeps(s: Sys, s': Sys, t: Tid)
    requires Accounted(s) && OthersStay(s, s', t) && HoldsAt(s, t) == {} && HoldsAt(s', t) == s.core.pending.Values
    requires s'.core.pending == map[] && s'.invoked == s.invoked && s'.lost == s.lost && s'.issued == s.issued
    ensures Accounted(s')
  {
    var to := map cb | cb in s.core.pending.Values :: Held(t);
    forall c, p ensures In(s', c, p) <==> if c in to then p == to[c] else In(s, c, p) {
      if c in to {
        var id :| id in s.core.pending && s.core.pending[id] == c;
        assert In(s, c, Pending(id));
        assert In(s, c, p) ==> p == Pending(id);
      } else if p.Pending? {
        assert !In(s, c, p);
      }
      if p.Held? { assert c in HoldsAt(s', p.t) <==> if p.t == t then c in to else c in HoldsAt(s, p.t); }
    }
    forall c | c in to ensures c in s.issued {
      var id :| id in s.core.pending && s.core.pending[id] == c;
      assert In(s, c, Pending(id));
    }
    Relocated(s, s', to);
  }

  // The reader takes the callback of a response out of `pending`.
  lemma TakeKeeps(s: Sys, s': Sys, t: Tid, id: u32)
    requires Accounted(s) && OthersStay(s, s', t) && id in s.core.pending
    requires HoldsAt(s, t) == {} && HoldsAt(s', t) == {s.core.pending[id]}
    requires s'.core.pending == s.core.pending - {id}
    requires s'.invoked == s.invoked && s'.lost == s.lost && s'.issued == s.issued
    ensures Accounted(s')
  {
    var cb := s.core.pending[id];
    assert In(s, cb, Pending(id));
    forall c, p ensures In(s', c, p) <==> if c == cb then p == Held(t) else In(s, c, p) {
      assert c == cb && In(s, c, p) ==> p == Pending(id);
      if p.Held? { assert c in HoldsAt(s', p.t) <==> if p.t == t then c == cb else c in HoldsAt(s, p.t); }
    }
    Relocated(s, s', map[cb := Held(t)]);
  }

  lemma SpawnKeeps(s: Sys, t: Tid, r: Tid)
    requires Accounted(s) && Enabled(s, Spawn(t, r))
    ensures Accounted(Apply(s, Spawn(t, r)))
  {
    var s1 := Go(s, r, Reading(s.threads[t].conn, s.threads[t].gen));
    MoveKeeps(s, s1, r);
    MoveKeeps(s1, Apply(s, Spawn(t, r)), t);
  }

  // Steps after which the goroutine still holds what it held.
  predicate OnlyMoves(l: Label) {
    match l
    case StartCall(_, _, _, _) => false
    case Spawn(_, _) => false
    case Register(_) => false
    case Teardown(_) => false
    case Close(_) => false
    case Flush(_, _) => false
    case Fail(_) => false
    case Handle(_) => false
    case Respond(_) => false
    case _ => true
  }

  lemma MoveAccounts(s: Sys, l: Label)
    requires Accounted(s) && Enabled(s, l) && OnlyMoves(l)
    ensures Accounted(Apply(s, l))
  {
    MoveShape(s, l);
    MoveKeeps(s, Apply(s, l), l.t);
  }

  lemma MoveShape(s: Sys, l: Label)
    requires Enabled(s, l) && OnlyMoves(l)
    ensures OthersStay(s, Apply(s, l), l.t) && HoldsAt(Apply(s, l), l.t) == HoldsAt(s, l.t)
  {
    MoveHolds(s, l);
  }

  lemma MoveHolds(s: Sys, l: Label)
    requires Enabled(s, l) && OnlyMoves(l)
    ensures HoldsAt(Apply(s, l), l.t) == HoldsAt(s, l.t)
  {}

  lemma RegisterAccounts(s: Sys, t: Tid)
    requires Accounted(s) && Enabled(s, Register(t))
    ensures Accounted(Apply(s, Register(t)))
  {
    if !s.core.closed && Live(s.core) { RegisterKeeps(s, t); } else { MoveKeeps(s, Apply(s, Register(t)), t); }
  }

  lemma TeardownAccounts(s: Sys, t: Tid)
    requires Accounted(s) && Enabled(s, Teardown(t))
    ensures Accounted(Apply(s, Teardown(t)))
  {
    var s' := Apply(s, Teardown(t));
    if s.threads[t].gen == s.core.gen { SnapshotKeeps(s, s', t); } else { MoveKeeps(s, s', t); }
  }

  lemma CloseAccounts(s: Sys, t: Tid)
    requires Accounted(s) && Enabled(s, Close(t))
    ensures Accounted(Apply(s, Close(t)))
  {
    var s' := Apply(s, Close(t));
    if !s.core.closed { SnapshotKeeps(s, s', t); } else { MoveKeeps(s, s', t); }
  }

  lemma InvokeAccounts(s: Sys, l: Label)
    requires Accounted(s) && Enabled(s, l) && (l.Flush? || l.Fail? || l.Respond?)
    ensures Accounted(Apply(s, l))
  {
    InvokeKeeps(s, Apply(s, l), l.t, if l.Flush? then l.cb else s.threads[l.t].cb);
  }

  lemma HandleAccounts(s: Sys, t: Tid)
    requires Accounted(s) && Enabled(s, Handle(t))
    ensures Accounted(Apply(s, Handle(t)))
  {
    var s' := Apply(s, Handle(t));
    if s'.threads[t].Responding? {
      TakeKeeps(s, s', t, s.threads[t].frame.hdr.callId);
    } else {
      MoveKeeps(s, s', t);
    }
  }

  lemma StepAccounts(s: Sys, l: Label)
    requires Accounted(s) && Enabled(s, l)
    ensures Accounted(Apply(s, l))
  {
    match l {
      case StartCall(t, cb, m, r) => StartKeeps(s, t, cb, m, r);
      case Spawn(t, r) => SpawnKeeps(s, t, r);
      case Register(t) => RegisterAccounts(s, t);
      case Teardown(t) => TeardownAccounts(s, t);
      case Close(t) => CloseAccounts(s, t);
      case Flush(_, _) => InvokeAccounts(s, l);
      case Fail(_) => InvokeAccounts(s, l);
      case Respond(_) => InvokeAccounts(s, l);
      case Handle(t) => HandleAccounts(s, t);
      case _ => MoveAccounts(s, l);
    }
  }

  lemma {:induction false} RunAccounts(s: Sys, ls: seq<Label>)
    requires Accounted(s) && Legal(s, ls)
    ensures Accounted(Exec(s, ls))
    decreases |ls|
  {
    if ls != [] {
      StepAccounts(s, ls[0]);
      RunAccounts(Apply(s, ls[0]), ls[1..]);
    }
  }

  /** In every run, every callback handed to AsyncUnaryCall is in exactly one place; in particular
      it has been invoked at most once, whatever write failures, read failures and Close race.  */
  lemma ExactlyOnePlace(ls: seq<Label>, cb: Cb)
    requires Legal(Init(), ls) && cb in Exec(Init(), ls).issued
    ensures var s := Exec(Init(), ls);
      && (exists p :: In(s, cb, p) && forall q :: In(s, cb, q) ==> q == p)
      && (forall i, j :: 0 <= i < |s.invoked| && 0 <= j < |s.invoked| && s.invoked[i].cb == s.invoked[j].cb ==> i == j)
  {
    RunAccounts(Init(), ls);
    var s := Exec(Init(), ls);
    var p :| In(s, cb, p);
    forall i, j | 0 <= i < |s.invoked| && 0 <= j < |s.invoked| && s.invoked[i].cb == s.invoked[j].cb ensures i == j {
      assert In(s, s.invoked[i].cb, Invoked(i)) && In(s, s.invoked[j].cb, Invoked(j));
    }
  }

  /************ Call ids ************/

  // The step registers a call.
  predicate Admitted(s: Sys, l: Label) { Enabled(s, l) && l.Register? && !s.core.closed && Live(s.core) }

  // The registrations of a run: how many, and which of them each callback's was.
  datatype Log = Log(n: nat, at: map<Cb, nat>)

  function LogStep(s: Sys, l: Label, g: Log): Log
    requires Enabled(s, l)
  {
    if Admitted(s, l) then Log(g.n + 1, g.at[s.threads[l.t].cb := g.n]) else g
  }

  function Logged(s: Sys, ls: seq<Label>, g: Log): Log
    requires Legal(s, ls)
    decreases |ls|
  {
    if ls == [] then g else Logged(Apply(s, ls[0]), ls[1..], LogStep(s, ls[0], g))
  }

  function IdOf(n: nat): u32 { (1 + n) % TWO32 }

  // A pending callback has the id of its registration,
  ghost predicate PendingLogged(pending: map<u32, Cb>, g: Log) {
    forall id :: id in pending ==> pending[id] in g.at && g.at[pending[id]] < g.n && id == IdOf(g.at[pending[id]])
  }

  // and a lost one was followed by 2^32 others.
  ghost predicate LostLogged(lost: set<Cb>, g: Log) { forall cb :: cb in lost ==> cb in g.at && g.at[cb] + TWO32 < g.n }

  ghost predicate LogOk(s: Sys, g: Log) {
    s.core.nextCallId == IdOf(g.n) && PendingLogged(s.core.pending, g) && LostLogged(s.lost, g)
  }

  lemma SameIdFarApart(i: nat, j: nat)
    requires i < j && IdOf(i) == IdOf(j)
    ensures i + TWO32 <= j
  {}

  // One more registration, by a callback that was nowhere yet.
  lemma LogMore(pending: map<u32, Cb>, id: u32, pending': map<u32, Cb>, lost: set<Cb>, lost': set<Cb>, g: Log, cb: Cb)
    requires PendingLogged(pending, g) && LostLogged(lost, g) && cb !in lost
    requires forall i :: i in pending ==> pending[i] != cb
    requires id == IdOf(g.n) && pending' == pending[id := cb]
    requires lost' == lost + (if id in pending then {pending[id]} else {})
    ensures PendingLogged(pending', Log(g.n + 1, g.at[cb := g.n])) && LostLogged(lost', Log(g.n + 1, g.at[cb := g.n]))
  {
    if id in pending { SameIdFarApart(g.at[pending[id]], g.n); }
  }

  // A callback a goroutine holds is neither pending nor lost.
  lemma HeldOnly(s: Sys, t: Tid, cb: Cb)
    requires Accounted(s) && t in s.threads && cb in Holds(s.threads[t])
    ensures cb !in s.lost && forall id :: id in s.core.pending ==> s.core.pending[id] != cb
  {
    assert In(s, cb, Held(t)) && !In(s, cb, Lost);
    forall id | id in s.core.pending ensures s.core.pending[id] != cb {
      assert In(s, s.core.pending[id], Pending(id));
    }
  }

  // s' is s after registering cb.
  ghost predicate Registers(s: Sys, s': Sys, cb: Cb) {
    var id := s.core.nextCallId;
    && s'.core.nextCallId == NextId(id) && s'.core.pending == s.core.pending[id := cb]
    && s'.lost == s.lost + (if id in s.core.pending then {s.core.pending[id]} else {})
  }

  lemma NextIdOf(n: nat)
    ensures NextId(IdOf(n)) == IdOf(n + 1)
  {}

  lemma LogsAfter(s: Sys, s': Sys, g: Log, cb: Cb)
    requires LogOk(s, g) && Registers(s, s', cb) && cb !in s.lost
    requires forall id :: id in s.core.pending ==> s.core.pending[id] != cb
    ensures LogOk(s', Log(g.n + 1, g.at[cb := g.n]))
  {
    NextIdOf(g.n);
    LogMore(s.core.pending, s.core.nextCallId, s'.core.pending, s.lost, s'.lost, g, cb);
  }

  lemma RegisterShape(s: Sys, t: Tid)
    requires Admitted(s, Register(t))
    ensures Registers(s, Apply(s, Register(t)), s.threads[t].cb)
  {}

  lemma RegisterLogs(s: Sys, t: Tid, g: Log)
    requires Accounted(s) && LogOk(s, g) && Admitted(s, Register(t))
    ensures LogOk(Apply(s, Register(t)), LogStep(s, Register(t), g))
  {
    HeldOnly(s, t, s.threads[t].cb);
    RegisterShape(s, t);
    LogsAfter(s, Apply(s, Register(t)), g, s.threads[t].cb);
  }

  lemma OtherLogs(s: Sys, l: Label)
    requires Enabled(s, l) && !Admitted(s, l)
    ensures var s' := Apply(s, l);
      && s'.core.nextCallId == s.core.nextCallId && s'.lost == s.lost
      && forall id :: id in s'.core.pending ==> id in s.core.pending && s'.core.pending[id] == s.core.pending[id]
  {}

  lemma {:induction false} RunLogs(s: Sys, ls: seq<Label>, g: Log)
    requires Accounted(s) && LogOk(s, g) && Legal(s, ls)
    ensures LogOk(Exec(s, ls), Logged(s, ls, g))
    decreases |ls|
  {
    if ls != [] {
      StepAccounts(s, ls[0]);
      if Admitted(s, ls[0]) { RegisterLogs(s, ls[0].t, g); } else { OtherLogs(s, ls[0]); }
      RunLogs(Apply(s, ls[0]), ls[1..], LogStep(s, ls[0], g));
    }
  }

  /** In every run a callback is lost only if at least 2^32 calls were registered after it, so none is while at
      most 2^32 are registered in all.  */
  lemma LostWasOvertaken(ls: seq<Label>)
    requires Legal(Init(), ls)
    ensures var s, g := Exec(Init(), ls), Logged(Init(), ls, Log(0, map[]));
      && (forall cb :: cb in s.lost ==> cb in g.at && g.n - 1 - g.at[cb] >= TWO32)
      && (g.n <= TWO32 ==> s.lost == {})
  {
    RunLogs(Init(), ls, Log(0, map[]));
  }

  /** When every goroutine has finished, every callback has been invoked exactly once, except the
      overwritten ones; so after Close nothing is left waiting.  */
  lemma QuiescentMeansAllInvoked(ls: seq<Label>, cb: Cb)
    requires Legal(Init(), ls)
    requires var s := Exec(Init(), ls);
      cb in s.issued && s.core.pending == map[] && forall t :: t in s.threads ==> Holds(s.threads[t]) == {}
    ensures var s := Exec(Init(), ls); cb !in s.lost <==> exists i :: 0 <= i < |s.invoked| && s.invoked[i].cb == cb
  {
    RunAccounts(Init(), ls);
    var s := Exec(Init(), ls);
    var p :| In(s, cb, p);
    if i :| 0 <= i < |s.invoked| && s.invoked[i].cb == cb {
      assert In(s, cb, Invoked(i));
      assert !In(s, cb, Lost);
    }
  }

  /************ Connections, generations and readers ************/

  predicate HoldsMu(pc: Pc) {
    pc.Rechecking? || pc.Dialing? || pc.Dialed? || pc.Spawning? || pc.Leaving?
  }

  // Goroutines that carry a connection and the generation it was installed with.
  predicate HasToken(pc: Pc) {
    pc.Spawning? || pc.Writing? || pc.Tearing? || pc.Reading? || pc.Handling? || pc.Responding?
  }

  // The reader of a connection: about to start, running, or about to tear it down.
  predicate IsReader(pc: Pc) {
    pc.Spawning? || pc.Reading? || pc.Handling? || pc.Responding? || (pc.Tearing? && pc.reader)
  }

  ghost predicate MuOk(s: Sys) {
    forall t :: t in s.threads && HoldsMu(s.threads[t]) ==> s.connectMu == Some(t)
  }

  // Pending calls only with a live connection; closed means disconnected.
  ghost predicate CoreOk(s: Sys) {
    && (s.core.connected <==> s.core.conn.Some?)
    && (s.core.closed ==> !s.core.connected)
    && (!s.core.connected ==> s.core.pending == map[])
    && (s.core.conn.Some? ==> s.core.conn.value < s.nextConn)
    && s.core.gen == s.bumps
  }

  // While a goroutine is dialling, the channel is disconnected, and what it dialled is new.
  ghost predicate DialsOk(s: Sys) {
    && (forall t :: t in s.threads && (s.threads[t].Dialing? || s.threads[t].Dialed?) ==> !s.core.connected)
    && (forall t :: t in s.threads && s.threads[t].Dialed? ==> s.threads[t].conn < s.nextConn)
    && (forall t, u :: t in s.threads && u in s.threads && s.threads[t].Dialed? && HasToken(s.threads[u]) ==>
         s.threads[t].conn != s.threads[u].conn)
  }

  // A generation is current iff its connection is the live one.
  ghost predicate TokenOk(s: Sys, pc: Pc) {
    HasToken(pc) ==>
      pc.gen <= s.core.gen && pc.conn < s.nextConn && (pc.gen == s.core.gen <==> s.core.conn == Some(pc.conn))
  }

  ghost predicate TokensOk(s: Sys) { forall t :: t in s.threads ==> TokenOk(s, s.threads[t]) }

  // One reader per generation, and one for the live connection.
  ghost predicate ReadersOk(s: Sys) {
    && (forall t, u | t in s.threads && u in s.threads && IsReader(s.threads[t]) && IsReader(s.threads[u]) ::
         s.threads[t].gen == s.threads[u].gen ==> t == u)
    && (s.core.connected ==> exists t :: LiveReader(s, t))
  }

  ghost predicate LiveReader(s: Sys, t: Tid) {
    t in s.threads && IsReader(s.threads[t]) && s.threads[t].gen == s.core.gen
  }

  ghost predicate Inv(s: Sys) { MuOk(s) && CoreOk(s) && DialsOk(s) && TokensOk(s) && ReadersOk(s) }

  // A goroutine whose new place needs nothing it did not have, the connection staying as it is.
  ghost predicate Glides(s: Sys, s': Sys, t: Tid) {
    && t in s'.threads && OthersStay(s, s', t)
    && s'.core == s.core.(pending := s'.core.pending, nextCallId := s'.core.nextCallId)
    && s'.connectMu == s.connectMu && s'.nextConn == s.nextConn && s'.bumps == s.bumps
    && var pc' := s'.threads[t];
    && (!s.core.connected ==> s'.core.pending == map[])
    && (HoldsMu(pc') ==> t in s.threads && HoldsMu(s.threads[t]))
    && !pc'.Dialed?
    && (pc'.Dialing? ==> !s.core.connected)
    && (HasToken(pc') ==>
         || (t in s.threads && HasToken(s.threads[t]) && s.threads[t].conn == pc'.conn && s.threads[t].gen == pc'.gen)
         || (s.core.conn == Some(pc'.conn) && pc'.gen == s.core.gen))
    && (IsReader(pc') ==> t in s.threads && IsReader(s.threads[t]) && s.threads[t].gen == pc'.gen)
    && (t in s.threads && IsReader(s.threads[t]) && s.threads[t].gen == s.core.gen ==> IsReader(pc'))
  }

  lemma GlideKeeps(s: Sys, s': Sys, t: Tid)
    requires Inv(s) && Glides(s, s', t)
    ensures Inv(s')
  {
    if s.core.connected {
      var u :| LiveReader(s, u);
      assert LiveReader(s', u);
    }
  }

  lemma StartInv(s: Sys, l: Label)
    requires Inv(s) && Enabled(s, l) && (l.StartCall? || l.StartConnect? || l.StartClose? || l.Check?)
    ensures Inv(Apply(s, l))
  {
    GlideKeeps(s, Apply(s, l), l.t);
  }

  lemma RecheckInv(s: Sys, l: Label)
    requires Inv(s) && Enabled(s, l) && (l.Recheck? || l.DialFails?)
    ensures Inv(Apply(s, l))
  {
    GlideKeeps(s, Apply(s, l), l.t);
  }

  lemma RegisterInv(s: Sys, t: Tid)
    requires Inv(s) && Enabled(s, Register(t))
    ensures Inv(Apply(s, Register(t)))
  {
    GlideKeeps(s, Apply(s, Register(t)), t);
  }

  lemma WriteInv(s: Sys, l: Label)
    requires Inv(s) && Enabled(s, l) && (l.WriteOk? || l.WriteFails? || l.Flush? || l.Fail?)
    ensures Inv(Apply(s, l))
  {
    GlideKeeps(s, Apply(s, l), l.t);
  }

  lemma ReadInv(s: Sys, l: Label)
    requires Inv(s) && Enabled(s, l) && (l.ReadOk? || l.ReadFails? || l.Respond?)
    ensures Inv(Apply(s, l))
  {
    GlideKeeps(s, Apply(s, l), l.t);
  }

  lemma HandleInv(s: Sys, t: Tid)
    requires Inv(s) && Enabled(s, Handle(t))
    ensures Inv(Apply(s, Handle(t)))
  {
    GlideKeeps(s, Apply(s, Handle(t)), t);
  }

  // A goroutine before its teardown stays there until it makes it.
  lemma StaysBeforeTeardown(s: Sys, l: Label, t: Tid)
    requires Enabled(s, l) && t in s.threads && s.threads[t].Tearing? && !(l.Teardown? && l.t == t)
    ensures t in Apply(s, l).threads && Apply(s, l).threads[t] == s.threads[t]
  {}

  // connectMu changes hands; nothing else that matters does.
  lemma MuKeeps(s: Sys, s': Sys, t: Tid)
    requires Inv(s) && OthersStay(s, s', t) && t in s.threads && t in s'.threads
    requires s' == s.(connectMu := s'.connectMu, threads := s'.threads)
    requires !HasToken(s.threads[t]) && !HasToken(s'.threads[t]) && !s'.threads[t].Dialing? && !s'.threads[t].Dialed?
    requires || (s.connectMu == None && s'.connectMu == Some(t))
             || (s.connectMu == Some(t) && !HoldsMu(s'.threads[t]))
    ensures Inv(s')
  {
    if s.core.connected {
      var u :| LiveReader(s, u);
      assert LiveReader(s', u);
    }
  }

  lemma LockInv(s: Sys, t: Tid)
    requires Inv(s) && Enabled(s, LockMu(t))
    ensures Inv(Apply(s, LockMu(t)))
  {
    MuKeeps(s, Apply(s, LockMu(t)), t);
  }

  lemma LeaveInv(s: Sys, t: Tid)
    requires Inv(s) && Enabled(s, Leave(t))
    ensures Inv(Apply(s, Leave(t)))
  {
    MuKeeps(s, Apply(s, Leave(t)), t);
  }

  lemma DialOkInv(s: Sys, t: Tid)
    requires Inv(s) && Enabled(s, DialOk(t))
    ensures Inv(Apply(s, DialOk(t)))
  {}

  /** Installing a connection happens only while none is live, so it never overwrites one.  */
  lemma InstallInv(s: Sys, t: Tid)
    requires Inv(s) && Enabled(s, Install(t)) && Apply(s, Install(t)).bumps < TWO64
    ensures Inv(Apply(s, Install(t)))
    ensures !s.core.connected
  {
    var s' := Apply(s, Install(t));
    if !s.core.closed { assert LiveReader(s', t); }
  }

  lemma SpawnInv(s: Sys, t: Tid, r: Tid)
    requires Inv(s) && Enabled(s, Spawn(t, r))
    ensures Inv(Apply(s, Spawn(t, r)))
  {
    var s' := Apply(s, Spawn(t, r));
    if s.core.connected {
      var u :| LiveReader(s, u);
      assert LiveReader(s', if u == t then r else u);
    }
  }

  // The live connection goes away and its generation with it.
  ghost predicate Tears(s: Sys, s': Sys, t: Tid) {
    && OthersStay(s, s', t) && t in s'.threads && s'.threads[t].Flushing?
    && s'.core == TornDown(s.core).(closed := s'.core.closed) && s'.bumps == s.bumps + 1 < TWO64
    && s'.connectMu == s.connectMu && s'.nextConn == s.nextConn
  }

  lemma TornTokens(s: Sys, s': Sys, t: Tid)
    requires CoreOk(s) && TokensOk(s) && Tears(s, s', t)
    ensures CoreOk(s') && TokensOk(s')
  {
    forall u | u in s'.threads ensures TokenOk(s', s'.threads[u]) {
      assert u != t ==> TokenOk(s, s.threads[u]);
    }
  }

  lemma TornKeeps(s: Sys, s': Sys, t: Tid)
    requires Inv(s) && Tears(s, s', t)
    ensures Inv(s')
  {
    TornTokens(s, s', t);
  }

  lemma TeardownInv(s: Sys, t: Tid)
    requires Inv(s) && Enabled(s, Teardown(t)) && Apply(s, Teardown(t)).bumps < TWO64
    ensures Inv(Apply(s, Teardown(t)))
  {
    var s' := Apply(s, Teardown(t));
    if s.threads[t].gen == s.core.gen { TornKeeps(s, s', t); } else { GlideKeeps(s, s', t); }
  }

  lemma CloseInv(s: Sys, t: Tid)
    requires Inv(s) && Enabled(s, Close(t)) && Apply(s, Close(t)).bumps < TWO64
    ensures Inv(Apply(s, Close(t)))
  {
    var s' := Apply(s, Close(t));
    if !s.core.closed { TornKeeps(s, s', t); } else { GlideKeeps(s, s', t); }
  }

  lemma StepInv(s: Sys, l: Label)
    requires Inv(s) && Enabled(s, l) && Apply(s, l).bumps < TWO64
    ensures Inv(Apply(s, l))
  {
    match l {
      case StartCall(t, cb, m, r) => StartInv(s, l);
      case StartConnect(t) => StartInv(s, l);
      case StartClose(t) => StartInv(s, l);
      case Check(t) => StartInv(s, l);
      case LockMu(t) => LockInv(s, t);
      case Recheck(t) => RecheckInv(s, l);
      case DialFails(t, code) => RecheckInv(s, l);
      case DialOk(t) => DialOkInv(s, t);
      case Install(t) => InstallInv(s, t);
      case Spawn(t, r) => SpawnInv(s, t, r);
      case Leave(t) => LeaveInv(s, t);
      case _ => TrafficInv(s, l);
    }
  }

  predicate IsTraffic(l: Label) {
    l.Register? || l.WriteOk? || l.WriteFails? || l.Teardown? || l.Close? || l.Flush? || l.Fail? || l.ReadOk?
      || l.ReadFails? || l.Handle? || l.Respond?
  }

  lemma TrafficInv(s: Sys, l: Label)
    requires Inv(s) && Enabled(s, l) && Apply(s, l).bumps < TWO64 && IsTraffic(l)
    ensures Inv(Apply(s, l))
  {
    if l.Register? {
      RegisterInv(s, l.t);
    } else if l.Teardown? {
      TeardownInv(s, l.t);
    } else if l.Close? {
      CloseInv(s, l.t);
    } else if l.Handle? {
      HandleInv(s, l.t);
    } else if l.ReadOk? || l.ReadFails? || l.Respond? {
      ReadInv(s, l);
    } else {
      WriteInv(s, l);
    }
  }

  lemma BumpsGrow(s: Sys, l: Label)
    requires Enabled(s, l)
    ensures s.bumps <= Apply(s, l).bumps
  {}

  lemma {:induction false} BumpsGrowRun(s: Sys, ls: seq<Label>)
    requires Legal(s, ls)
    ensures s.bumps <= Exec(s, ls).bumps
    decreases |ls|
  {
    if ls != [] {
      BumpsGrow(s, ls[0]);
      BumpsGrowRun(Apply(s, ls[0]), ls[1..]);
    }
  }

  // In a run in which `gen` has not wrapped around, the invariant holds.
  lemma {:induction false} RunInv(s: Sys, ls: seq<Label>)
    requires Inv(s) && Legal(s, ls) && Exec(s, ls).bumps < TWO64
    ensures Inv(Exec(s, ls))
    decreases |ls|
  {
    if ls != [] {
      BumpsGrowRun(Apply(s, ls[0]), ls[1..]);
      StepInv(s, ls[0]);
      RunInv(Apply(s, ls[0]), ls[1..]);
    }
  }

  /************ What every run guarantees ************/

  /** No orphans: a pending call implies a live connection, and the live connection has exactly one
      reader holding the current generation, running or about to start.  */
  lemma NoOrphans(ls: seq<Label>)
    requires Legal(Init(), ls) && Exec(Init(), ls).bumps < TWO64
    ensures var s := Exec(Init(), ls);
      && (s.core.pending != map[] ==> Live(s.core))
      && (Live(s.core) <==> exists t :: LiveReader(s, t))
      && (forall t, u :: LiveReader(s, t) && LiveReader(s, u) ==> t == u)
  {
    RunInv(Init(), ls);
    var s := Exec(Init(), ls);
    if t :| LiveReader(s, t) { assert TokenOk(s, s.threads[t]); }
  }

  // The reader hands its connection on, or loses it to a flush of everything pending.
  ghost predicate ReaderLeft(s: Sys, s': Sys, l: Label, t: Tid) {
    || (l.Spawn? && l.t == t && LiveReader(s', l.r) && s'.core == s.core)
    || ((l.Teardown? || l.Close?) && s'.core.pending == map[] && !s'.core.connected
        && l.t in s'.threads && s'.threads[l.t].Flushing? && s'.threads[l.t].cbs == s.core.pending.Values)
  }

  lemma ReaderStep(s: Sys, l: Label, t: Tid)
    requires Inv(s) && Enabled(s, l) && LiveReader(s, t) && (l.Spawn? || l.Teardown? || l.Close? || l.Install?)
    ensures LiveReader(Apply(s, l), t) || ReaderLeft(s, Apply(s, l), l, t)
  {
    assert TokenOk(s, s.threads[t]);
    if l.Install? { InstallKeepsCore(s, l.t); }
  }

  lemma ReaderStays(s: Sys, l: Label, t: Tid)
    requires Inv(s) && Enabled(s, l) && LiveReader(s, t) && !l.Spawn? && !l.Teardown? && !l.Close? && !l.Install?
    ensures LiveReader(Apply(s, l), t)
  {}

  /** The reader of the live connection stops being its reader in two ways only: it hands over to the
      goroutine `go readLoop` starts, or some teardown or Close takes every pending callback.  */
  lemma LiveReaderLeavesOnlyByFlush(ls: seq<Label>, l: Label, t: Tid)
    requires Legal(Init(), ls) && Exec(Init(), ls).bumps < TWO64
    requires Enabled(Exec(Init(), ls), l) && LiveReader(Exec(Init(), ls), t)
    ensures var s := Exec(Init(), ls); LiveReader(Apply(s, l), t) || ReaderLeft(s, Apply(s, l), l, t)
  {
    RunInv(Init(), ls);
    var s := Exec(Init(), ls);
    if l.Spawn? || l.Teardown? || l.Close? || l.Install? { ReaderStep(s, l, t); } else { ReaderStays(s, l, t); }
  }

  // A live reader means a live connection, so nobody is at the point of installing one.
  lemma InstallKeepsCore(s: Sys, t: Tid)
    requires Inv(s) && Enabled(s, Install(t))
    ensures !s.core.connected
  {}

  /** Generation safety: whoever carries a generation carries the current one iff its connection is
      the live one, and a teardown with any other generation changes nothing.  */
  lemma GenerationSafety(ls: seq<Label>, t: Tid)
    requires Legal(Init(), ls) && Exec(Init(), ls).bumps < TWO64
    requires t in Exec(Init(), ls).threads
    ensures var s := Exec(Init(), ls); var pc := s.threads[t];
      && (HasToken(pc) ==> (pc.gen == s.core.gen <==> s.core.conn == Some(pc.conn)))
      && (pc.Dialed? ==> !s.core.connected && s.core.conn == None)
      && (pc.Tearing? ==> (Apply(s, Teardown(t)).core == s.core <==> s.core.conn != Some(pc.conn)))
  {
    RunInv(Init(), ls);
    assert TokenOk(Exec(Init(), ls), Exec(Init(), ls).threads[t]);
  }

  lemma {:induction false} ClosedStays(s: Sys, ls: seq<Label>)
    requires Legal(s, ls) && s.core.closed
    ensures Exec(s, ls).core.closed
    decreases |ls|
  {
    if ls != [] { ClosedStays(Apply(s, ls[0]), ls[1..]); }
  }

  lemma {:induction false} ExecAppend(s: Sys, a: seq<Label>, b: seq<Label>)
    requires Legal(s, a + b)
    ensures Legal(s, a) && Legal(Exec(s, a), b) && Exec(s, a + b) == Exec(Exec(s, a), b)
    decreases |a|
  {
    if a == [] {
      assert a + b == b;
    } else {
      assert (a + b)[1..] == a[1..] + b;
      ExecAppend(Apply(s, a[0]), a[1..], b);
    }
  }

  /** After Close the channel stays closed and disconnected with nothing pending, whatever happens
      next.  */
  lemma ClosedForever(before: seq<Label>, after: seq<Label>)
    requires Legal(Init(), before + after) && Exec(Init(), before + after).bumps < TWO64
    ensures Legal(Init(), before)
    ensures Exec(Init(), before).core.closed ==>
      var c := Exec(Init(), before + after).core; c.closed && !Live(c) && c.pending == map[]
  {
    ExecAppend(Init(), before, after);
    RunInv(Init(), before + after);
    if Exec(Init(), before).core.closed { ClosedStays(Exec(Init(), before), after); }
  }
}
