/** The client channel of go/channel.go.  `Core` is what its mutex `mu` protects; the class
    `Channel` holds the same fields and runs each critical section.  */
module GoChannel {
  import opened Framing

  const TWO64: int := 0x1_0000_0000_0000_0000

  type u64 = x: int | 0 <= x < TWO64
  type Conn = nat    // identity of a net.Conn
  type Cb = nat      // identity of one AsyncUnaryCall's callback
  type Code = int    // StatusCode; 0 is OK

  const OK: Code := 0
  const CANCELLED: Code := 1
  const FAILED_PRECONDITION: Code := 9
  const INTERNAL: Code := 13
  const UNAVAILABLE: Code := 14

  datatype Option<+T> = None | Some(value: T)

  datatype Core = Core(conn: Option<Conn>, connected: bool, closed: bool, gen: u64,
                       nextCallId: u32, pending: map<u32, Cb>)

  function InitCore(): Core { Core(None, false, false, 0, 1, map[]) }

  // `c.connected && c.conn != nil`
  predicate Live(c: Core) { c.connected && c.conn.Some? }

  function NextGen(g: u64): u64 { (g + 1) % TWO64 }

  function NextId(id: u32): u32 { (id + 1) % TWO32 }

  function Installed(c: Core, conn: Conn): Core {
    c.(gen := NextGen(c.gen), conn := Some(conn), connected := true)
  }

  function Registered(c: Core, cb: Cb): Core {
    c.(nextCallId := NextId(c.nextCallId), pending := c.pending[c.nextCallId := cb])
  }

  function Removed(c: Core, id: u32): Core { c.(pending := c.pending - {id}) }

  // What teardown and Close do to the connection and the pending calls.
  function TornDown(c: Core): Core {
    c.(gen := NextGen(c.gen), conn := None, connected := false, pending := map[])
  }

  datatype Answer = AnswerClosed | AnswerConnected | AnswerDial
  datatype Admission = Refused(code: Code) | Admitted(id: u32, conn: Conn, gen: u64)

  function CheckCore(c: Core): Answer {
    if c.closed then AnswerClosed else if Live(c) then AnswerConnected else AnswerDial
  }

  /************ One reader, undisturbed ************/

  datatype Outcome = Outcome(cb: Cb, code: Code, payload: seq<byte>)

  // What a reader leaves behind: the channel, the callbacks it ran and those its teardown flushed.
  datatype ReadRun = ReadRun(core: Core, ran: seq<Outcome>, flushed: map<u32, Cb>)

  predicate Ends(f: Frame) { f.hdr.ftype != PUSH && f.hdr.ftype != RESPONSE }

  predicate Completes(c: Core, f: Frame) { f.hdr.ftype == RESPONSE && f.hdr.callId in c.pending }

  function OutcomeOf(c: Core, f: Frame): Outcome
    requires Completes(c, f)
  {
    Told(c.pending[f.hdr.callId], f)
  }

  function TeardownRun(c: Core, g: u64): ReadRun {
    if g == c.gen then ReadRun(TornDown(c), [], c.pending) else ReadRun(c, [], map[])
  }

  // readLoop with generation g, reading these frames and then an error.
  function ReadAll(c: Core, frames: seq<Frame>, g: u64): ReadRun
    decreases |frames|
  {
    if frames == [] || Ends(frames[0]) then TeardownRun(c, g)
    else if !Completes(c, frames[0]) then ReadAll(c, frames[1..], g)
    else
      var r := ReadAll(Removed(c, frames[0].hdr.callId), frames[1..], g);
      r.(ran := [OutcomeOf(c, frames[0])] + r.ran)
  }

  // The first response to id that comes before the reader stops.
  function ResponseTo(frames: seq<Frame>, id: u32): (r: Option<Frame>)
    ensures r.Some? ==> r.value in frames && r.value.hdr.ftype == RESPONSE && r.value.hdr.callId == id
    decreases |frames|
  {
    if frames == [] || Ends(frames[0]) then None
    else if frames[0].hdr.ftype == RESPONSE && frames[0].hdr.callId == id then Some(frames[0])
    else ResponseTo(frames[1..], id)
  }

  // What a callback is told by a response: its status, and its payload only with OK.
  function Told(cb: Cb, f: Frame): Outcome {
    Outcome(cb, f.hdr.status, if f.hdr.status == OK then f.payload else [])
  }

  lemma OneFewer(pending: map<u32, Cb>, id: u32)
    requires id in pending
    ensures |pending - {id}| == |pending| - 1
  {
    assert pending.Keys == (pending - {id}).Keys + {id};
    assert |pending.Keys| == |pending| && |(pending - {id}).Keys| == |pending - {id}|;
  }

  // What `frames` settle of c's pending calls.
  ghost predicate Settles(c: Core, frames: seq<Frame>, r: ReadRun) {
    && r.core == TornDown(c)
    && (forall id :: id in r.flushed <==> id in c.pending && ResponseTo(frames, id).None?)
    && (forall id :: id in r.flushed ==> r.flushed[id] == c.pending[id])
    && (forall id :: id in c.pending && ResponseTo(frames, id).Some? ==>
      Told(c.pending[id], ResponseTo(frames, id).value) in r.ran)
    && |r.ran| + |r.flushed| == |c.pending|
  }

  lemma SettlesOne(c: Core, frames: seq<Frame>, id: u32, r: ReadRun, r': ReadRun)
    requires frames != [] && Completes(c, frames[0]) && id == frames[0].hdr.callId
    requires Settles(Removed(c, id), frames[1..], r)
    requires r' == r.(ran := [OutcomeOf(c, frames[0])] + r.ran)
    ensures Settles(c, frames, r')
  {
    OneFewer(c.pending, id);
    forall i | i in c.pending && ResponseTo(frames, i).Some?
      ensures Told(c.pending[i], ResponseTo(frames, i).value) in r'.ran
    {
      TellsOne(c, frames, id, r.ran, r'.ran, i);
    }
  }

  lemma TellsOne(c: Core, frames: seq<Frame>, id: u32, ran: seq<Outcome>, ran': seq<Outcome>, i: u32)
    requires frames != [] && Completes(c, frames[0]) && id == frames[0].hdr.callId && i in c.pending
    requires ResponseTo(frames, i).Some?
    requires i != id && ResponseTo(frames[1..], i).Some? ==> Told(c.pending[i], ResponseTo(frames[1..], i).value) in ran
    requires ran' == [OutcomeOf(c, frames[0])] + ran
    ensures Told(c.pending[i], ResponseTo(frames, i).value) in ran'
  {
    if i == id { assert ran'[0] == Told(c.pending[i], frames[0]); }
  }

  lemma SettlesNone(c: Core, frames: seq<Frame>, r: ReadRun)
    requires frames != [] && !Ends(frames[0]) && !Completes(c, frames[0]) && Settles(c, frames[1..], r)
    ensures Settles(c, frames, r)
  {}

  /** The reader of the current generation leaves nothing pending: it flushes exactly the calls no response
      came for, and every other call's callback runs once, told what the first response to it says.  */
  lemma {:induction false} ReaderSettlesAll(c: Core, frames: seq<Frame>, g: u64)
    requires g == c.gen
    ensures Settles(c, frames, ReadAll(c, frames, g))
    decreases |frames|
  {
    if frames != [] && !Ends(frames[0]) {
      var id := frames[0].hdr.callId;
      if Completes(c, frames[0]) {
        ReaderSettlesAll(Removed(c, id), frames[1..], g);
        SettlesOne(c, frames, id, ReadAll(Removed(c, id), frames[1..], g), ReadAll(c, frames, g));
      } else {
        ReaderSettlesAll(c, frames[1..], g);
        SettlesNone(c, frames, ReadAll(c, frames[1..], g));
      }
    }
  }

  /************ What other goroutines do to the channel ************/

  datatype Act = Connects(conn: Conn) | Calls(cb: Cb) | Takes(id: u32) | TearsDown(gen: u64) | Closes

  function After(c: Core, a: Act): Core {
    match a
    case Connects(conn) => if c.closed then c else Installed(c, conn)
    case Calls(cb) => if c.closed || !Live(c) then c else Registered(c, cb)
    case Takes(id) => Removed(c, id)
    case TearsDown(g) => if g == c.gen then TornDown(c) else c
    case Closes => if c.closed then c else TornDown(c).(closed := true)
  }

  function AfterAll(c: Core, acts: seq<Act>): Core
    decreases |acts|
  {
    if acts == [] then c else After(AfterAll(c, acts[..|acts| - 1]), acts[|acts| - 1])
  }

  predicate NoneConnects(acts: seq<Act>) { forall i :: 0 <= i < |acts| ==> !acts[i].Connects? }

  // A closed channel stays closed and, without a dial, a dead one stays dead.
  lemma {:induction false} StaysDead(c: Core, acts: seq<Act>)
    ensures c.closed ==> AfterAll(c, acts).closed
    ensures !Live(c) && NoneConnects(acts) ==> !Live(AfterAll(c, acts))
    decreases |acts|
  {
    if acts != [] { StaysDead(c, acts[..|acts| - 1]); }
  }

  // Both checks of ensureConnected, the second after `first`, find the channel open and not connected.
  predicate Dials(c: Core, first: seq<Act>) {
    CheckCore(c) == AnswerDial && CheckCore(AfterAll(c, first)) == AnswerDial
  }

  // The state ensureConnected returns in: that of the check that answered, or the last, with what it installed.
  function Reached(c: Core, first: seq<Act>, rest: seq<Act>, installed: Option<Conn>): Core {
    if CheckCore(c) != AnswerDial then c
    else if CheckCore(AfterAll(c, first)) != AnswerDial then AfterAll(c, first)
    else
      var c1 := AfterAll(AfterAll(c, first), rest);
      if installed.Some? then Installed(c1, installed.value) else c1
  }

  // How dialling and the handshake went.
  datatype Dial = Dialled(conn: Conn) | Unreachable | HandshakeBroken | HandshakeMismatch

  function DialCode(d: Dial): Code {
    match d
    case Dialled(_) => OK
    case Unreachable => UNAVAILABLE
    case HandshakeBroken => UNAVAILABLE
    case HandshakeMismatch => FAILED_PRECONDITION
  }

  class Channel {
    var conn: Option<Conn>
    var connected: bool
    var closed: bool
    var gen: u64
    var nextCallId: u32
    var pending: map<u32, Cb>

    ghost function State(): Core
      reads this
    {
      Core(conn, connected, closed, gen, nextCallId, pending)
    }

    constructor ()
      ensures State() == InitCore()
    {
      conn, connected, closed, gen, nextCallId, pending := None, false, false, 0, 1, map[];
    }

    // Both checks of ensureConnected.
    method Check() returns (a: Answer)
      ensures a.AnswerClosed? <==> closed
      ensures a.AnswerConnected? <==> !closed && Live(State())
    {
      if closed { return AnswerClosed; }
      if connected && conn.Some? { return AnswerConnected; }
      a := AnswerDial;
    }

    // The last critical section of ensureConnected.
    method Install(c: Conn) returns (ok: bool, g: u64)
      modifies this
      ensures ok == !old(closed)
      ensures State() == if ok then Installed(old(State()), c) else old(State())
      ensures ok ==> g == gen
    {
      if closed { return false, 0; }
      gen := (gen + 1) % TWO64;
      g := gen;
      conn := Some(c);
      connected := true;
      ok := true;
    }

    /** ensureConnected.  Other goroutines act as in `first` while it waits for connectMu and as in `during`
        while it dials holding it, so that none of the latter connects.  With OK the channel is open and
        live; a connection is installed, and a reader started under its generation, only where no live
        one would be replaced; and a failure is the dial's, or the channel is closed.  */
    method EnsureConnected(first: seq<Act>, during: seq<Act>, dial: Dial) returns (code: Code, reader: Option<u64>)
      requires NoneConnects(during)
      modifies this
      ensures code == OK <==> !closed && Live(State())
      ensures code != OK ==> code == if Dials(old(State()), first) && !dial.Dialled? then DialCode(dial)
          else UNAVAILABLE
      ensures reader.Some? <==> Dials(old(State()), first) && dial.Dialled? && !closed
      ensures State() == Reached(old(State()), first, during, if reader.Some? then Some(dial.conn) else None)
      ensures reader.Some? ==> reader == Some(gen) && !Live(AfterAll(AfterAll(old(State()), first), during))
    {
      reader := None;
      var a := Check();
      if a.AnswerClosed? { return UNAVAILABLE, None; }
      if a.AnswerConnected? { return OK, None; }
      Others(first);
      a := Check();
      if a.AnswerClosed? { return UNAVAILABLE, None; }
      if a.AnswerConnected? { return OK, None; }
      ghost var c := State();
      Others(during);
      StaysDead(c, during);
      if !dial.Dialled? { return DialCode(dial), None; }
      var ok, g := Install(dial.conn);
      if !ok { return UNAVAILABLE, None; }
      return OK, Some(g);
    }

    method Others(acts: seq<Act>)
      modifies this
      ensures State() == AfterAll(old(State()), acts)
    {
      var i := 0;
      while i < |acts|
        invariant 0 <= i <= |acts| && State() == AfterAll(old(State()), acts[..i])
      {
        assert acts[..i + 1][..i] == acts[..i];
        match acts[i] {
          case Connects(conn) => var _, _ := Install(conn);
          case Calls(cb) => var _ := Register(cb);
          case Takes(id) => var _ := Take(id);
          case TearsDown(g) => var _ := Teardown(g);
          case Closes => var _ := Close();
        }
        i := i + 1;
      }
      assert acts[..i] == acts;
    }

    // The critical section of AsyncUnaryCall.
    method Register(cb: Cb) returns (r: Admission)
      modifies this
      ensures State() == if r.Admitted? then Registered(old(State()), cb) else old(State())
      ensures r.Admitted? <==> !old(closed) && Live(old(State()))
      ensures r.Admitted? ==> r == Admitted(old(nextCallId), old(conn).value, old(gen))
      ensures r.Refused? ==> r.code == if old(closed) then CANCELLED else UNAVAILABLE
    {
      if closed { return Refused(CANCELLED); }
      if !connected || conn.None? { return Refused(UNAVAILABLE); }
      var id := nextCallId;
      nextCallId := (nextCallId + 1) % TWO32;
      pending := pending[id := cb];
      r := Admitted(id, conn.value, gen);
    }

    // The critical section of readLoop's response case.
    method Take(id: u32) returns (cb: Option<Cb>)
      modifies this
      ensures State() == Removed(old(State()), id)
      ensures cb == if id in old(pending) then Some(old(pending)[id]) else None
    {
      cb := None;
      if id in pending {
        cb := Some(pending[id]);
        pending := pending - {id};
      }
      assert id !in old(pending) ==> old(pending) - {id} == old(pending);
    }

    // teardown: a stale generation changes nothing.
    method Teardown(g: u64) returns (flushed: map<u32, Cb>)
      modifies this
      ensures State() == if g == old(gen) then TornDown(old(State())) else old(State())
      ensures flushed == if g == old(gen) then old(pending) else map[]
    {
      if g != gen { return map[]; }
      gen := (gen + 1) % TWO64;
      conn := None;
      connected := false;
      flushed := pending;
      pending := map[];
    }

    // readLoop, with no other goroutine in between; `ran` is its log of callbacks.
    method ReadLoop(frames: seq<Frame>, g: u64) returns (ran: seq<Outcome>, flushed: map<u32, Cb>)
      modifies this
      ensures ReadRun(State(), ran, flushed) == ReadAll(old(State()), frames, g)
    {
      var i := 0;
      ran := [];
      while i < |frames| && !Ends(frames[i])
        invariant 0 <= i <= |frames|
        invariant var rest := ReadAll(State(), frames[i..], g);
          ReadAll(old(State()), frames, g) == rest.(ran := ran + rest.ran)
      {
        var f := frames[i];
        ghost var c := State();
        assert frames[i..][1..] == frames[i + 1..];
        if f.hdr.ftype == RESPONSE {
          var cb := Take(f.hdr.callId);
          assert f.hdr.callId !in c.pending ==> c.pending - {f.hdr.callId} == c.pending;
          ghost var rest := ReadAll(State(), frames[i + 1..], g).ran;
          assert Completes(c, f) ==> ran + ([OutcomeOf(c, f)] + rest) == ran + [OutcomeOf(c, f)] + rest;
          if cb.Some? { ran := ran + [Outcome(cb.value, f.hdr.status, if f.hdr.status == OK then f.payload else [])]; }
        }
        i := i + 1;
      }
      flushed := Teardown(g);
    }

    method Close() returns (flushed: map<u32, Cb>)
      modifies this
      ensures State() == if old(closed) then old(State()) else TornDown(old(State())).(closed := true)
      ensures flushed == if old(closed) then map[] else old(pending)
    {
      if closed { return map[]; }
      closed := true;
      gen := (gen + 1) % TWO64;
      conn := None;
      connected := false;
      flushed := pending;
      pending := map[];
    }
  }
}
