/** Pushes from the Go server to the Go client: what OnPush hears of a connection is, in order and whole, what was
    pushed to it first.  */
module Pushes {
  import opened Framing
  import opened Flows
  import opened GoChannel
  import opened EndToEnd
  import C = GoClient
  import S = GoServer
  import Ledger
  import WriteFailures

  datatype Note = Note(methodId: u32, payload: seq<byte>)

  // The pushes among frames, among what OnPush heard, and among the labels of a run.
  function PushesIn(fs: seq<Frame>): seq<Note> {
    if fs == [] then [] else PushesIn(fs[..|fs| - 1]) + NoteOf(fs[|fs| - 1])
  }

  function NoteOf(f: Frame): seq<Note> { if f.hdr.ftype == PUSH then [Note(f.hdr.methodId, f.payload)] else [] }

  function HeardFrom(hs: seq<C.Heard>, c: Conn): seq<Note> {
    if hs == [] then [] else HeardFrom(hs[..|hs| - 1], c) + NoteHeard(hs[|hs| - 1], c)
  }

  function NoteHeard(h: C.Heard, c: Conn): seq<Note> { if h.conn == c then [Note(h.methodId, h.payload)] else [] }

  function PushedTo(ls: seq<Label>, c: Conn): seq<Note> {
    if ls == [] then [] else NoteSent(ls[0], c) + PushedTo(ls[1..], c)
  }

  function NoteSent(l: Label, c: Conn): seq<Note> {
    if l.Push? && l.p == c then [Note(l.methodId, l.payload)] else []
  }

  lemma PushesSnoc(fs: seq<Frame>, f: Frame)
    ensures PushesIn(fs + [f]) == PushesIn(fs) + NoteOf(f)
  {
    assert (fs + [f])[..|fs|] == fs;
  }

  lemma HeardSnoc(hs: seq<C.Heard>, h: C.Heard, c: Conn)
    ensures HeardFrom(hs + [h], c) == HeardFrom(hs, c) + NoteHeard(h, c)
  {
    assert (hs + [h])[..|hs|] == hs;
  }

  lemma {:induction false} PushesPrefix(fs: seq<Frame>, n: nat)
    requires n <= |fs|
    ensures PushesIn(fs[..n]) <= PushesIn(fs)
    decreases |fs|
  {
    if n < |fs| {
      assert fs[..|fs| - 1][..n] == fs[..n];
      PushesPrefix(fs[..|fs| - 1], n);
    } else {
      assert fs[..n] == fs;
    }
  }

  lemma {:induction false} HeardNone(hs: seq<C.Heard>, c: Conn)
    requires forall i :: 0 <= i < |hs| ==> hs[i].conn != c
    ensures HeardFrom(hs, c) == []
    decreases |hs|
  {
    if hs != [] { HeardNone(hs[..|hs| - 1], c); }
  }

  /************ One reader per connection ************/

  predicate ReadsFrom(c: C.Sys, t: C.Tid) { t in c.threads && C.IsReader(c.threads[t]) }

  ghost predicate ReadersApart(c: C.Sys) {
    forall t, u :: ReadsFrom(c, t) && ReadsFrom(c, u) && c.threads[t].conn == c.threads[u].conn ==> t == u
  }

  // A reader after a step was one of the same connection before it, or installs it, or takes over from its installer.
  lemma ReaderBefore(c: C.Sys, l: C.Label, t: C.Tid)
    requires C.Enabled(c, l) && t in C.Apply(c, l).threads && C.IsReader(C.Apply(c, l).threads[t])
    ensures var conn := C.Apply(c, l).threads[t].conn;
      || (t in c.threads && C.IsReader(c.threads[t]) && c.threads[t].conn == conn && !(l.Spawn? && l.t == t))
      || (l.Install? && l.t == t && c.threads[t].Dialed? && c.threads[t].conn == conn)
      || (l.Spawn? && l.r == t && t !in c.threads && c.threads[l.t].Spawning? && c.threads[l.t].conn == conn)
  {}

  lemma ReadersStayApart(c: C.Sys, l: C.Label)
    requires C.Inv(c) && ReadersApart(c) && C.Enabled(c, l)
    ensures ReadersApart(C.Apply(c, l))
  {
    var c' := C.Apply(c, l);
    forall t, u | ReadsFrom(c', t) && ReadsFrom(c', u) && c'.threads[t].conn == c'.threads[u].conn ensures t == u {
      ReaderBefore(c, l, t);
      ReaderBefore(c, l, u);
    }
  }

  /************ What is heard ************/

  // Goroutine t has read a push from connection c and not yet given it to OnPush.
  predicate HasPush(c: C.Sys, t: C.Tid, conn: Conn) {
    t in c.threads && c.threads[t].Handling? && c.threads[t].conn == conn && c.threads[t].frame.hdr.ftype == PUSH
  }

  function TakenFrames(fl: Flow): seq<Frame> { if fl.taken <= |fl.frames| then fl.frames[..fl.taken] else fl.frames }

  // The pushes read from connection c have been heard, but for one at most.
  ghost predicate HearsAt(c: C.Sys, conn: Conn, fl: Flow) {
    var heard, read := HeardFrom(c.heard, conn), PushesIn(TakenFrames(fl));
    && (forall t :: HasPush(c, t, conn) ==> heard + NoteOf(c.threads[t].frame) == read)
    && ((forall t :: !HasPush(c, t, conn)) ==> heard == read)
  }

  ghost predicate HearsIn(s: System, c: Conn) { c in s.pipes && HearsAt(s.client, c, s.pipes[c].down) }

  ghost predicate Hears(s: System) { forall c :: c in s.pipes ==> HearsIn(s, c) }

  ghost predicate HeardKnown(c: C.Sys) { forall i :: 0 <= i < |c.heard| ==> c.heard[i].conn < c.nextConn }

  // Of connection conn nothing that matters here has changed.
  ghost predicate SameFor(c: C.Sys, c': C.Sys, conn: Conn, fl: Flow, fl': Flow) {
    && HeardFrom(c'.heard, conn) == HeardFrom(c.heard, conn) && TakenFrames(fl') == TakenFrames(fl)
    && forall t :: SamePush(c, c', t, conn)
  }

  ghost predicate SamePush(c: C.Sys, c': C.Sys, t: C.Tid, conn: Conn) {
    && (HasPush(c', t, conn) <==> HasPush(c, t, conn))
    && (HasPush(c, t, conn) ==> c'.threads[t].frame == c.threads[t].frame)
  }

  lemma SameHears(c: C.Sys, c': C.Sys, conn: Conn, fl: Flow, fl': Flow)
    requires HearsAt(c, conn, fl) && SameFor(c, c', conn, fl, fl')
    ensures HearsAt(c', conn, fl')
  {
    forall t | HasPush(c', t, conn)
      ensures HeardFrom(c'.heard, conn) + NoteOf(c'.threads[t].frame) == PushesIn(TakenFrames(fl'))
    {
      assert SamePush(c, c', t, conn);
    }
    if forall t :: !HasPush(c', t, conn) {
      forall t ensures !HasPush(c, t, conn) { assert SamePush(c, c', t, conn); }
    }
  }

  // The reader of conn has read one more frame.
  lemma ReadHears(c: C.Sys, c': C.Sys, t: C.Tid, conn: Conn, fl: Flow, fl': Flow, f: Frame)
    requires HearsAt(c, conn, fl) && ReadersApart(c) && OneMoved(c, c', t) && c'.heard == c.heard
    requires t in c.threads && c.threads[t].Reading? && c.threads[t].conn == conn
    requires c'.threads[t].Handling? && c'.threads[t].conn == conn && c'.threads[t].frame == f
    requires fl.taken < |fl.frames| && f == fl.frames[fl.taken] && fl'.taken == fl.taken + 1 && fl'.frames == fl.frames
    ensures HearsAt(c', conn, fl')
  {
    forall u ensures !HasPush(c, u, conn) { assert ReadsFrom(c, t) && (HasPush(c, u, conn) ==> ReadsFrom(c, u)); }
    assert fl'.frames[..fl'.taken] == fl.frames[..fl.taken] + [f];
    PushesSnoc(fl.frames[..fl.taken], f);
    forall u | HasPush(c', u, conn) ensures u == t { assert u != t ==> HasPush(c, u, conn); }
    if f.hdr.ftype == PUSH { assert HasPush(c', t, conn); }
  }

  // The reader of conn has done with its frame.
  lemma HandleHears(c: C.Sys, c': C.Sys, t: C.Tid, conn: Conn, fl: Flow, f: Frame)
    requires HearsAt(c, conn, fl) && ReadersApart(c) && OneMoved(c, c', t) && !c'.threads[t].Handling?
    requires t in c.threads && c.threads[t].Handling? && c.threads[t].conn == conn && c.threads[t].frame == f
    requires c'.heard == c.heard + (if f.hdr.ftype == PUSH then [C.Heard(conn, f.hdr.methodId, f.payload)] else [])
    ensures HearsAt(c', conn, fl)
  {
    forall u ensures !HasPush(c', u, conn) {
      assert ReadsFrom(c, t) && (HasPush(c', u, conn) ==> HasPush(c, u, conn) && ReadsFrom(c, u));
    }
    if f.hdr.ftype == PUSH {
      assert HasPush(c, t, conn);
      HeardSnoc(c.heard, C.Heard(conn, f.hdr.methodId, f.payload), conn);
    } else {
      assert c'.heard == c.heard;
      forall u ensures !HasPush(c, u, conn) { assert HasPush(c, u, conn) ==> ReadsFrom(c, u) && ReadsFrom(c, t); }
    }
  }

  lemma HandleElsewhere(c: C.Sys, t: C.Tid, conn: Conn, fl: Flow)
    requires HearsAt(c, conn, fl) && C.Enabled(c, C.Handle(t)) && c.threads[t].conn != conn
    ensures HearsAt(C.Apply(c, C.Handle(t)), conn, fl)
  {
    var c', f := C.Apply(c, C.Handle(t)), c.threads[t].frame;
    if f.hdr.ftype == PUSH { HeardSnoc(c.heard, C.Heard(c.threads[t].conn, f.hdr.methodId, f.payload), conn); }
    forall u ensures SamePush(c, c', u, conn) {}
    SameHears(c, c', conn, fl, fl);
  }

  lemma OtherHears(c: C.Sys, l: C.Label, conn: Conn, fl: Flow)
    requires HearsAt(c, conn, fl) && C.Enabled(c, l) && !l.ReadOk? && !l.Handle?
    ensures HearsAt(C.Apply(c, l), conn, fl) && C.Apply(c, l).heard == c.heard
  {
    forall u ensures SamePush(c, C.Apply(c, l), u, conn) { OtherPush(c, l, u, conn); }
    OtherHeard(c, l);
    SameHears(c, C.Apply(c, l), conn, fl, fl);
  }

  lemma OtherHeard(c: C.Sys, l: C.Label)
    requires C.Enabled(c, l) && !l.Handle?
    ensures C.Apply(c, l).heard == c.heard
  {}

  lemma OtherPush(c: C.Sys, l: C.Label, u: C.Tid, conn: Conn)
    requires C.Enabled(c, l) && !l.ReadOk? && !l.Handle?
    ensures SamePush(c, C.Apply(c, l), u, conn)
  {}

  /************ One step ************/

  lemma ReadElsewhere(c: C.Sys, t: C.Tid, f: Frame, conn: Conn, fl: Flow)
    requires HearsAt(c, conn, fl) && C.Enabled(c, C.ReadOk(t, f)) && c.threads[t].conn != conn
    ensures HearsAt(C.Apply(c, C.ReadOk(t, f)), conn, fl)
  {
    forall u ensures SamePush(c, C.Apply(c, C.ReadOk(t, f)), u, conn) {}
    SameHears(c, C.Apply(c, C.ReadOk(t, f)), conn, fl, fl);
  }

  lemma ReceivedHears(s: System, s': System, t: C.Tid, conn: Conn)
    requires Hears(s) && ReadersApart(s.client) && Ledger.Received(s, s', t, conn)
    requires s.client.threads[t].conn == conn && s'.client.heard == s.client.heard
    ensures HearsAt(s'.client, conn, s'.pipes[conn].down)
  {
    var fl := s.pipes[conn].down;
    ReadHears(s.client, s'.client, t, conn, fl, s'.pipes[conn].down, fl.frames[fl.taken]);
  }

  lemma OwnReadStep(s: System, t: C.Tid, f: Frame, c: Conn)
    requires PipesOk(s) && Hears(s) && ReadersApart(s.client) && ClientEnabled(s, C.ReadOk(t, f))
    requires c == s.client.threads[t].conn
    ensures HearsIn(Apply(s, Client(C.ReadOk(t, f))), c)
  {
    ReadIsNextFrame(s.pipes[c].down, f);
    Ledger.ReceivedShape(s, t, f, c, s.pipes[c].down);
    OtherHeard(s.client, C.ReadOk(t, f));
    ReceivedHears(s, Apply(s, Client(C.ReadOk(t, f))), t, c);
  }

  lemma OtherReadStep(s: System, t: C.Tid, f: Frame, c: Conn)
    requires HearsIn(s, c) && ClientEnabled(s, C.ReadOk(t, f)) && c != s.client.threads[t].conn
    ensures HearsIn(Apply(s, Client(C.ReadOk(t, f))), c)
  {
    ReadElsewhere(s.client, t, f, c, s.pipes[c].down);
  }

  lemma HandleStep(c: C.Sys, t: C.Tid, conn: Conn, fl: Flow)
    requires HearsAt(c, conn, fl) && ReadersApart(c) && C.Enabled(c, C.Handle(t))
    ensures HearsAt(C.Apply(c, C.Handle(t)), conn, fl)
  {
    if c.threads[t].conn == conn {
      HandleHears(c, C.Apply(c, C.Handle(t)), t, conn, fl, c.threads[t].frame);
    } else {
      HandleElsewhere(c, t, conn, fl);
    }
  }

  lemma DialStep(s: System, t: C.Tid)
    requires ConnsOk(s.client) && HeardKnown(s.client) && ClientEnabled(s, C.DialOk(t))
    ensures HearsAt(Apply(s, Client(C.DialOk(t))).client, s.client.nextConn, EmptyFlow())
  {
    HeardNone(s.client.heard, s.client.nextConn);
  }

  // Any other step of the client leaves what the server has sent alone.
  lemma OtherClientDown(s: System, l: C.Label, c: Conn)
    requires ClientEnabled(s, l) && !l.ReadOk? && c in Apply(s, Client(l)).pipes
    ensures if l.DialOk? && c == s.client.nextConn then Apply(s, Client(l)).pipes[c].down == EmptyFlow()
            else c in s.pipes && Apply(s, Client(l)).pipes[c].down == s.pipes[c].down
  {}

  lemma ClientHears(s: System, l: C.Label)
    requires PipesOk(s) && ConnsOk(s.client) && HeardKnown(s.client) && Hears(s) && ReadersApart(s.client)
    requires ClientEnabled(s, l)
    ensures Hears(Apply(s, Client(l)))
  {
    var s' := Apply(s, Client(l));
    forall c | c in s'.pipes ensures HearsIn(s', c) {
      if l.ReadOk? {
        if c == s.client.threads[l.t].conn {
          OwnReadStep(s, l.t, l.frame, c);
        } else {
          OtherReadStep(s, l.t, l.frame, c);
        }
      } else {
        OtherClientDown(s, l, c);
        if l.Handle? {
          HandleStep(s.client, l.t, c, s.pipes[c].down);
        } else if l.DialOk? && c == s.client.nextConn {
          DialStep(s, l.t);
        } else {
          OtherHears(s.client, l, c, s.pipes[c].down);
        }
      }
    }
  }

  // A failing write of the client's, and whatever the server does, take nothing from what the client can read.
  lemma OtherDown(s: System, l: Label, c: Conn)
    requires PipesOk(s) && Enabled(s, l) && !l.Client? && c in Apply(s, l).pipes
    ensures c in s.pipes && TakenFrames(Apply(s, l).pipes[c].down) == TakenFrames(s.pipes[c].down)
  {
    DownGrows(s, l, c);
    TakenSame(s.pipes[c].down, Apply(s, l).pipes[c].down);
  }

  lemma TakenSame(fl: Flow, fl': Flow)
    requires fl.taken <= |fl.frames| && fl'.taken == fl.taken && fl.frames <= fl'.frames
    ensures TakenFrames(fl') == TakenFrames(fl)
  {
    assert fl'.frames[..fl.taken] == fl.frames[..fl.taken];
  }

  lemma DownGrows(s: System, l: Label, c: Conn)
    requires Enabled(s, l) && !l.Client? && c in Apply(s, l).pipes
    ensures c in s.pipes && Apply(s, l).pipes[c].down.taken == s.pipes[c].down.taken
    ensures s.pipes[c].down.frames <= Apply(s, l).pipes[c].down.frames
  {
    match l
    case Server(v) => ServerDown(s, v, c);
    case _ =>
  }

  lemma ServerDown(s: System, l: S.Label, c: Conn)
    requires ServerEnabled(s, l) && c in Apply(s, Server(l)).pipes
    ensures c in s.pipes && Apply(s, Server(l)).pipes[c].down.taken == s.pipes[c].down.taken
    ensures s.pipes[c].down.frames <= Apply(s, Server(l)).pipes[c].down.frames
    ensures PushesIn(Apply(s, Server(l)).pipes[c].down.frames) == PushesIn(s.pipes[c].down.frames)
  {
    if l.Write? && s.server.reqs[l.g].peer == c { PushesSnoc(s.pipes[c].down.frames, Response(s.server.reqs[l.g])); }
  }

  lemma OtherStepHears(s: System, l: Label)
    requires PipesOk(s) && Hears(s) && Enabled(s, l) && !l.Client?
    ensures Hears(Apply(s, l))
  {
    var s' := Apply(s, l);
    Ledger.ClientSide(s, l);
    forall c | c in s'.pipes ensures HearsIn(s', c) {
      OtherDown(s, l, c);
      if Ledger.ClientLabel(l).Some? {
        OtherHears(s.client, Ledger.ClientLabel(l).value, c, s.pipes[c].down);
        SameHears(s'.client, s'.client, c, s.pipes[c].down, s'.pipes[c].down);
      } else {
        SameHears(s.client, s'.client, c, s.pipes[c].down, s'.pipes[c].down);
      }
    }
  }

  lemma KnownStays(c: C.Sys, l: C.Label)
    requires HeardKnown(c) && ConnsOk(c) && C.Enabled(c, l)
    ensures HeardKnown(C.Apply(c, l))
  {}

  /************ What was pushed ************/

  function SentOn(s: System, c: Conn): seq<Note> { if c in s.pipes then PushesIn(s.pipes[c].down.frames) else [] }

  lemma StepSent(s: System, l: Label, c: Conn)
    requires Enabled(s, l)
    ensures SentOn(Apply(s, l), c) == SentOn(s, c) + NoteSent(l, c)
  {
    match l
    case Client(v) => ClientSent(s, v, c);
    case Server(v) => ServerSent(s, v, c);
    case Push(_, _, _) => PushSent(s, l, c);
    case _ => FailedSent(s, l, c);
  }

  lemma ServerSent(s: System, l: S.Label, c: Conn)
    requires ServerEnabled(s, l)
    ensures c in Apply(s, Server(l)).pipes <==> c in s.pipes
    ensures c in s.pipes ==> PushesIn(Apply(s, Server(l)).pipes[c].down.frames) == PushesIn(s.pipes[c].down.frames)
  {
    if c in Apply(s, Server(l)).pipes { ServerDown(s, l, c); }
  }

  lemma PushSent(s: System, l: Label, c: Conn)
    requires Enabled(s, l) && l.Push?
    ensures c in Apply(s, l).pipes <==> c in s.pipes
    ensures var s' := Apply(s, l);
      c in s.pipes ==> PushesIn(s'.pipes[c].down.frames) == PushesIn(s.pipes[c].down.frames) + NoteSent(l, c)
    ensures c !in s.pipes ==> NoteSent(l, c) == []
  {
    if l.p == c { PushesSnoc(s.pipes[c].down.frames, PushFrame(l.methodId, l.payload)); }
  }

  lemma FailedSent(s: System, l: Label, c: Conn)
    requires Enabled(s, l) && (l.ClientWriteFails? || l.ServerWriteFails?)
    ensures c in Apply(s, l).pipes <==> c in s.pipes
    ensures c in s.pipes ==> Apply(s, l).pipes[c].down.frames == s.pipes[c].down.frames
  {}

  lemma ClientSent(s: System, l: C.Label, c: Conn)
    requires ClientEnabled(s, l)
    ensures var s' := Apply(s, Client(l));
      && (c in s.pipes ==> c in s'.pipes && s'.pipes[c].down.frames == s.pipes[c].down.frames)
      && (c in s'.pipes && c !in s.pipes ==> s'.pipes[c].down.frames == [])
  {}

  /************ Every run ************/

  ghost predicate Ok(s: System) {
    C.Inv(s.client) && ReadersApart(s.client) && HeardKnown(s.client) && Hears(s)
  }

  lemma ClientSideKeeps(s: System, l: Label)
    requires ConnsOk(s.client) && C.Inv(s.client) && ReadersApart(s.client) && HeardKnown(s.client)
    requires Enabled(s, l) && Apply(s, l).client.bumps < TWO64
    ensures var c := Apply(s, l).client; C.Inv(c) && ReadersApart(c) && HeardKnown(c)
  {
    Ledger.ClientSide(s, l);
    if Ledger.ClientLabel(l).Some? {
      var v := Ledger.ClientLabel(l).value;
      C.StepInv(s.client, v);
      ReadersStayApart(s.client, v);
      KnownStays(s.client, v);
    }
  }

  lemma StepOk(s: System, l: Label)
    requires PipesOk(s) && ConnsOk(s.client) && Ok(s) && Enabled(s, l) && Apply(s, l).client.bumps < TWO64
    ensures Ok(Apply(s, l))
  {
    ClientSideKeeps(s, l);
    if l.Client? { ClientHears(s, l.c); } else { OtherStepHears(s, l); }
  }

  lemma {:induction false} RunOk(s: System, ls: seq<Label>)
    requires Inv(s) && Ok(s) && Legal(s, ls) && SaneRun(s, ls) && Exec(s, ls).client.bumps < TWO64
    ensures Ok(Exec(s, ls))
    decreases |ls|
  {
    if ls != [] {
      WriteFailures.BumpsRise(Apply(s, ls[0]), ls[1..]);
      StepOk(s, ls[0]);
      EndToEnd.StepKeeps(s, ls[0]);
      RunOk(Apply(s, ls[0]), ls[1..]);
    }
  }

  lemma {:induction false} RunSent(s: System, ls: seq<Label>, c: Conn)
    requires Legal(s, ls)
    ensures SentOn(Exec(s, ls), c) == SentOn(s, c) + PushedTo(ls, c)
    decreases |ls|
  {
    if ls != [] {
      StepSent(s, ls[0], c);
      RunSent(Apply(s, ls[0]), ls[1..], c);
    }
  }

  /** In every run, given payloads under 2^32 bytes: what OnPush has heard of a connection is the first of what was
      pushed to it, in order, with its method and payload; and nothing the client has read of it and put behind it is
      missing.  */
  lemma PushesHeardInOrder(max: int, ls: seq<Label>, c: Conn)
    requires Legal(Init(max), ls) && SaneRun(Init(max), ls) && Exec(Init(max), ls).client.bumps < TWO64
    requires c in Exec(Init(max), ls).pipes
    ensures var s := Exec(Init(max), ls);
      && HeardFrom(s.client.heard, c) <= PushedTo(ls, c)
      && ((forall t :: !HasPush(s.client, t, c)) ==>
           HeardFrom(s.client.heard, c) == PushesIn(TakenFrames(s.pipes[c].down)))
  {
    InitInv(max);
    RunOk(Init(max), ls);
    RunSent(Init(max), ls, c);
    HeardFirst(Exec(Init(max), ls).client, c, Exec(Init(max), ls).pipes[c].down);
  }

  lemma HeardFirst(c: C.Sys, conn: Conn, fl: Flow)
    requires HearsAt(c, conn, fl)
    ensures HeardFrom(c.heard, conn) <= PushesIn(fl.frames)
  {
    PushesPrefix(fl.frames, if fl.taken <= |fl.frames| then fl.taken else |fl.frames|);
    assert fl.frames[..|fl.frames|] == fl.frames;
    if t :| HasPush(c, t, conn) { assert HeardFrom(c.heard, conn) <= PushesIn(TakenFrames(fl)); }
  }
}
