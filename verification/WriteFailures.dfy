/** A write that fails on the Go client's connection: in every run of client, streams and server the connection is
    torn down, and with it every call registered on it.  */
module WriteFailures {
  import opened Framing
  import opened Flows
  import opened GoChannel
  import opened EndToEnd
  import C = GoClient
  import S = GoServer
  import Ledger

  // A write to connection c has failed.
  predicate Broken(s: System, c: Conn) { c in s.pipes && s.pipes[c].up.broken }

  // Goroutine t is about to tear connection c down, under the current generation and with UNAVAILABLE.
  ghost predicate Dooms(c: C.Sys, t: C.Tid, conn: Conn) {
    && t in c.threads && c.threads[t].Tearing? && c.threads[t].conn == conn
    && c.threads[t].gen == c.core.gen && c.threads[t].code == 14
  }

  ghost predicate Doomed(c: C.Sys, conn: Conn) { exists t :: Dooms(c, t, conn) }

  // The live connection, if a write to it failed, is about to go.
  ghost predicate BrokenOk(s: System) {
    forall c: Conn :: Broken(s, c) && s.client.core.conn == Some(c) ==> Doomed(s.client, c)
  }

  // No write has been made to a connection not yet installed.
  ghost predicate FreshOk(s: System) {
    forall t :: t in s.client.threads && s.client.threads[t].Dialed? ==> !Broken(s, s.client.threads[t].conn)
  }

  // A pending call was registered on the live connection.
  ghost predicate PendingLive(s: System) {
    forall id :: id in s.client.core.pending ==>
      && s.client.core.pending[id] in s.book.calls
      && s.client.core.conn == Some(s.book.calls[s.client.core.pending[id]].conn)
  }

  ghost predicate Ok(s: System) {
    && C.Inv(s.client) && C.Accounted(s.client) && BrokenOk(s) && FreshOk(s) && PendingLive(s)
    && forall c :: c in s.pipes ==> c < s.client.nextConn
  }

  /************ The client's own steps ************/

  // What a client step does to the live connection and to goroutines before a teardown or an install.
  lemma ClientKeepsDoom(c: C.Sys, l: C.Label, conn: Conn)
    requires C.Inv(c) && C.Enabled(c, l) && C.Apply(c, l).core.conn == Some(conn) && c.core.conn == Some(conn)
    requires Doomed(c, conn)
    ensures Doomed(C.Apply(c, l), conn)
  {
    var t :| Dooms(c, t, conn);
    GenerationStays(c, l, conn);
    C.StaysBeforeTeardown(c, l, t);
    assert Dooms(C.Apply(c, l), t, conn);
  }

  // As long as a connection stays live, so does its generation, and no teardown under it has run.
  lemma GenerationStays(c: C.Sys, l: C.Label, conn: Conn)
    requires C.Inv(c) && C.Enabled(c, l) && C.Apply(c, l).core.conn == Some(conn) && c.core.conn == Some(conn)
    ensures C.Apply(c, l).core.gen == c.core.gen && (l.Teardown? ==> c.threads[l.t].gen != c.core.gen)
  {}

  lemma LiveOnlyByInstall(c: C.Sys, l: C.Label, conn: Conn)
    requires C.Enabled(c, l) && C.Apply(c, l).core.conn == Some(conn) && c.core.conn != Some(conn)
    ensures l.Install? && c.threads[l.t].Dialed? && c.threads[l.t].conn == conn
  {}

  lemma DialedOnlyByDial(c: C.Sys, l: C.Label, t: C.Tid)
    requires C.Enabled(c, l) && t in C.Apply(c, l).threads && C.Apply(c, l).threads[t].Dialed?
    ensures (t in c.threads && c.threads[t] == C.Apply(c, l).threads[t])
      || (l.DialOk? && C.Apply(c, l).threads[t].conn == c.nextConn)
  {}

  // A client step other than a failing write breaks no connection, and a dialled one is whole.
  lemma ClientBreaksNone(s: System, l: C.Label, c: Conn)
    requires ClientEnabled(s, l) && Broken(Apply(s, Client(l)), c)
    ensures Broken(s, c) && (l.DialOk? ==> c != s.client.nextConn)
  {}

  lemma ClientBroken(s: System, l: C.Label)
    requires Ok(s) && ClientEnabled(s, l)
    ensures BrokenOk(Apply(s, Client(l))) && FreshOk(Apply(s, Client(l)))
  {
    var s' := Apply(s, Client(l));
    forall c: Conn | Broken(s', c) && s'.client.core.conn == Some(c) ensures Doomed(s'.client, c) {
      ClientBreaksNone(s, l, c);
      if s.client.core.conn == Some(c) {
        ClientKeepsDoom(s.client, l, c);
      } else {
        LiveOnlyByInstall(s.client, l, c);
        assert false;
      }
    }
    forall t | t in s'.client.threads && s'.client.threads[t].Dialed? ensures !Broken(s', s'.client.threads[t].conn) {
      DialedOnlyByDial(s.client, l, t);
      if Broken(s', s'.client.threads[t].conn) {
        ClientBreaksNone(s, l, s'.client.threads[t].conn);
        assert false;
      }
    }
  }

  lemma ClientPendingLive(s: System, l: C.Label)
    requires Ok(s) && ClientEnabled(s, l)
    ensures PendingLive(Apply(s, Client(l)))
  {
    if l.Register? && Admits(s, l.t) {
      RegisterPendingLive(s, l.t);
    } else {
      OtherPendingLive(s, l);
    }
  }

  lemma RegisterPendingLive(s: System, t: C.Tid)
    requires Ok(s) && ClientEnabled(s, C.Register(t)) && Admits(s, t)
    ensures PendingLive(Apply(s, Client(C.Register(t))))
  {
    C.HeldOnly(s.client, t, s.client.threads[t].cb);
  }

  // Any other step keeps the live connection, or leaves nothing pending.
  lemma OtherPendingLive(s: System, l: C.Label)
    requires Ok(s) && ClientEnabled(s, l) && !(l.Register? && Admits(s, l.t))
    ensures PendingLive(Apply(s, Client(l)))
  {
    var s' := Apply(s, Client(l));
    CallsStay(s, l);
    PendingStays(s.client, l);
    forall id | id in s'.client.core.pending
      ensures s'.client.core.pending[id] in s'.book.calls
        && s'.client.core.conn == Some(s'.book.calls[s'.client.core.pending[id]].conn)
    {}
  }

  lemma CallsStay(s: System, l: C.Label)
    requires ClientEnabled(s, l) && !(l.Register? && Admits(s, l.t))
    ensures Apply(s, Client(l)).book.calls == s.book.calls
  {}

  lemma PendingStays(c: C.Sys, l: C.Label)
    requires C.Inv(c) && C.Enabled(c, l) && !(l.Register? && !c.core.closed && Live(c.core))
    ensures var c' := C.Apply(c, l);
      || c'.core.pending == map[]
      || (c'.core.conn == c.core.conn
          && forall id :: id in c'.core.pending ==> id in c.core.pending && c'.core.pending[id] == c.core.pending[id])
  {}

  lemma PipesBelow(s: System, l: Label)
    requires Enabled(s, l) && forall c :: c in s.pipes ==> c < s.client.nextConn
    ensures forall c :: c in Apply(s, l).pipes ==> c < Apply(s, l).client.nextConn
  {}

  /************ The other steps ************/

  lemma FailedWriteKeeps(s: System, t: C.Tid, cut: nat)
    requires Ok(s) && Enabled(s, ClientWriteFails(t, cut))
    ensures var s' := Apply(s, ClientWriteFails(t, cut)); BrokenOk(s') && FreshOk(s') && PendingLive(s')
  {
    var s', conn := Apply(s, ClientWriteFails(t, cut)), s.client.threads[t].conn;
    assert C.TokenOk(s.client, s.client.threads[t]);
    forall c: Conn | Broken(s', c) && s'.client.core.conn == Some(c) ensures Doomed(s'.client, c) {
      if c == conn {
        assert Dooms(s'.client, t, c);
      } else {
        assert Broken(s, c);
        ClientKeepsDoom(s.client, C.WriteFails(t), c);
      }
    }
  }

  // The server and pushes do not touch the client, nor what it has written.
  ghost predicate SameClient(s: System, s': System) {
    && s'.client == s.client && s'.book.calls == s.book.calls
    && forall c: Conn :: Broken(s', c) <==> Broken(s, c)
  }

  lemma ServerKeeps(s: System, l: S.Label)
    requires ServerEnabled(s, l)
    ensures SameClient(s, Apply(s, Server(l)))
  {}

  lemma OthersKeep(s: System, l: Label)
    requires Enabled(s, l) && (l.Server? || l.ServerWriteFails? || l.Push?)
    ensures SameClient(s, Apply(s, l))
  {
    if l.Server? { ServerKeeps(s, l.s); }
  }

  lemma OtherStepKeeps(s: System, l: Label)
    requires Ok(s) && Enabled(s, l) && (l.Server? || l.ServerWriteFails? || l.Push?)
    ensures var s' := Apply(s, l); BrokenOk(s') && FreshOk(s') && PendingLive(s')
  {
    OthersKeep(s, l);
  }

  /************ Every run ************/

  lemma ClientInv(s: System, l: Label)
    requires C.Inv(s.client) && C.Accounted(s.client) && Enabled(s, l) && Apply(s, l).client.bumps < TWO64
    ensures C.Inv(Apply(s, l).client) && C.Accounted(Apply(s, l).client)
  {
    Ledger.ClientSide(s, l);
    if Ledger.ClientLabel(l).Some? {
      C.StepInv(s.client, Ledger.ClientLabel(l).value);
      C.StepAccounts(s.client, Ledger.ClientLabel(l).value);
    }
  }

  lemma StepOk(s: System, l: Label)
    requires Ok(s) && Enabled(s, l) && Apply(s, l).client.bumps < TWO64
    ensures Ok(Apply(s, l))
  {
    ClientInv(s, l);
    PipesBelow(s, l);
    match l
    case Client(c) =>
      ClientBroken(s, c);
      ClientPendingLive(s, c);
    case ClientWriteFails(t, cut) => FailedWriteKeeps(s, t, cut);
    case _ => OtherStepKeeps(s, l);
  }

  lemma {:induction false} BumpsRise(s: System, ls: seq<Label>)
    requires Legal(s, ls)
    ensures s.client.bumps <= Exec(s, ls).client.bumps
    decreases |ls|
  {
    if ls != [] {
      Ledger.ClientSide(s, ls[0]);
      if Ledger.ClientLabel(ls[0]).Some? { C.BumpsGrow(s.client, Ledger.ClientLabel(ls[0]).value); }
      BumpsRise(Apply(s, ls[0]), ls[1..]);
    }
  }

  lemma {:induction false} RunOk(s: System, ls: seq<Label>)
    requires Ok(s) && Legal(s, ls) && Exec(s, ls).client.bumps < TWO64
    ensures Ok(Exec(s, ls))
    decreases |ls|
  {
    if ls != [] {
      BumpsRise(Apply(s, ls[0]), ls[1..]);
      StepOk(s, ls[0]);
      RunOk(Apply(s, ls[0]), ls[1..]);
    }
  }

  /** In every run, when a write to the live connection has failed, some goroutine is about to tear it down, under the
      current generation and with UNAVAILABLE; and every pending call was registered on the live connection.  So once
      no goroutine is about to, no connection a write to which failed is live, and no call registered on one is
      pending.  */
  lemma FailedWriteTearsDown(max: int, ls: seq<Label>)
    requires Legal(Init(max), ls) && Exec(Init(max), ls).client.bumps < TWO64
    ensures var s := Exec(Init(max), ls); var core := s.client.core;
      && (forall c: Conn :: Broken(s, c) && core.conn == Some(c) ==> exists t :: Dooms(s.client, t, c))
      && (forall id :: id in core.pending ==>
           core.pending[id] in s.book.calls && core.conn == Some(s.book.calls[core.pending[id]].conn))
      && ((forall t, c :: !Dooms(s.client, t, c)) ==>
           && (forall c: Conn :: Broken(s, c) ==> core.conn != Some(c))
           && forall id :: id in core.pending ==> !Broken(s, s.book.calls[core.pending[id]].conn))
  {
    RunOk(Init(max), ls);
  }

  // t has ended the connection and is about to tell every call that was pending UNAVAILABLE.
  ghost predicate Flushes(c: C.Sys, c': C.Sys, t: C.Tid) {
    && c'.core.conn.None? && c'.core.pending == map[]
    && t in c'.threads && c'.threads[t] == C.Flushing(c.core.pending.Values, 14)
  }

  lemma TeardownFlushes(c: C.Sys, t: C.Tid, conn: Conn)
    requires Dooms(c, t, conn)
    ensures C.Enabled(c, C.Teardown(t)) && Flushes(c, C.Apply(c, C.Teardown(t)), t)
  {}

  /** The teardown such a goroutine makes ends the connection and takes every pending call with it, to tell each
      UNAVAILABLE.  */
  lemma TeardownTellsUnavailable(max: int, ls: seq<Label>, t: C.Tid, c: Conn)
    requires Legal(Init(max), ls) && Dooms(Exec(Init(max), ls).client, t, c)
    ensures var s := Exec(Init(max), ls);
      && Enabled(s, Client(C.Teardown(t)))
      && Flushes(s.client, Apply(s, Client(C.Teardown(t))).client, t)
  {
    TeardownFlushes(Exec(Init(max), ls).client, t, c);
  }
}
