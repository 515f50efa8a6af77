/** The Go client channel, its connections as byte streams, and the Go server, run together: any
    number of calls and reconnects, handlers answering out of order, pushes, and failures anywhere.
    The server may serve other clients' connections at the same time; those read what they like.  */
module EndToEnd {
  import opened Framing
  import opened Flows
  import opened GoChannel
  import C = GoClient
  import S = GoServer

  datatype Pipe = Pipe(up: Flow, down: Flow)

  datatype Ask = Ask(methodId: u32, request: seq<byte>)
  datatype Call = Call(conn: Conn, id: u32, methodId: u32, request: seq<byte>)

  // serveRequest answered `call` with (code, payload); a failing call has no payload.
  datatype Produced = Produced(call: Call, code: Code, payload: seq<byte>)

  /** History: what each callback's caller asked for, the call it was registered as, the callback last
      registered under each id, every answer serveRequest has produced for this client, and the
      number of registrations.  */
  datatype Book = Book(asked: map<Cb, Ask>, calls: map<Cb, Call>, latest: map<u32, Cb>,
                       produced: set<Produced>, registered: nat)

  datatype System = System(client: C.Sys, server: S.Server, pipes: map<Conn, Pipe>, book: Book)

  datatype Label =
    | Client(c: C.Label)
    | ClientWriteFails(t: C.Tid, cut: nat)
    | Server(s: S.Label)
    | ServerWriteFails(g: S.Req, cut: nat)
    | Push(p: Conn, methodId: u32, payload: seq<byte>)

  function Init(max: int): System {
    System(C.Init(), S.Init(max), map[], Book(map[], map[], map[], {}, 0))
  }

  function Response(r: S.Request): Frame
    requires r.pc.Answered?
  {
    S.ResponseFrame(r.frame, r.pc.code, r.pc.payload)
  }

  predicate ClientEnabled(s: System, l: C.Label) {
    && C.Enabled(s.client, l)
    && match l
       case DialOk(_) => s.client.nextConn !in s.pipes && s.client.nextConn !in s.server.peers
       case WriteOk(t) => var c := s.client.threads[t].conn; c in s.pipes && !s.pipes[c].up.broken
       case WriteFails(_) => false   // ClientWriteFails
       case ReadOk(t, f) => var c := s.client.threads[t].conn; c in s.pipes && CanRead(s.pipes[c].down, f)
       case _ => true
  }

  predicate ServerEnabled(s: System, l: S.Label) {
    && S.Enabled(s.server, l)
    && match l
       case ReadOk(p, f) => p in s.pipes ==> CanRead(s.pipes[p].up, f)
       case Write(g) => var p := s.server.reqs[g].peer; p in s.pipes ==> !s.pipes[p].down.broken
       case _ => true
  }

  predicate Enabled(s: System, l: Label) {
    match l
    case Client(c) => ClientEnabled(s, c)
    case ClientWriteFails(t, cut) =>
      && C.Enabled(s.client, C.WriteFails(t)) && s.client.threads[t].conn in s.pipes
      && cut < |FrameBytes(s.client.threads[t].frame)|
    case Server(l) => ServerEnabled(s, l)
    case ServerWriteFails(g, cut) =>
      && S.Enabled(s.server, S.Write(g)) && s.server.reqs[g].peer in s.pipes
      && cut < |FrameBytes(Response(s.server.reqs[g]))|
    case Push(p, _, _) => p in s.pipes && p in s.server.peers && !s.pipes[p].down.broken
  }

  function SetUp(s: System, c: Conn, fl: Flow): System
    requires c in s.pipes
  {
    s.(pipes := s.pipes[c := s.pipes[c].(up := fl)])
  }

  function SetDown(s: System, c: Conn, fl: Flow): System
    requires c in s.pipes
  {
    s.(pipes := s.pipes[c := s.pipes[c].(down := fl)])
  }

  predicate Admits(s: System, t: C.Tid) {
    C.Enabled(s.client, C.Register(t)) && !s.client.core.closed && Live(s.client.core)
  }

  // What a client step does to the wire and to the history.
  function ClientEffect(s: System, l: C.Label): System
    requires ClientEnabled(s, l)
  {
    match l
    case StartCall(t, cb, m, r) => s.(book := s.book.(asked := s.book.asked[cb := Ask(m, r)]))
    case DialOk(t) => s.(pipes := s.pipes[s.client.nextConn := Pipe(EmptyFlow(), EmptyFlow())])
    case WriteOk(t) =>
      var c := s.client.threads[t].conn;
      SetUp(s, c, AfterWrite(s.pipes[c].up, s.client.threads[t].frame))
    case ReadOk(t, f) =>
      var c := s.client.threads[t].conn;
      SetDown(s, c, AfterRead(s.pipes[c].down))
    case Register(t) =>
      if Admits(s, t) then
        var pc, id := s.client.threads[t], s.client.core.nextCallId;
        s.(book := s.book.(calls := s.book.calls[pc.cb := Call(s.client.core.conn.value, id, pc.methodId, pc.request)],
                           latest := s.book.latest[id := pc.cb], registered := s.book.registered + 1))
      else s
    case _ => s
  }

  function Answer(r: S.Request, code: Code, payload: seq<byte>): Produced {
    Produced(Call(r.peer, r.frame.hdr.callId, r.frame.hdr.methodId, r.frame.payload), code, payload)
  }

  function ServerEffect(s: System, l: S.Label): System
    requires ServerEnabled(s, l)
  {
    match l
    case ReadOk(p, f) => if p in s.pipes then SetUp(s, p, AfterRead(s.pipes[p].up)) else s
    case Lookup(g) =>
      var r := s.server.reqs[g];
      if r.frame.hdr.methodId in s.server.handlers then s
      else s.(book := s.book.(produced := s.book.produced + {Answer(r, S.UNIMPLEMENTED, [])}))
    case Return(g, code, payload) =>
      s.(book := s.book.(produced := s.book.produced
        + {Answer(s.server.reqs[g], code, if code == OK then payload else [])}))
    case Write(g) =>
      var r := s.server.reqs[g];
      if r.peer in s.pipes then SetDown(s, r.peer, AfterWrite(s.pipes[r.peer].down, Response(r))) else s
    case _ => s
  }

  function Apply(s: System, l: Label): System
    requires Enabled(s, l)
  {
    match l
    case Client(c) => ClientEffect(s, c).(client := C.Apply(s.client, c))
    case ClientWriteFails(t, cut) =>
      var pc := s.client.threads[t];
      SetUp(s, pc.conn, AfterFailedWrite(s.pipes[pc.conn].up, pc.frame, cut))
        .(client := C.Apply(s.client, C.WriteFails(t)))
    case Server(l) => ServerEffect(s, l).(server := S.Apply(s.server, l))
    case ServerWriteFails(g, cut) =>
      var r := s.server.reqs[g];
      SetDown(s, r.peer, AfterFailedWrite(s.pipes[r.peer].down, Response(r), cut))
        .(server := S.Apply(s.server, S.Write(g)))
    case Push(p, m, payload) => SetDown(s, p, AfterWrite(s.pipes[p].down, PushFrame(m, payload)))
  }

  predicate Legal(s: System, ls: seq<Label>)
    decreases |ls|
  {
    ls == [] || (Enabled(s, ls[0]) && Legal(Apply(s, ls[0]), ls[1..]))
  }

  function Exec(s: System, ls: seq<Label>): System
    requires Legal(s, ls)
    decreases |ls|
  {
    if ls == [] then s else Exec(Apply(s, ls[0]), ls[1..])
  }

  /************ What is in flight ************/

  // A request or response of this client, wherever it is between the two ends.
  datatype Item =
    | Writing(t: C.Tid)
    | Up(c: Conn, i: nat)
    | AtConn(p: Conn)
    | AtReq(g: S.Req)
    | Down(c: Conn, i: nat)
    | Handling(t: C.Tid)

  ghost predicate Present(s: System, it: Item) {
    match it
    case Writing(t) => t in s.client.threads && s.client.threads[t].Writing?
    case Up(c, i) => c in s.pipes && s.pipes[c].up.taken <= i < |s.pipes[c].up.frames|
    case AtConn(p) => p in s.pipes && p in s.server.peers
      && (s.server.peers[p].Got? || s.server.peers[p].Acquired? || s.server.peers[p].Counted?)
    case AtReq(g) => g in s.server.reqs && s.server.reqs[g].peer in s.pipes && !S.Attempted(s.server.reqs[g].pc)
    case Down(c, i) => c in s.pipes && s.pipes[c].down.taken <= i < |s.pipes[c].down.frames|
    case Handling(t) => t in s.client.threads && s.client.threads[t].Handling?
  }

  ghost function ConnOf(s: System, it: Item): Conn
    requires Present(s, it)
  {
    match it
    case Writing(t) => s.client.threads[t].conn
    case Up(c, i) => c
    case AtConn(p) => p
    case AtReq(g) => s.server.reqs[g].peer
    case Down(c, i) => c
    case Handling(t) => s.client.threads[t].conn
  }

  ghost function FrameOf(s: System, it: Item): Frame
    requires Present(s, it)
  {
    match it
    case Writing(t) => s.client.threads[t].frame
    case Up(c, i) => s.pipes[c].up.frames[i]
    case AtConn(p) => s.server.peers[p].frame
    case AtReq(g) => s.server.reqs[g].frame
    case Down(c, i) => s.pipes[c].down.frames[i]
    case Handling(t) => s.client.threads[t].frame
  }

  predicate IsAnswer(it: Item) { it.Down? || it.Handling? }

  // The goroutine reads connection c, or will.
  predicate Reads(pc: C.Pc, c: Conn) {
    (pc.Dialed? || pc.Spawning? || pc.Reading? || pc.Handling? || pc.Responding?) && pc.conn == c
  }

  // Some goroutine of the client can still read what comes over connection c.
  ghost predicate Readable(c: C.Sys, conn: Conn) { exists t :: t in c.threads && Reads(c.threads[t], conn) }

  // The id an item occupies: pushes occupy none, nor does what can never come back to the client.
  ghost predicate Occupies(s: System, it: Item, id: u32) {
    && Present(s, it) && Readable(s.client, ConnOf(s, it))
    && FrameOf(s, it).hdr.callId == id && (IsAnswer(it) ==> FrameOf(s, it).hdr.ftype == RESPONSE)
  }

  // No call with this id is pending, and no request or response with it is in flight where it can still matter.
  ghost predicate IdFree(s: System, id: u32) {
    id !in s.client.core.pending && forall it :: !Occupies(s, it, id)
  }

  /** The conditions under which the protocol promises anything: payloads under 2^32 bytes, and an id
      is reused (after 2^32 calls) only when no earlier call with it is outstanding.  */
  ghost predicate Sane(s: System, l: Label) {
    match l
    case Client(StartCall(_, _, _, r)) => |r| < TWO32
    case Client(Register(t)) => Admits(s, t) ==> IdFree(s, s.client.core.nextCallId)
    case Server(Return(_, _, payload)) => |payload| < TWO32
    case Push(_, _, payload) => |payload| < TWO32
    case _ => true
  }

  ghost predicate SaneRun(s: System, ls: seq<Label>)
    requires Legal(s, ls)
    decreases |ls|
  {
    ls == [] || (Sane(s, ls[0]) && SaneRun(Apply(s, ls[0]), ls[1..]))
  }

  /************ The invariant ************/

  // A request frame of the call last registered under its id, on that call's connection.
  ghost predicate RequestOk(b: Book, c: Conn, f: Frame) {
    && f.hdr.callId in b.latest && b.latest[f.hdr.callId] in b.calls
    && var call := b.calls[b.latest[f.hdr.callId]];
    && call == Call(c, f.hdr.callId, f.hdr.methodId, f.payload)
  }

  // An answer produced for exactly this call.
  ghost predicate AnsweredBy(b: Book, call: Call, status: int, payload: seq<byte>) {
    exists pr :: pr in b.produced && pr.call == call && S.U16(pr.code) == status && pr.payload == payload
  }

  ghost predicate ResponseOk(b: Book, f: Frame) {
    && f.hdr.callId in b.latest && b.latest[f.hdr.callId] in b.calls
    && AnsweredBy(b, b.calls[b.latest[f.hdr.callId]], f.hdr.status, f.payload)
  }

  ghost predicate ItemOk(s: System, it: Item)
    requires Present(s, it)
  {
    var f, c := FrameOf(s, it), ConnOf(s, it);
    if IsAnswer(it) then Readable(s.client, c) && f.hdr.ftype == RESPONSE ==> ResponseOk(s.book, f)
    else f.hdr.ftype == REQUEST && Sized(f) && (Readable(s.client, c) ==> RequestOk(s.book, c, f))
  }

  ghost predicate ItemsOk(s: System) { forall it :: Present(s, it) ==> ItemOk(s, it) }

  ghost predicate PipesOk(s: System) {
    && (forall c :: c in s.pipes ==> FlowOk(s.pipes[c].up) && FlowOk(s.pipes[c].down))
    && (forall c :: c in s.pipes ==> c < s.client.nextConn)
  }

  // A pending callback is the one last registered under its id.
  ghost predicate PendingOk(s: System) {
    forall id :: id in s.client.core.pending ==> id in s.book.latest && s.book.latest[id] == s.client.core.pending[id]
  }

  // An answer about to be written has been produced for its request.
  ghost predicate AnswersOk(s: System) {
    forall g :: g in s.server.reqs && s.server.reqs[g].pc.Answered? && s.server.reqs[g].peer in s.pipes ==>
      && Answer(s.server.reqs[g], s.server.reqs[g].pc.code, s.server.reqs[g].pc.payload) in s.book.produced
      && |s.server.reqs[g].pc.payload| < TWO32
  }

  ghost predicate Justified(b: Book, cb: Cb, code: Code, payload: seq<byte>) {
    cb in b.calls && exists pr ::
      pr in b.produced && pr.call == b.calls[cb] && S.U16(pr.code) == code && (code == OK ==> pr.payload == payload)
  }

  // Whoever reports OK has a produced answer to show for it.
  ghost predicate OutcomeOk(b: Book, pc: C.Pc) {
    match pc
    case Responding(_, _, cb, code, payload) => Justified(b, cb, code, payload)
    case Failing(_, code) => code != OK
    case Flushing(_, code) => code != OK
    case Tearing(_, _, code, _) => code != OK
    case _ => true
  }

  ghost predicate OutcomesOk(s: System) {
    && (forall t :: t in s.client.threads ==> OutcomeOk(s.book, s.client.threads[t]))
    && (forall i :: 0 <= i < |s.client.invoked| && s.client.invoked[i].code == OK ==>
         Justified(s.book, s.client.invoked[i].cb, OK, s.client.invoked[i].payload))
  }

  function WorkOf(pc: C.Pc): C.Work {
    match pc
    case Checking(w) => w
    case Waiting(w) => w
    case Rechecking(w) => w
    case Dialing(w) => w
    case Dialed(w, _) => w
    case Spawning(w, _, _) => w
    case Leaving(w, _) => w
    case Registering(cb, m, r) => C.ForCall(cb, m, r)
    case _ => C.ForConnect
  }

  // A goroutine still carries its call as it was asked; a registered call is as it was asked.
  ghost predicate AskedOk(s: System) {
    && (forall t :: t in s.client.threads && WorkOf(s.client.threads[t]).ForCall? ==>
         var w := WorkOf(s.client.threads[t]);
         && w.cb in s.book.asked && s.book.asked[w.cb] == Ask(w.methodId, w.request)
         && w.cb !in s.book.calls && |w.request| < TWO32)
    && (forall cb :: cb in s.book.calls ==>
         cb in s.book.asked && s.book.asked[cb] == Ask(s.book.calls[cb].methodId, s.book.calls[cb].request))
    && (forall cb :: cb in s.book.asked ==> cb in s.client.issued)
  }

  ghost predicate PeersOk(s: System) {
    forall g :: g in s.server.reqs ==> s.server.reqs[g].peer in s.server.peers
  }

  // Every connection the client has is one it dialled.
  predicate HasConn(pc: C.Pc) {
    pc.Dialed? || pc.Spawning? || pc.Writing? || pc.Tearing? || pc.Reading? || pc.Handling? || pc.Responding?
  }

  ghost predicate ConnsOk(c: C.Sys) {
    && (c.core.conn.Some? ==> c.core.conn.value < c.nextConn)
    && (forall t :: t in c.threads && HasConn(c.threads[t]) ==> c.threads[t].conn < c.nextConn)
  }

  ghost predicate Inv(s: System) {
    ConnsOk(s.client) && PipesOk(s) && PeersOk(s) && ItemsOk(s) && PendingOk(s) && AnswersOk(s) && OutcomesOk(s)
      && AskedOk(s) && C.Accounted(s.client)
  }

  /************ Preservation ************/

  // A client step moves its own goroutine, and for Spawn starts a reader.
  lemma ClientMovesOne(c: C.Sys, l: C.Label)
    requires C.Enabled(c, l)
    ensures var c' := C.Apply(c, l);
      forall u :: u in c'.threads && u != l.t ==>
        if l.Spawn? && u == l.r then c'.threads[u].Reading? else u in c.threads && c'.threads[u] == c.threads[u]
  {}

  ghost predicate Grows(b: Book, b': Book) {
    b'.latest == b.latest && b'.calls == b.calls && b.produced <= b'.produced
  }

  lemma AnsweredGrows(b: Book, b': Book, call: Call, status: int, payload: seq<byte>)
    requires b.produced <= b'.produced && AnsweredBy(b, call, status, payload)
    ensures AnsweredBy(b', call, status, payload)
  {
    var pr :| pr in b.produced && pr.call == call && S.U16(pr.code) == status && pr.payload == payload;
    assert pr in b'.produced;
  }

  lemma JustifiedGrows(b: Book, b': Book, cb: Cb, code: Code, payload: seq<byte>)
    requires Justified(b, cb, code, payload) && b.produced <= b'.produced && cb in b'.calls
    requires b'.calls[cb] == b.calls[cb]
    ensures Justified(b', cb, code, payload)
  {
    var pr :| pr in b.produced && pr.call == b.calls[cb] && S.U16(pr.code) == code
      && (code == OK ==> pr.payload == payload);
    assert pr in b'.produced;
  }

  ghost predicate SameItem(s: System, s': System, it: Item)
    requires Present(s', it)
  {
    && Present(s, it) && FrameOf(s', it) == FrameOf(s, it) && ConnOf(s', it) == ConnOf(s, it)
    && (Readable(s'.client, ConnOf(s', it)) ==> Readable(s.client, ConnOf(s, it)))
  }

  // No connection has become readable.
  ghost predicate ReadersFrom(c: C.Sys, c': C.Sys) { forall conn :: Readable(c', conn) ==> Readable(c, conn) }

  lemma ClientReaders(c: C.Sys, l: C.Label, conn: Conn)
    requires C.Enabled(c, l) && Readable(C.Apply(c, l), conn) && (l.DialOk? ==> conn != c.nextConn)
    ensures Readable(c, conn)
  {
    var c' := C.Apply(c, l);
    var t :| t in c'.threads && Reads(c'.threads[t], conn);
    assert if t in c.threads && Reads(c.threads[t], conn) then true else l.Spawn? && Reads(c.threads[l.t], conn);
  }

  lemma ClientReadersFrom(c: C.Sys, l: C.Label)
    requires C.Enabled(c, l) && !l.DialOk?
    ensures ReadersFrom(c, C.Apply(c, l))
  {
    forall conn | Readable(C.Apply(c, l), conn) ensures Readable(c, conn) { ClientReaders(c, l, conn); }
  }

  lemma ClientConns(c: C.Sys, l: C.Label)
    requires C.Enabled(c, l) && ConnsOk(c)
    ensures ConnsOk(C.Apply(c, l))
  {}

  // Items that were there before, with the history only growing, and items that are fine anyway.
  lemma ItemsCarry(s: System, s': System)
    requires ItemsOk(s) && Grows(s.book, s'.book)
    requires forall it :: Present(s', it) ==> SameItem(s, s', it) || ItemOk(s', it)
    ensures ItemsOk(s')
  {
    forall it | Present(s', it) ensures ItemOk(s', it) {
      if SameItem(s, s', it) {
        assert ItemOk(s, it);
        var f := FrameOf(s, it);
        if IsAnswer(it) && f.hdr.ftype == RESPONSE && Readable(s.client, ConnOf(s, it)) {
          AnsweredGrows(s.book, s'.book, s.book.calls[s.book.latest[f.hdr.callId]], f.hdr.status, f.payload);
        }
      }
    }
  }

  // A client step that leaves the wire alone and starts no write and no handling.
  lemma QuietClientItems(s: System, s': System, t: C.Tid)
    requires ItemsOk(s) && Grows(s.book, s'.book) && s'.pipes == s.pipes && s'.server == s.server
    requires ReadersFrom(s.client, s'.client)
    requires forall u :: u in s'.client.threads && u != t ==>
      (u in s.client.threads && s'.client.threads[u] == s.client.threads[u]) || s'.client.threads[u].Reading?
    requires t in s'.client.threads && !s'.client.threads[t].Writing? && !s'.client.threads[t].Handling?
    ensures ItemsOk(s')
  {
    forall it | Present(s', it) ensures SameItem(s, s', it) {}
    ItemsCarry(s, s');
  }

  predicate QuietLabel(l: C.Label) { !l.Register? && !l.WriteOk? && !l.WriteFails? && !l.ReadOk? && !l.DialOk? }

  lemma QuietClientStep(s: System, l: C.Label)
    requires ItemsOk(s) && ClientEnabled(s, l) && QuietLabel(l)
    ensures ItemsOk(Apply(s, Client(l)))
  {
    var s' := Apply(s, Client(l));
    ClientMovesOne(s.client, l);
    ClientReadersFrom(s.client, l);
    assert !s'.client.threads[l.t].Writing? && !s'.client.threads[l.t].Handling?;
    QuietClientItems(s, s', l.t);
  }

  lemma DialItems(s: System, t: C.Tid)
    requires ItemsOk(s) && PeersOk(s) && PipesOk(s) && ConnsOk(s.client) && ClientEnabled(s, C.DialOk(t))
    ensures ItemsOk(Apply(s, Client(C.DialOk(t))))
  {
    var s' := Apply(s, Client(C.DialOk(t)));
    forall it | Present(s', it) ensures SameItem(s, s', it) {
      DialSameItem(s, t, it);
    }
    ItemsCarry(s, s');
  }

  // A connection has been added to the client's, and its goroutine t has no frame.
  ghost predicate Dials(s: System, s': System, t: C.Tid) {
    && s'.server == s.server && s'.pipes == s.pipes[s.client.nextConn := Pipe(EmptyFlow(), EmptyFlow())]
    && OneMoved(s.client, s'.client, t) && s'.client.threads[t].Dialed?
    && s.client.nextConn !in s.pipes && s.client.nextConn !in s.server.peers
  }

  // Nothing is on the new connection yet.
  lemma DialPlaces(s: System, s': System, t: C.Tid, it: Item)
    requires PeersOk(s) && PipesOk(s) && ConnsOk(s.client) && Dials(s, s', t) && Present(s', it)
    ensures Present(s, it) && FrameOf(s', it) == FrameOf(s, it) && ConnOf(s', it) == ConnOf(s, it) != s.client.nextConn
  {
    match it
    case AtReq(g) => assert s.server.reqs[g].peer in s.server.peers;
    case _ =>
  }

  lemma DialShape(s: System, t: C.Tid)
    requires ClientEnabled(s, C.DialOk(t))
    ensures Dials(s, Apply(s, Client(C.DialOk(t))), t)
  {}

  lemma DialSameItem(s: System, t: C.Tid, it: Item)
    requires PeersOk(s) && PipesOk(s) && ConnsOk(s.client) && ClientEnabled(s, C.DialOk(t))
    requires Present(Apply(s, Client(C.DialOk(t))), it)
    ensures SameItem(s, Apply(s, Client(C.DialOk(t))), it)
  {
    var s' := Apply(s, Client(C.DialOk(t)));
    DialShape(s, t);
    DialPlaces(s, s', t, it);
    if Readable(s'.client, ConnOf(s', it)) { ClientReaders(s.client, C.DialOk(t), ConnOf(s', it)); }
  }

  // Goroutine t is the only one of the client that moved.
  ghost predicate OneMoved(c: C.Sys, c': C.Sys, t: C.Tid) {
    t in c'.threads && forall u :: u in c'.threads && u != t ==> u in c.threads && c'.threads[u] == c.threads[u]
  }

  // Only one direction of one connection has changed.
  ghost predicate UpSet(s: System, s': System, c: Conn) {
    && c in s.pipes && c in s'.pipes && s'.pipes == s.pipes[c := s'.pipes[c]]
    && s'.pipes[c].down == s.pipes[c].down && s'.client.nextConn == s.client.nextConn
  }

  ghost predicate DownSet(s: System, s': System, c: Conn) {
    && c in s.pipes && c in s'.pipes && s'.pipes == s.pipes[c := s'.pipes[c]]
    && s'.pipes[c].up == s.pipes[c].up && s'.client.nextConn == s.client.nextConn
  }

  lemma UpKeepsPipes(s: System, s': System, c: Conn)
    requires PipesOk(s) && UpSet(s, s', c) && FlowOk(s'.pipes[c].up)
    ensures PipesOk(s')
  {}

  lemma DownKeepsPipes(s: System, s': System, c: Conn)
    requires PipesOk(s) && DownSet(s, s', c) && FlowOk(s'.pipes[c].down)
    ensures PipesOk(s')
  {}

  // The request frame moves from the writer to the wire.
  lemma SentItems(s: System, s': System, t: C.Tid, c: Conn, f: Frame)
    requires ItemsOk(s) && s'.book == s.book && s'.server == s.server && UpSet(s, s', c)
    requires ReadersFrom(s.client, s'.client)
    requires OneMoved(s.client, s'.client, t) && s'.client.threads[t].Done?
    requires s'.pipes[c].up.taken == s.pipes[c].up.taken && s'.pipes[c].up.frames == s.pipes[c].up.frames + [f]
    requires f.hdr.ftype == REQUEST && Sized(f) && (Readable(s.client, c) ==> RequestOk(s.book, c, f))
    ensures ItemsOk(s')
  {
    var n := |s.pipes[c].up.frames|;
    forall it | Present(s', it) ensures SameItem(s, s', it) || ItemOk(s', it) {
      if it != Up(c, n) { assert SameItem(s, s', it); }
    }
    ItemsCarry(s, s');
  }

  lemma WriteItems(s: System, t: C.Tid)
    requires ItemsOk(s) && ClientEnabled(s, C.WriteOk(t))
    ensures ItemsOk(Apply(s, Client(C.WriteOk(t))))
  {
    assert Present(s, Writing(t)) && ItemOk(s, Writing(t));
    ClientReadersFrom(s.client, C.WriteOk(t));
    SentItems(s, Apply(s, Client(C.WriteOk(t))), t, s.client.threads[t].conn, s.client.threads[t].frame);
  }

  lemma WritePipes(s: System, t: C.Tid)
    requires ItemsOk(s) && PipesOk(s) && ClientEnabled(s, C.WriteOk(t))
    ensures PipesOk(Apply(s, Client(C.WriteOk(t))))
  {
    var c, f := s.client.threads[t].conn, s.client.threads[t].frame;
    assert Present(s, Writing(t)) && ItemOk(s, Writing(t));
    WriteKeepsFlow(s.pipes[c].up, f);
    UpKeepsPipes(s, Apply(s, Client(C.WriteOk(t))), c);
  }

  // A failed write puts no whole frame on the wire.
  lemma UnsentItems(s: System, s': System, t: C.Tid, c: Conn)
    requires ItemsOk(s) && s'.book == s.book && s'.server == s.server && UpSet(s, s', c)
    requires ReadersFrom(s.client, s'.client)
    requires OneMoved(s.client, s'.client, t) && s'.client.threads[t].Tearing?
    requires s'.pipes[c].up.taken == s.pipes[c].up.taken && s'.pipes[c].up.frames == s.pipes[c].up.frames
    ensures ItemsOk(s')
  {
    forall it | Present(s', it) ensures SameItem(s, s', it) {}
    ItemsCarry(s, s');
  }

  lemma FailedWriteItems(s: System, t: C.Tid, cut: nat)
    requires ItemsOk(s) && Enabled(s, ClientWriteFails(t, cut))
    ensures ItemsOk(Apply(s, ClientWriteFails(t, cut)))
  {
    ClientReadersFrom(s.client, C.WriteFails(t));
    UnsentItems(s, Apply(s, ClientWriteFails(t, cut)), t, s.client.threads[t].conn);
  }

  lemma FailedWritePipes(s: System, t: C.Tid, cut: nat)
    requires ItemsOk(s) && PipesOk(s) && Enabled(s, ClientWriteFails(t, cut))
    ensures PipesOk(Apply(s, ClientWriteFails(t, cut)))
  {
    var c, f := s.client.threads[t].conn, s.client.threads[t].frame;
    assert Present(s, Writing(t)) && ItemOk(s, Writing(t));
    FailedWriteKeepsFlow(s.pipes[c].up, f, cut);
    UpKeepsPipes(s, Apply(s, ClientWriteFails(t, cut)), c);
  }

  // The first untaken frame moves from the wire to the client's reader.
  lemma ReceivedItems(s: System, s': System, t: C.Tid, c: Conn)
    requires ItemsOk(s) && s'.book == s.book && s'.server == s.server && DownSet(s, s', c)
    requires ReadersFrom(s.client, s'.client)
    requires OneMoved(s.client, s'.client, t)
    requires var fl := s.pipes[c].down;
      && fl.taken < |fl.frames| && s'.client.threads[t].Handling? && s'.client.threads[t].conn == c
      && s'.client.threads[t].frame == fl.frames[fl.taken]
      && s'.pipes[c].down.taken == fl.taken + 1 && s'.pipes[c].down.frames == fl.frames
    ensures ItemsOk(s')
  {
    var from := Down(c, s.pipes[c].down.taken);
    assert Present(s, from) && ItemOk(s, from);
    forall it | Present(s', it) ensures SameItem(s, s', it) || ItemOk(s', it) {
      if it != Handling(t) { assert SameItem(s, s', it); }
    }
    ItemsCarry(s, s');
  }

  lemma ReadItems(s: System, t: C.Tid, f: Frame)
    requires ItemsOk(s) && PipesOk(s) && ClientEnabled(s, C.ReadOk(t, f))
    ensures ItemsOk(Apply(s, Client(C.ReadOk(t, f))))
  {
    var c := s.client.threads[t].conn;
    assert s.pipes[c].down.taken < |s.pipes[c].down.frames| && f == s.pipes[c].down.frames[s.pipes[c].down.taken] by {
      ReadIsNextFrame(s.pipes[c].down, f);
    }
    ClientReadersFrom(s.client, C.ReadOk(t, f));
    ReceivedItems(s, Apply(s, Client(C.ReadOk(t, f))), t, c);
  }

  lemma ReadPipes(s: System, t: C.Tid, f: Frame)
    requires PipesOk(s) && ClientEnabled(s, C.ReadOk(t, f))
    ensures PipesOk(Apply(s, Client(C.ReadOk(t, f))))
  {
    var c := s.client.threads[t].conn;
    ReadKeepsFlow(s.pipes[c].down, f);
    DownKeepsPipes(s, Apply(s, Client(C.ReadOk(t, f))), c);
  }

  // A new call under an id nothing in flight carries.
  lemma RegisteredItems(s: System, s': System, t: C.Tid, id: u32, cb: Cb, call: Call)
    requires ItemsOk(s) && IdFree(s, id) && s'.pipes == s.pipes && s'.server == s.server
    requires cb !in s.book.calls && call.id == id && |call.request| < TWO32
    requires s'.book.latest == s.book.latest[id := cb] && s'.book.calls == s.book.calls[cb := call]
    requires s'.book.produced == s.book.produced
    requires ReadersFrom(s.client, s'.client)
    requires OneMoved(s.client, s'.client, t) && s'.client.threads[t].Writing?
    requires s'.client.threads[t].conn == call.conn
    requires s'.client.threads[t].frame == RequestFrame(id, call.methodId, call.request)
    ensures ItemsOk(s')
  {
    forall it | Present(s', it) ensures ItemOk(s', it) {
      if it != Writing(t) {
        assert SameItem(s, s', it) && ItemOk(s, it);
        assert !Occupies(s, it, id);
        assert Readable(s'.client, ConnOf(s', it)) ==> Readable(s.client, ConnOf(s, it));
        var f := FrameOf(s, it);
        if IsAnswer(it) && f.hdr.ftype == RESPONSE && Readable(s.client, ConnOf(s, it)) {
          AnsweredGrows(s.book, s'.book, s.book.calls[s.book.latest[f.hdr.callId]], f.hdr.status, f.payload);
        }
      }
    }
  }

  lemma RegisterItems(s: System, t: C.Tid)
    requires ItemsOk(s) && AskedOk(s) && ClientEnabled(s, C.Register(t)) && Sane(s, Client(C.Register(t)))
    ensures ItemsOk(Apply(s, Client(C.Register(t))))
  {
    var s' := Apply(s, Client(C.Register(t)));
    var pc, core := s.client.threads[t], s.client.core;
    ClientReadersFrom(s.client, C.Register(t));
    if Admits(s, t) {
      assert WorkOf(pc) == C.ForCall(pc.cb, pc.methodId, pc.request);
      RegisteredItems(s, s', t, core.nextCallId, pc.cb,
        Call(core.conn.value, core.nextCallId, pc.methodId, pc.request));
    } else {
      QuietClientItems(s, s', t);
    }
  }

  /************ The server's side ************/

  // The first untaken request moves from the wire to handleConn.
  lemma TakenItems(s: System, s': System, p: Conn)
    requires ItemsOk(s) && s'.book == s.book && s'.client == s.client && UpSet(s, s', p)
    requires p in s'.server.peers && s'.server.peers == s.server.peers[p := s'.server.peers[p]]
    requires s'.server.reqs == s.server.reqs
    requires var fl := s.pipes[p].up;
      && fl.taken < |fl.frames|
      && (s'.server.peers[p].Draining? || s'.server.peers[p] == S.Got(fl.frames[fl.taken]))
      && s'.pipes[p].up.taken == fl.taken + 1 && s'.pipes[p].up.frames == fl.frames
    ensures ItemsOk(s')
  {
    var from := Up(p, s.pipes[p].up.taken);
    assert Present(s, from) && ItemOk(s, from);
    forall it | Present(s', it) ensures SameItem(s, s', it) || ItemOk(s', it) {
      if it != AtConn(p) { assert SameItem(s, s', it); }
    }
    ItemsCarry(s, s');
  }

  lemma ServerReadItems(s: System, p: Conn, f: Frame)
    requires ItemsOk(s) && PipesOk(s) && ServerEnabled(s, S.ReadOk(p, f))
    ensures ItemsOk(Apply(s, Server(S.ReadOk(p, f))))
  {
    var s' := Apply(s, Server(S.ReadOk(p, f)));
    if p in s.pipes {
      ReadIsNextFrame(s.pipes[p].up, f);
      TakenItems(s, s', p);
    } else {
      StrangerItems(s, s', p);
    }
  }

  // Another client's connection moves; nothing of this client's is there.
  lemma StrangerItems(s: System, s': System, p: Conn)
    requires ItemsOk(s) && s'.book == s.book && s'.client == s.client && s'.pipes == s.pipes
    requires s'.server.reqs == s.server.reqs
    requires p !in s.pipes && p in s'.server.peers && s'.server.peers == s.server.peers[p := s'.server.peers[p]]
    ensures ItemsOk(s')
  {
    forall it | Present(s', it) ensures SameItem(s, s', it) {}
    ItemsCarry(s, s');
  }

  lemma ServerReadPipes(s: System, p: Conn, f: Frame)
    requires PipesOk(s) && ServerEnabled(s, S.ReadOk(p, f))
    ensures PipesOk(Apply(s, Server(S.ReadOk(p, f))))
  {
    if p in s.pipes {
      ReadKeepsFlow(s.pipes[p].up, f);
      UpKeepsPipes(s, Apply(s, Server(S.ReadOk(p, f))), p);
    }
  }

  // handleConn moves on with the request it has, or without one.
  lemma ConnItems(s: System, s': System, p: Conn)
    requires ItemsOk(s) && Grows(s.book, s'.book) && s'.client == s.client && s'.pipes == s.pipes
    requires s'.server.reqs == s.server.reqs
    requires p in s'.server.peers && s'.server.peers == s.server.peers[p := s'.server.peers[p]]
    requires s'.server.peers[p].Got? || s'.server.peers[p].Acquired? || s'.server.peers[p].Counted? ==>
      && p in s.server.peers && (s.server.peers[p].Got? || s.server.peers[p].Acquired? || s.server.peers[p].Counted?)
      && s'.server.peers[p].frame == s.server.peers[p].frame
    ensures ItemsOk(s')
  {
    forall it | Present(s', it) ensures SameItem(s, s', it) {}
    ItemsCarry(s, s');
  }

  lemma SpawnItems(s: System, p: Conn, g: S.Req)
    requires ItemsOk(s) && ServerEnabled(s, S.Spawn(p, g))
    ensures ItemsOk(Apply(s, Server(S.Spawn(p, g))))
  {
    var s' := Apply(s, Server(S.Spawn(p, g)));
    if p in s.pipes { assert Present(s, AtConn(p)) && ItemOk(s, AtConn(p)); }
    forall it | Present(s', it) ensures SameItem(s, s', it) || ItemOk(s', it) {
      if it != AtReq(g) { assert SameItem(s, s', it); }
    }
    ItemsCarry(s, s');
  }

  // A request goroutine moves on.
  lemma ReqItems(s: System, s': System, g: S.Req)
    requires ItemsOk(s) && Grows(s.book, s'.book) && s'.client == s.client && s'.pipes == s.pipes
    requires s'.server.peers == s.server.peers
    requires g in s.server.reqs && g in s'.server.reqs && s'.server.reqs == s.server.reqs[g := s'.server.reqs[g]]
    requires s'.server.reqs[g] == s.server.reqs[g].(pc := s'.server.reqs[g].pc)
    requires S.Attempted(s.server.reqs[g].pc) ==> S.Attempted(s'.server.reqs[g].pc)
    ensures ItemsOk(s')
  {
    forall it | Present(s', it) ensures SameItem(s, s', it) {}
    ItemsCarry(s, s');
  }

  // A frame is appended to what the server sends; the request it answers is no longer in flight.
  lemma RepliedItems(s: System, s': System, c: Conn, f: Frame)
    requires ItemsOk(s) && s'.book == s.book && s'.client == s.client && s'.server.peers == s.server.peers
    requires DownSet(s, s', c)
    requires forall g :: g in s'.server.reqs ==>
      && g in s.server.reqs && s'.server.reqs[g] == s.server.reqs[g].(pc := s'.server.reqs[g].pc)
      && (S.Attempted(s.server.reqs[g].pc) ==> S.Attempted(s'.server.reqs[g].pc))
    requires s'.pipes[c].down.taken == s.pipes[c].down.taken
    requires s'.pipes[c].down.frames == s.pipes[c].down.frames
        || s'.pipes[c].down.frames == s.pipes[c].down.frames + [f]
    requires Readable(s.client, c) && f.hdr.ftype == RESPONSE ==> ResponseOk(s.book, f)
    ensures ItemsOk(s')
  {
    var n := |s.pipes[c].down.frames|;
    forall it | Present(s', it) ensures SameItem(s, s', it) || ItemOk(s', it) {
      if it != Down(c, n) { assert SameItem(s, s', it); }
    }
    ItemsCarry(s, s');
  }

  // The answer to a request in flight, once written, is an answer to the call last registered.
  lemma ReplyOk(s: System, g: S.Req)
    requires ItemsOk(s) && AnswersOk(s) && Present(s, AtReq(g)) && s.server.reqs[g].pc.Answered?
    ensures Readable(s.client, s.server.reqs[g].peer) ==> ResponseOk(s.book, Response(s.server.reqs[g]))
    ensures Sized(Response(s.server.reqs[g]))
  {
    assert ItemOk(s, AtReq(g));
    var r := s.server.reqs[g];
    var pr := Answer(r, r.pc.code, r.pc.payload);
    assert pr in s.book.produced;
    if Readable(s.client, r.peer) { assert pr.call == s.book.calls[s.book.latest[r.frame.hdr.callId]]; }
  }

  lemma ServerWriteItems(s: System, g: S.Req)
    requires ItemsOk(s) && AnswersOk(s) && ServerEnabled(s, S.Write(g))
    ensures ItemsOk(Apply(s, Server(S.Write(g))))
  {
    var s' := Apply(s, Server(S.Write(g)));
    var r := s.server.reqs[g];
    if r.peer in s.pipes {
      ReplyOk(s, g);
      RepliedItems(s, s', r.peer, Response(r));
    } else {
      ReqItems(s, s', g);
    }
  }

  lemma ServerWritePipes(s: System, g: S.Req)
    requires ItemsOk(s) && AnswersOk(s) && PipesOk(s) && ServerEnabled(s, S.Write(g))
    ensures PipesOk(Apply(s, Server(S.Write(g))))
  {
    var r := s.server.reqs[g];
    if r.peer in s.pipes {
      ReplyOk(s, g);
      WriteKeepsFlow(s.pipes[r.peer].down, Response(r));
      DownKeepsPipes(s, Apply(s, Server(S.Write(g))), r.peer);
    }
  }

  lemma FailedReplyItems(s: System, g: S.Req, cut: nat)
    requires ItemsOk(s) && AnswersOk(s) && Enabled(s, ServerWriteFails(g, cut))
    ensures ItemsOk(Apply(s, ServerWriteFails(g, cut)))
  {
    ReplyOk(s, g);
    RepliedItems(s, Apply(s, ServerWriteFails(g, cut)), s.server.reqs[g].peer, Response(s.server.reqs[g]));
  }

  lemma FailedReplyShape(s: System, g: S.Req, cut: nat)
    requires Enabled(s, ServerWriteFails(g, cut))
    ensures var s', r := Apply(s, ServerWriteFails(g, cut)), s.server.reqs[g];
      DownSet(s, s', r.peer) && s'.pipes[r.peer].down == AfterFailedWrite(s.pipes[r.peer].down, Response(r), cut)
  {}

  lemma FailedReplyFlow(s: System, g: S.Req, cut: nat)
    requires ItemsOk(s) && AnswersOk(s) && PipesOk(s) && Enabled(s, ServerWriteFails(g, cut))
    ensures var r := s.server.reqs[g]; FlowOk(AfterFailedWrite(s.pipes[r.peer].down, Response(r), cut))
  {
    ReplyOk(s, g);
    FailedWriteKeepsFlow(s.pipes[s.server.reqs[g].peer].down, Response(s.server.reqs[g]), cut);
  }

  lemma FailedReplyPipes(s: System, g: S.Req, cut: nat)
    requires ItemsOk(s) && AnswersOk(s) && PipesOk(s) && Enabled(s, ServerWriteFails(g, cut))
    ensures PipesOk(Apply(s, ServerWriteFails(g, cut)))
  {
    FailedReplyShape(s, g, cut);
    FailedReplyFlow(s, g, cut);
    DownKeepsPipes(s, Apply(s, ServerWriteFails(g, cut)), s.server.reqs[g].peer);
  }

  lemma PushKeepsItems(s: System, p: Conn, m: u32, payload: seq<byte>)
    requires ItemsOk(s) && Enabled(s, Push(p, m, payload))
    ensures ItemsOk(Apply(s, Push(p, m, payload)))
  {
    PushShape(s, p, m, payload);
    PushItems(s, Apply(s, Push(p, m, payload)), p, PushFrame(m, payload));
  }

  lemma PushSized(m: u32, payload: seq<byte>)
    requires |payload| < TWO32
    ensures Sized(PushFrame(m, payload))
  {}

  lemma PushFlow(s: System, p: Conn, f: Frame)
    requires PipesOk(s) && p in s.pipes && !s.pipes[p].down.broken && Sized(f)
    ensures FlowOk(AfterWrite(s.pipes[p].down, f))
  {
    WriteKeepsFlow(s.pipes[p].down, f);
  }

  lemma PushKeepsPipes(s: System, p: Conn, m: u32, payload: seq<byte>)
    requires PipesOk(s) && Enabled(s, Push(p, m, payload)) && |payload| < TWO32
    ensures PipesOk(Apply(s, Push(p, m, payload)))
  {
    PushShape(s, p, m, payload);
    PushSized(m, payload);
    PushFlow(s, p, PushFrame(m, payload));
    DownKeepsPipes(s, Apply(s, Push(p, m, payload)), p);
  }

  lemma PushItems(s: System, s': System, p: Conn, f: Frame)
    requires ItemsOk(s) && s'.client == s.client && s'.server == s.server && s'.book == s.book && DownSet(s, s', p)
    requires s'.pipes[p].down == AfterWrite(s.pipes[p].down, f) && f.hdr.ftype == PUSH
    ensures ItemsOk(s')
  {
    RepliedItems(s, s', p, f);
  }

  lemma PushShape(s: System, p: Conn, m: u32, payload: seq<byte>)
    requires Enabled(s, Push(p, m, payload))
    ensures var s', f := Apply(s, Push(p, m, payload)), PushFrame(m, payload);
      && s'.client == s.client && s'.server == s.server && s'.book == s.book && DownSet(s, s', p)
      && s'.pipes[p].down == AfterWrite(s.pipes[p].down, f)
  {}

  // Server steps that touch neither the wire nor what this client's requests carry.
  lemma QuietServerItems(s: System, l: S.Label)
    requires ItemsOk(s) && ServerEnabled(s, l) && !l.ReadOk? && !l.Write? && !l.Spawn?
    ensures ItemsOk(Apply(s, Server(l)))
  {
    var s' := Apply(s, Server(l));
    match l
    case RegisterMethod(_, _) => SameServerItems(s, s');
    case Shutdown => SameServerItems(s, s');
    case Lookup(g) => ReqItems(s, s', g);
    case Return(g, _, _) => ReqItems(s, s', g);
    case Release(g) => ReqItems(s, s', g);
    case Finish(g) => ReqItems(s, s', g);
    case Accept(p) => ConnItems(s, s', p);
    case Handshake(p, _) => ConnItems(s, s', p);
    case ReadFails(p) => ConnItems(s, s', p);
    case Acquire(p) => ConnItems(s, s', p);
    case Abandon(p) => ConnItems(s, s', p);
    case Count(p) => ConnItems(s, s', p);
    case OnDisconnect(p) => ConnItems(s, s', p);
    case Remove(p) => ConnItems(s, s', p);
  }

  lemma SameServerItems(s: System, s': System)
    requires ItemsOk(s) && s'.book == s.book && s'.client == s.client && s'.pipes == s.pipes
    requires s'.server.peers == s.server.peers && s'.server.reqs == s.server.reqs
    ensures ItemsOk(s')
  {
    forall it | Present(s', it) ensures SameItem(s, s', it) {}
    ItemsCarry(s, s');
  }

  /************ Calls, answers and outcomes ************/

  // The client's map of pending calls only loses entries, except at a registration.
  lemma ClientPending(c: C.Sys, l: C.Label)
    requires C.Enabled(c, l) && !l.Register?
    ensures forall id :: id in C.Apply(c, l).core.pending ==>
        id in c.core.pending && C.Apply(c, l).core.pending[id] == c.core.pending[id]
  {}

  lemma ClientPendingOk(s: System, l: C.Label)
    requires PendingOk(s) && ClientEnabled(s, l)
    ensures PendingOk(Apply(s, Client(l)))
  {
    if !l.Register? { ClientPending(s.client, l); }
  }

  lemma ServerAnswers(s: System, l: S.Label)
    requires AnswersOk(s) && PeersOk(s) && ServerEnabled(s, l) && Sane(s, Server(l))
    ensures AnswersOk(Apply(s, Server(l))) && PeersOk(Apply(s, Server(l)))
  {
    ServerPeers(s, l);
    if l.Lookup? || l.Return? { RequestAnswers(s, l); } else { OtherAnswers(s, l); }
  }

  lemma RequestAnswers(s: System, l: S.Label)
    requires AnswersOk(s) && PeersOk(s) && ServerEnabled(s, l) && Sane(s, Server(l)) && (l.Lookup? || l.Return?)
    ensures AnswersOk(Apply(s, Server(l)))
  {}

  lemma OtherAnswers(s: System, l: S.Label)
    requires AnswersOk(s) && PeersOk(s) && ServerEnabled(s, l) && !l.Lookup? && !l.Return?
    ensures AnswersOk(Apply(s, Server(l)))
  {}

  lemma ServerPeers(s: System, l: S.Label)
    requires PeersOk(s) && ServerEnabled(s, l)
    ensures PeersOk(Apply(s, Server(l)))
  {}

  lemma ClientAnswers(s: System, l: C.Label)
    requires AnswersOk(s) && PeersOk(s) && ClientEnabled(s, l)
    ensures AnswersOk(Apply(s, Client(l))) && PeersOk(Apply(s, Client(l)))
  {
    if l.DialOk? { assert forall g :: g in s.server.reqs ==> s.server.reqs[g].peer != s.client.nextConn; }
  }

  // The reader's answer is justified: the response was produced for the call it completes.
  lemma HandleOutcome(s: System, t: C.Tid)
    requires ItemsOk(s) && PendingOk(s) && C.Enabled(s.client, C.Handle(t))
    ensures OutcomeOk(s.book, C.Apply(s.client, C.Handle(t)).threads[t])
  {
    var f := s.client.threads[t].frame;
    assert Present(s, Handling(t)) && ItemOk(s, Handling(t));
    assert Reads(s.client.threads[t], s.client.threads[t].conn);
    if f.hdr.ftype == RESPONSE && f.hdr.callId in s.client.core.pending {
      var cb := s.client.core.pending[f.hdr.callId];
      assert s.book.latest[f.hdr.callId] == cb && ResponseOk(s.book, f);
      var pr :| pr in s.book.produced && pr.call == s.book.calls[cb] && S.U16(pr.code) == f.hdr.status
        && pr.payload == f.payload;
      assert Justified(s.book, cb, f.hdr.status, if f.hdr.status == OK then f.payload else []);
    }
  }

  // Apart from handling a response, a goroutine never reports OK of its own accord.
  lemma OwnOutcome(c: C.Sys, b: Book, l: C.Label)
    requires C.Enabled(c, l) && !l.Handle?
    requires l.t in c.threads ==> OutcomeOk(b, c.threads[l.t])
    ensures OutcomeOk(b, C.Apply(c, l).threads[l.t])
  {}

  lemma NewInvocation(c: C.Sys, b: Book, l: C.Label)
    requires C.Enabled(c, l) && (l.t in c.threads ==> OutcomeOk(b, c.threads[l.t]))
    ensures var v := C.Apply(c, l).invoked;
      || v == c.invoked
      || (|v| == |c.invoked| + 1 && v[..|c.invoked|] == c.invoked
          && var last := v[|c.invoked|]; (last.code == OK ==> Justified(b, last.cb, OK, last.payload)))
  {}

  // A registration adds a call for a callback that had none, so earlier justifications stand.
  ghost predicate KeepsCalls(b: Book, b': Book) {
    b.produced <= b'.produced && forall cb :: cb in b.calls ==> cb in b'.calls && b'.calls[cb] == b.calls[cb]
  }

  lemma OutcomesCarry(s: System, s': System, t: C.Tid)
    requires OutcomesOk(s) && KeepsCalls(s.book, s'.book)
    requires forall u :: u in s'.client.threads && u != t ==>
      (u in s.client.threads && s'.client.threads[u] == s.client.threads[u]) || s'.client.threads[u].Reading?
    requires t in s'.client.threads ==> OutcomeOk(s.book, s'.client.threads[t])
    requires var v, v' := s.client.invoked, s'.client.invoked;
      v' == v || (|v'| == |v| + 1 && v'[..|v|] == v
        && (v'[|v|].code == OK ==> Justified(s.book, v'[|v|].cb, OK, v'[|v|].payload)))
    ensures OutcomesOk(s')
  {
    forall u | u in s'.client.threads ensures OutcomeOk(s'.book, s'.client.threads[u]) {
      var pc := s'.client.threads[u];
      assert OutcomeOk(s.book, pc);
      if pc.Responding? { JustifiedGrows(s.book, s'.book, pc.cb, pc.code, pc.payload); }
    }
    forall i | 0 <= i < |s'.client.invoked| && s'.client.invoked[i].code == OK
      ensures Justified(s'.book, s'.client.invoked[i].cb, OK, s'.client.invoked[i].payload)
    {
      var inv := s'.client.invoked[i];
      assert i < |s.client.invoked| ==> inv == s.client.invoked[i];
      assert Justified(s.book, inv.cb, OK, inv.payload);
      JustifiedGrows(s.book, s'.book, inv.cb, OK, inv.payload);
    }
  }

  lemma ClientBook(s: System, l: C.Label)
    requires AskedOk(s) && ClientEnabled(s, l)
    ensures KeepsCalls(s.book, Apply(s, Client(l)).book)
  {
    if l.Register? {
      var pc := s.client.threads[l.t];
      assert WorkOf(pc) == C.ForCall(pc.cb, pc.methodId, pc.request);
    }
  }

  lemma ClientOutcomes(s: System, l: C.Label)
    requires OutcomesOk(s) && ItemsOk(s) && PendingOk(s) && AskedOk(s) && ClientEnabled(s, l)
    ensures OutcomesOk(Apply(s, Client(l)))
  {
    if l.Handle? { HandleOutcome(s, l.t); } else { OwnOutcome(s.client, s.book, l); }
    NewInvocation(s.client, s.book, l);
    ClientBook(s, l);
    ClientMovesOne(s.client, l);
    OutcomesCarry(s, Apply(s, Client(l)), l.t);
  }

  lemma FailedWriteOutcomes(s: System, t: C.Tid, cut: nat)
    requires OutcomesOk(s) && Enabled(s, ClientWriteFails(t, cut))
    ensures OutcomesOk(Apply(s, ClientWriteFails(t, cut)))
  {
    OutcomesCarry(s, Apply(s, ClientWriteFails(t, cut)), t);
  }

  // A goroutine that still carries a call holds its callback, so two never carry the same one.
  lemma WorkIsHeld(pc: C.Pc)
    ensures WorkOf(pc).ForCall? ==> WorkOf(pc).cb in C.Holds(pc)
  {}

  lemma RegisterAsked(s: System, t: C.Tid)
    requires AskedOk(s) && C.Accounted(s.client) && ClientEnabled(s, C.Register(t))
    ensures AskedOk(Apply(s, Client(C.Register(t))))
  {
    var s' := Apply(s, Client(C.Register(t)));
    var cb := s.client.threads[t].cb;
    assert WorkOf(s.client.threads[t]).cb == cb && C.In(s.client, cb, C.Held(t));
    forall u | u in s'.client.threads && WorkOf(s'.client.threads[u]).ForCall?
      ensures u != t && WorkOf(s'.client.threads[u]).cb != cb && s'.client.threads[u] == s.client.threads[u]
    {
      WorkIsHeld(s.client.threads[u]);
      assert C.In(s.client, WorkOf(s.client.threads[u]).cb, C.Held(u));
    }
  }

  lemma StartAsked(s: System, t: C.Tid, cb: Cb, m: u32, r: seq<byte>)
    requires AskedOk(s) && ClientEnabled(s, C.StartCall(t, cb, m, r)) && |r| < TWO32
    ensures AskedOk(Apply(s, Client(C.StartCall(t, cb, m, r))))
  {
    assert cb !in s.book.asked && cb !in s.book.calls;
  }

  // Otherwise a goroutine that carries a call carried the same one before.
  lemma OwnWork(c: C.Sys, l: C.Label)
    requires C.Enabled(c, l) && !l.StartCall?
    ensures var pc' := C.Apply(c, l).threads[l.t];
      WorkOf(pc').ForCall? ==> l.t in c.threads && WorkOf(pc') == WorkOf(c.threads[l.t])
  {}

  lemma ClientAsked(s: System, l: C.Label)
    requires AskedOk(s) && C.Accounted(s.client) && ClientEnabled(s, l) && Sane(s, Client(l))
    ensures AskedOk(Apply(s, Client(l)))
  {
    if l.StartCall? {
      StartAsked(s, l.t, l.cb, l.methodId, l.request);
    } else if l.Register? {
      RegisterAsked(s, l.t);
    } else {
      ClientMovesOne(s.client, l);
      OwnWork(s.client, l);
      AskedCarries(s, Apply(s, Client(l)), l.t);
    }
  }

  lemma AskedCarries(s: System, s': System, t: C.Tid)
    requires AskedOk(s) && s'.book.asked == s.book.asked && s'.book.calls == s.book.calls
    requires s.client.issued <= s'.client.issued
    requires forall u :: u in s'.client.threads && u != t ==>
      (u in s.client.threads && s'.client.threads[u] == s.client.threads[u]) || s'.client.threads[u].Reading?
    requires t in s'.client.threads && WorkOf(s'.client.threads[t]).ForCall? ==>
      t in s.client.threads && WorkOf(s'.client.threads[t]) == WorkOf(s.client.threads[t])
    ensures AskedOk(s')
  {}

  lemma SamePipes(s: System, s': System)
    requires PipesOk(s) && s'.pipes == s.pipes && s.client.nextConn <= s'.client.nextConn
    ensures PipesOk(s')
  {}

  lemma NewPipe(s: System, s': System)
    requires PipesOk(s) && s'.client.nextConn == s.client.nextConn + 1
    requires s'.pipes == s.pipes[s.client.nextConn := Pipe(EmptyFlow(), EmptyFlow())]
    ensures PipesOk(s')
  {
    assert FlowOk(EmptyFlow());
  }

  lemma ConnsGrow(c: C.Sys, l: C.Label)
    requires C.Enabled(c, l)
    ensures C.Apply(c, l).nextConn == if l.DialOk? then c.nextConn + 1 else c.nextConn
  {}

  lemma QuietPipes(s: System, l: C.Label)
    requires PipesOk(s) && ClientEnabled(s, l) && !l.WriteOk? && !l.ReadOk?
    ensures PipesOk(Apply(s, Client(l)))
  {
    ConnsGrow(s.client, l);
    if l.DialOk? { NewPipe(s, Apply(s, Client(l))); } else { SamePipes(s, Apply(s, Client(l))); }
  }

  lemma ClientStepKeeps(s: System, l: C.Label)
    requires Inv(s) && ClientEnabled(s, l) && Sane(s, Client(l))
    ensures Inv(Apply(s, Client(l)))
  {
    ClientPendingOk(s, l);
    ClientAnswers(s, l);
    ClientOutcomes(s, l);
    ClientAsked(s, l);
    C.StepAccounts(s.client, l);
    ClientConns(s.client, l);
    ClientWire(s, l);
  }

  lemma ClientWire(s: System, l: C.Label)
    requires Inv(s) && ClientEnabled(s, l) && Sane(s, Client(l))
    ensures ItemsOk(Apply(s, Client(l))) && PipesOk(Apply(s, Client(l)))
  {
    if l.WriteOk? {
      WriteItems(s, l.t);
      WritePipes(s, l.t);
    } else if l.ReadOk? {
      ReadItems(s, l.t, l.frame);
      ReadPipes(s, l.t, l.frame);
    } else {
      QuietPipes(s, l);
      if l.DialOk? { DialItems(s, l.t); } else if l.Register? { RegisterItems(s, l.t); } else { QuietClientStep(s, l); }
    }
  }

  lemma FailedWriteKeeps(s: System, t: C.Tid, cut: nat)
    requires Inv(s) && Enabled(s, ClientWriteFails(t, cut))
    ensures Inv(Apply(s, ClientWriteFails(t, cut)))
  {
    FailedWriteItems(s, t, cut);
    FailedWritePipes(s, t, cut);
    FailedWriteOutcomes(s, t, cut);
    FailedWriteRest(s, t, cut);
    ClientConns(s.client, C.WriteFails(t));
  }

  lemma FailedWriteRest(s: System, t: C.Tid, cut: nat)
    requires AskedOk(s) && AnswersOk(s) && PendingOk(s) && PeersOk(s) && C.Accounted(s.client)
    requires Enabled(s, ClientWriteFails(t, cut))
    ensures var s' := Apply(s, ClientWriteFails(t, cut));
      AskedOk(s') && AnswersOk(s') && PendingOk(s') && PeersOk(s') && C.Accounted(s'.client)
  {
    AskedCarries(s, Apply(s, ClientWriteFails(t, cut)), t);
    C.StepAccounts(s.client, C.WriteFails(t));
  }

  lemma ServerItems(s: System, l: S.Label)
    requires ItemsOk(s) && PipesOk(s) && AnswersOk(s) && ServerEnabled(s, l)
    ensures ItemsOk(Apply(s, Server(l)))
  {
    if l.ReadOk? {
      ServerReadItems(s, l.p, l.frame);
    } else if l.Write? {
      ServerWriteItems(s, l.g);
    } else if l.Spawn? {
      SpawnItems(s, l.p, l.g);
    } else {
      QuietServerItems(s, l);
    }
  }

  lemma ServerPipes(s: System, l: S.Label)
    requires ItemsOk(s) && PipesOk(s) && AnswersOk(s) && ServerEnabled(s, l)
    ensures PipesOk(Apply(s, Server(l)))
  {
    if l.ReadOk? {
      ServerReadPipes(s, l.p, l.frame);
    } else if l.Write? {
      ServerWritePipes(s, l.g);
    } else {
      QuietServerShape(s, l);
      SamePipes(s, Apply(s, Server(l)));
    }
  }

  lemma QuietServerShape(s: System, l: S.Label)
    requires ServerEnabled(s, l) && !l.ReadOk? && !l.Write?
    ensures Apply(s, Server(l)).pipes == s.pipes && Apply(s, Server(l)).client == s.client
  {}

  // The client sees nothing of a server step but the growing history.
  lemma ServerStepKeeps(s: System, l: S.Label)
    requires Inv(s) && ServerEnabled(s, l) && Sane(s, Server(l))
    ensures Inv(Apply(s, Server(l)))
  {
    var s' := Apply(s, Server(l));
    ServerItems(s, l);
    ServerPipes(s, l);
    ServerAnswers(s, l);
    SameClientKeeps(s, s');
  }

  lemma SameClientKeeps(s: System, s': System)
    requires PendingOk(s) && OutcomesOk(s) && AskedOk(s) && s'.client == s.client
    requires s'.book == s.book.(produced := s'.book.produced) && s.book.produced <= s'.book.produced
    ensures PendingOk(s') && OutcomesOk(s') && AskedOk(s')
  {
    forall u | u in s'.client.threads ensures OutcomeOk(s'.book, s'.client.threads[u]) {
      var pc := s'.client.threads[u];
      assert OutcomeOk(s.book, pc);
      if pc.Responding? { JustifiedGrows(s.book, s'.book, pc.cb, pc.code, pc.payload); }
    }
    forall i | 0 <= i < |s'.client.invoked| && s'.client.invoked[i].code == OK
      ensures Justified(s'.book, s'.client.invoked[i].cb, OK, s'.client.invoked[i].payload)
    {
      JustifiedGrows(s.book, s'.book, s.client.invoked[i].cb, OK, s.client.invoked[i].payload);
    }
  }

  lemma FailedReplyKeeps(s: System, g: S.Req, cut: nat)
    requires Inv(s) && Enabled(s, ServerWriteFails(g, cut))
    ensures Inv(Apply(s, ServerWriteFails(g, cut)))
  {
    FailedReplyItems(s, g, cut);
    FailedReplyPipes(s, g, cut);
    FailedReplyAnswers(s, g, cut);
    SameClientKeeps(s, Apply(s, ServerWriteFails(g, cut)));
  }

  lemma FailedReplyAnswers(s: System, g: S.Req, cut: nat)
    requires AnswersOk(s) && PeersOk(s) && Enabled(s, ServerWriteFails(g, cut))
    ensures AnswersOk(Apply(s, ServerWriteFails(g, cut))) && PeersOk(Apply(s, ServerWriteFails(g, cut)))
  {}

  lemma StepKeeps(s: System, l: Label)
    requires Inv(s) && Enabled(s, l) && Sane(s, l)
    ensures Inv(Apply(s, l))
  {
    match l
    case Client(c) => ClientStepKeeps(s, c);
    case ClientWriteFails(t, cut) => FailedWriteKeeps(s, t, cut);
    case Server(l) => ServerStepKeeps(s, l);
    case ServerWriteFails(g, cut) => FailedReplyKeeps(s, g, cut);
    case Push(p, m, payload) =>
      PushKeepsItems(s, p, m, payload);
      PushKeepsPipes(s, p, m, payload);
      SameClientKeeps(s, Apply(s, l));
  }

  lemma InitInv(max: int)
    ensures Inv(Init(max))
  {}

  lemma {:induction false} RunKeeps(s: System, ls: seq<Label>)
    requires Inv(s) && Legal(s, ls) && SaneRun(s, ls)
    ensures Inv(Exec(s, ls))
    decreases |ls|
  {
    if ls != [] {
      StepKeeps(s, ls[0]);
      RunKeeps(Apply(s, ls[0]), ls[1..]);
    }
  }

  /************ What every run guarantees ************/

  /** The callback's call was registered as asked, and serveRequest answered exactly that call with
      this payload and a code that is OK on the wire; with codes below 2^16, with OK itself.  */
  ghost predicate Served(b: Book, cb: Cb, payload: seq<byte>) {
    && cb in b.asked && cb in b.calls && b.asked[cb] == Ask(b.calls[cb].methodId, b.calls[cb].request)
    && exists pr :: pr in b.produced && pr.call == b.calls[cb] && pr.payload == payload && pr.code % TWO16 == 0
         && (0 <= pr.code < TWO16 ==> pr.code == OK)
  }

  lemma InvokedOkMeansServed(s: System, i: nat)
    requires Inv(s) && i < |s.client.invoked| && s.client.invoked[i].code == OK
    ensures Served(s.book, s.client.invoked[i].cb, s.client.invoked[i].payload)
  {
    var cb, payload := s.client.invoked[i].cb, s.client.invoked[i].payload;
    assert Justified(s.book, cb, OK, payload);
    var pr :| pr in s.book.produced && pr.call == s.book.calls[cb] && S.U16(pr.code) == OK && pr.payload == payload;
  }

  /** End to end: whatever the interleaving, the reconnects and the failures, a callback invoked with
      OK gets the payload serveRequest produced for that same call's method and request, provided
      payloads stay under 2^32 bytes and ids are not reused while outstanding.  */
  lemma CompletedCallsGotTheirAnswer(max: int, ls: seq<Label>, i: nat)
    requires Legal(Init(max), ls) && SaneRun(Init(max), ls)
    requires i < |Exec(Init(max), ls).client.invoked| && Exec(Init(max), ls).client.invoked[i].code == OK
    ensures var s := Exec(Init(max), ls); Served(s.book, s.client.invoked[i].cb, s.client.invoked[i].payload)
  {
    InitInv(max);
    RunKeeps(Init(max), ls);
    InvokedOkMeansServed(Exec(Init(max), ls), i);
  }

  // pr is an answer to `call`, and inv says what the wire carries of it.
  predicate Tells(pr: Produced, call: Call, inv: C.Invocation) {
    && pr.call == call && inv.code == S.U16(pr.code) && (inv.code != OK <==> pr.code % TWO16 != 0)
    && (inv.code == OK ==> inv.payload == pr.payload)
  }

  ghost predicate ToldAsProduced(b: Book, inv: C.Invocation) {
    inv.cb in b.calls && exists pr :: pr in b.produced && Tells(pr, b.calls[inv.cb], inv)
  }

  /** In every run every response that completes a call tells its callback the code of an answer serveRequest
      produced for that same call, failures included; and it is told a failure exactly when the answer's code is not
      a multiple of 2^16.  */
  lemma CodesSurviveTheWireIff(max: int, ls: seq<Label>, t: C.Tid)
    requires Legal(Init(max), ls) && SaneRun(Init(max), ls) && Enabled(Exec(Init(max), ls), Client(C.Respond(t)))
    ensures var s, s' := Exec(Init(max), ls), Apply(Exec(Init(max), ls), Client(C.Respond(t)));
      && |s'.client.invoked| == |s.client.invoked| + 1 && s.client.invoked <= s'.client.invoked
      && ToldAsProduced(s.book, s'.client.invoked[|s.client.invoked|])
  {
    InitInv(max);
    RunKeeps(Init(max), ls);
    var s := Exec(Init(max), ls);
    RespondTells(s, t);
  }

  lemma RespondTells(s: System, t: C.Tid)
    requires OutcomesOk(s) && C.Enabled(s.client, C.Respond(t))
    ensures var c' := C.Apply(s.client, C.Respond(t));
      && |c'.invoked| == |s.client.invoked| + 1 && s.client.invoked <= c'.invoked
      && ToldAsProduced(s.book, c'.invoked[|s.client.invoked|])
  {
    var pc := s.client.threads[t];
    assert OutcomeOk(s.book, pc);
    var pr :| pr in s.book.produced && pr.call == s.book.calls[pc.cb] && S.U16(pr.code) == pc.code
      && (pc.code == OK ==> pr.payload == pc.payload);
    assert Tells(pr, s.book.calls[pc.cb], C.Invocation(pc.cb, pc.code, pc.payload));
  }

  /************ Fewer than 2^32 calls ************/

  // Ids are handed out in order from 1, wrapping at 2^32.
  ghost predicate CountOk(s: System) {
    && s.client.core.nextCallId == C.IdOf(s.book.registered)
    && IdsFrom(s.book.latest, s.book.registered)
  }

  lemma ClientIds(c: C.Sys, l: C.Label)
    requires C.Enabled(c, l)
    ensures C.Apply(c, l).core.nextCallId ==
      if l.Register? && !c.core.closed && Live(c.core) then NextId(c.core.nextCallId) else c.core.nextCallId
  {}

  ghost predicate IdsFrom(latest: map<u32, Cb>, n: nat) {
    forall id :: id in latest ==> exists j :: 0 <= j < n && id == C.IdOf(j)
  }

  lemma OneMoreId(latest: map<u32, Cb>, n: nat, cb: Cb)
    requires IdsFrom(latest, n)
    ensures IdsFrom(latest[C.IdOf(n) := cb], n + 1)
  {
    var latest' := latest[C.IdOf(n) := cb];
    forall id | id in latest' ensures exists j :: 0 <= j < n + 1 && id == C.IdOf(j) {
      if id in latest {
        var j :| 0 <= j < n && id == C.IdOf(j);
        assert 0 <= j < n + 1 && id == C.IdOf(j);
      } else {
        assert 0 <= n < n + 1 && id == C.IdOf(n);
      }
    }
  }

  lemma RegisterCount(s: System, t: C.Tid)
    requires CountOk(s) && ClientEnabled(s, C.Register(t)) && Admits(s, t)
    ensures CountOk(Apply(s, Client(C.Register(t))))
  {
    OneMoreId(s.book.latest, s.book.registered, s.client.threads[t].cb);
  }

  lemma StepCount(s: System, l: Label)
    requires CountOk(s) && Enabled(s, l)
    ensures CountOk(Apply(s, l)) && s.book.registered <= Apply(s, l).book.registered
  {
    match l
    case Client(c) =>
      ClientIds(s.client, c);
      if c.Register? && Admits(s, c.t) { RegisterCount(s, c.t); }
    case ClientWriteFails(t, cut) => ClientIds(s.client, C.WriteFails(t));
    case _ =>
  }

  // While fewer than 2^32 calls have been registered, the next id has never been used.
  lemma FreshId(s: System)
    requires CountOk(s) && s.book.registered < TWO32
    ensures s.client.core.nextCallId !in s.book.latest
  {
    forall j | 0 <= j < s.book.registered ensures C.IdOf(j) != C.IdOf(s.book.registered) {}
  }

  lemma FreshIdIsFree(s: System)
    requires ItemsOk(s) && PendingOk(s) && s.client.core.nextCallId !in s.book.latest
    ensures IdFree(s, s.client.core.nextCallId)
  {
    forall it | Present(s, it) && Readable(s.client, ConnOf(s, it))
      && (IsAnswer(it) ==> FrameOf(s, it).hdr.ftype == RESPONSE)
      ensures FrameOf(s, it).hdr.callId in s.book.latest
    {
      assert ItemOk(s, it);
    }
  }

  predicate SmallPayloads(ls: seq<Label>) {
    forall l :: l in ls ==>
      match l
      case Client(StartCall(_, _, _, r)) => |r| < TWO32
      case Server(Return(_, _, payload)) => |payload| < TWO32
      case Push(_, _, payload) => |payload| < TWO32
      case _ => true
  }

  lemma {:induction false} CountGrowsRun(s: System, ls: seq<Label>)
    requires CountOk(s) && Legal(s, ls)
    ensures s.book.registered <= Exec(s, ls).book.registered
    decreases |ls|
  {
    if ls != [] {
      StepCount(s, ls[0]);
      CountGrowsRun(Apply(s, ls[0]), ls[1..]);
    }
  }

  // A run with at most 2^32 registrations never reuses an id that is outstanding.
  lemma {:induction false} FewCallsAreSane(s: System, ls: seq<Label>)
    requires Inv(s) && CountOk(s) && Legal(s, ls) && SmallPayloads(ls) && Exec(s, ls).book.registered <= TWO32
    ensures SaneRun(s, ls)
    decreases |ls|
  {
    if ls != [] {
      var l := ls[0];
      var s' := Apply(s, l);
      StepCount(s, l);
      CountGrowsRun(s', ls[1..]);
      if l.Client? && l.c.Register? && Admits(s, l.c.t) {
        FreshId(s);
        FreshIdIsFree(s);
      }
      assert l in ls && Sane(s, l);
      StepKeeps(s, l);
      assert forall m :: m in ls[1..] ==> m in ls;
      FewCallsAreSane(s', ls[1..]);
    }
  }

  /** With at most 2^32 calls on the channel no condition on ids is needed.  */
  lemma FirstCallsGotTheirAnswer(max: int, ls: seq<Label>, i: nat)
    requires Legal(Init(max), ls) && SmallPayloads(ls) && Exec(Init(max), ls).book.registered <= TWO32
    requires i < |Exec(Init(max), ls).client.invoked| && Exec(Init(max), ls).client.invoked[i].code == OK
    ensures var s := Exec(Init(max), ls); Served(s.book, s.client.invoked[i].cb, s.client.invoked[i].payload)
  {
    InitInv(max);
    FewCallsAreSane(Init(max), ls);
    CompletedCallsGotTheirAnswer(max, ls, i);
  }
}
