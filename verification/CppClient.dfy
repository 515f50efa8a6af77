/** All runs of the C++ channel: callers on any thread, the strand, its coroutines, the thread that
    shuts the channel down and the one that runs callbacks.  */
module CppClient {
  import opened Framing
  import opened CppChannel
  import W = WritePump

  datatype Caller = Calling(methodId: u32, request: seq<byte>) | Entered | Ensured
  datatype Task = ConnectT(tok: Token) | CallT(tok: Token, methodId: u32, request: seq<byte>) | ShutdownT
  datatype ShutPc = NotCalled | Stopping | Joining | Draining | Returned

  /** The strand's queue is its whole history `posted`, of which the first `ran` have run.  `issued`,
      `before` and `discarded` are history: every callback handed in, those that had left their caller
      when Shutdown began, and those Shutdown freed without running.  */
  datatype Sys = Sys(
    impl: Impl, callers: map<Token, Caller>, posted: seq<Task>, ran: nat,
    ioStarted: bool, ioExited: bool, workGuard: bool, shutdown: ShutPc,
    issued: set<Token>, before: set<Token>, discarded: set<Token>)

  datatype Label =
    | CallStart(tok: Token, methodId: u32, request: seq<byte>)   // AsyncUnaryCall entered
    | CallFails(tok: Token, code: Code)                          // EnsureConnected failed
    | CallPosts(tok: Token)                                      // EnsureConnected returned OK
    | ConnectStart(tok: Token)                                   // RequestConnect, first test of stopped
    | ConnectEnsures(tok: Token)                                 // EnsureIoThread and the test after it
    | ConnectPosts(tok: Token)
    | RunTask(order: seq<u32>)
    | CoroFails(code: Code)
    | CoroConnects
    | Reads(frame: Frame, order: seq<u32>)
    | ReadFails(code: Code, order: seq<u32>)
    | Writes(l: W.Label)                                         // a pump runs or bytes go out
    | WriteFails(i: nat, code: Code, order: seq<u32>)
    | RunsOne                                                    // one turn of RunCallbacks
    | IoExits
    | ShutStart
    | ShutChecks(order: seq<u32>)
    | ShutJoins
    | ShutDrains

  function Init(inline: bool): Sys {
    Sys(InitImpl(inline), map[], [], 0, false, false, true, NotCalled, {}, {}, {})
  }

  predicate Running(s: Sys) { s.ioStarted && !s.ioExited }

  ghost predicate Enabled(s: Sys, l: Label) {
    match l
    case CallStart(tok, _, _) => tok !in s.issued
    case CallFails(tok, code) => tok in s.callers && s.callers[tok].Calling? && code != OK
    case CallPosts(tok) => tok in s.callers && s.callers[tok].Calling? && s.impl.connected
    case ConnectStart(tok) => tok !in s.issued
    case ConnectEnsures(tok) => tok in s.callers && s.callers[tok].Entered?
    case ConnectPosts(tok) => tok in s.callers && s.callers[tok].Ensured?
    case RunTask(order) => Running(s) && s.ran < |s.posted| && Lists(order, s.impl.pending)
    case CoroFails(code) => Running(s) && s.impl.coros > 0 && code != OK
    case CoroConnects => Running(s) && s.impl.coros > 0
    case Reads(_, order) => Running(s) && s.impl.readers > 0 && Lists(order, s.impl.pending)
    case ReadFails(code, order) => Running(s) && s.impl.readers > 0 && code != OK && Lists(order, s.impl.pending)
    case Writes(l) => Running(s) && (l.Start? || l.Emit? || l.Complete?) && W.Enabled(s.impl.writer, l)
    case WriteFails(i, code, order) => Running(s) && W.Enabled(s.impl.writer, W.Fail(i)) && code != OK
      && Lists(order, s.impl.pending)
    case RunsOne => s.impl.popped < |s.impl.pushed|
    case IoExits => Running(s) && !s.workGuard && s.ran >= |s.posted| && s.impl.coros == 0 && s.impl.readers == 0
      && s.impl.writer.pumps == []
    case ShutStart => true
    case ShutChecks(order) => s.shutdown.Stopping? && Lists(order, s.impl.pending)
    case ShutJoins => s.shutdown.Joining? && s.ioExited
    case ShutDrains => s.shutdown.Draining?
  }

  function Set(s: Sys, impl: Impl): Sys { s.(impl := impl) }

  function TaskEffect(s: Impl, t: Task, order: seq<u32>): Impl
    requires forall i :: 0 <= i < |order| ==> order[i] in s.pending
  {
    match t
    case ConnectT(tok) => ConnectTask(s, tok)
    case CallT(tok, m, r) => CallTask(s, tok, m, r)
    case ShutdownT => ShutdownTask(s, order)
  }

  // What RunCallbacks does with the completion it pops.
  function RunCompletion(s: Impl, c: Completion): Impl {
    match c
    case Done(d) => s.(delivered := s.delivered + [d])
    case PushNote(note) => s.(heard := s.heard + [note])
  }

  function QueuedTokens(s: Impl): set<Token> {
    set i | s.popped <= i < |s.pushed| && s.pushed[i].Done? :: s.pushed[i].d.tok
  }

  function ToSet(ws: seq<Token>): set<Token> { set i | 0 <= i < |ws| :: ws[i] }

  ghost function Apply(s: Sys, l: Label): Sys
    requires Enabled(s, l)
  {
    match l
    case CallStart(tok, m, r) => s.(issued := s.issued + {tok}, callers := s.callers[tok := Calling(m, r)])
    case CallFails(tok, code) =>
      s.(callers := s.callers - {tok}, impl := Deliver(s.impl, [Delivery(tok, code, [])], true))
    case CallPosts(tok) =>
      s.(callers := s.callers - {tok},
        posted := s.posted + [CallT(tok, s.callers[tok].methodId, s.callers[tok].request)])
    case ConnectStart(tok) =>
      var s1 := s.(issued := s.issued + {tok});
      if s.impl.stopped then Set(s1, Deliver(s.impl, [Delivery(tok, UNAVAILABLE, [])], false))
      else s1.(callers := s.callers[tok := Entered])
    case ConnectEnsures(tok) =>
      if s.ioStarted || !s.impl.stopped then s.(ioStarted := true, callers := s.callers[tok := Ensured])
      else s.(callers := s.callers - {tok}, impl := Deliver(s.impl, [Delivery(tok, UNAVAILABLE, [])], false))
    case ConnectPosts(tok) => s.(callers := s.callers - {tok}, posted := s.posted + [ConnectT(tok)])
    case RunTask(order) => s.(ran := s.ran + 1, impl := TaskEffect(s.impl, s.posted[s.ran], order))
    case CoroFails(code) => Set(s, ConnectFails(s.impl, code))
    case CoroConnects => Set(s, ConnectSucceeds(s.impl))
    case Reads(f, order) => Set(s, ReadFrame(s.impl, f, order))
    case ReadFails(code, order) => Set(s, ReadEnds(s.impl, order, code))
    case Writes(l) => Set(s, s.impl.(writer := W.Apply(s.impl.writer, l)))
    case WriteFails(i, code, order) => Set(s, CppChannel.WriteFails(s.impl, i, order, code))
    case RunsOne => Set(s, RunCompletion(s.impl.(popped := s.impl.popped + 1), s.impl.pushed[s.impl.popped]))
    case IoExits => s.(ioExited := true)
    case ShutStart =>
      if s.impl.stopped then s
      else s.(impl := s.impl.(stopped := true), shutdown := Stopping, before := s.issued - s.callers.Keys)
    case ShutChecks(order) =>
      if s.ioStarted then s.(posted := s.posted + [ShutdownT], workGuard := false, shutdown := Joining)
      else s.(shutdown := Draining, discarded := s.discarded + ToSet(s.impl.waiters),
              impl := FailAll(s.impl.(state := Closed), order, CANCELLED, false).(waiters := []))
    case ShutJoins => s.(shutdown := Draining)
    case ShutDrains =>
      s.(shutdown := Returned, discarded := s.discarded + QueuedTokens(s.impl),
         impl := s.impl.(popped := |s.impl.pushed|))
  }

  ghost predicate Legal(s: Sys, ls: seq<Label>)
    decreases |ls|
  {
    ls == [] || (Enabled(s, ls[0]) && Legal(Apply(s, ls[0]), ls[1..]))
  }

  ghost function Exec(s: Sys, ls: seq<Label>): Sys
    requires Legal(s, ls)
    decreases |ls|
  {
    if ls == [] then s else Exec(Apply(s, ls[0]), ls[1..])
  }

  /************ Callbacks: exactly one place ************/

  datatype Place = AtCaller | Posted(i: nat) | Pending(id: u32) | Waiting(i: nat) | Queued(i: nat)
                 | Delivered(i: nat) | Discarded | Dropped

  predicate TaskHas(t: Task, tok: Token) { !t.ShutdownT? && t.tok == tok }

  ghost predicate In(s: Sys, tok: Token, p: Place) {
    match p
    case AtCaller => tok in s.callers
    case Posted(i) => s.ran <= i < |s.posted| && TaskHas(s.posted[i], tok)
    case Pending(id) => id in s.impl.pending && s.impl.pending[id] == tok
    case Waiting(i) => i < |s.impl.waiters| && s.impl.waiters[i] == tok
    case Queued(i) => s.impl.popped <= i < |s.impl.pushed| && s.impl.pushed[i].Done? && s.impl.pushed[i].d.tok == tok
    case Delivered(i) => i < |s.impl.delivered| && s.impl.delivered[i].tok == tok
    case Discarded => tok in s.discarded
    case Dropped => tok in s.impl.dropped
  }

  // Every callback handed in is in exactly one place, and no other callback is anywhere.
  ghost predicate Accounted(s: Sys) {
    && (forall tok :: tok in s.issued ==> exists p :: In(s, tok, p))
    && (forall tok, p, q :: In(s, tok, p) && In(s, tok, q) ==> p == q)
    && (forall tok, p :: In(s, tok, p) ==> tok in s.issued)
  }

  // A step that sends the callbacks `toks` from their places to new ones.
  ghost predicate Sends(s: Sys, s': Sys, toks: seq<Token>, src: seq<Place>, dst: seq<Place>) {
    && |toks| == |src| == |dst|
    && (forall j :: 0 <= j < |toks| ==> In(s, toks[j], src[j]))
    && (forall i, j :: 0 <= i < j < |src| ==> src[i] != src[j])
    && (forall j :: 0 <= j < |toks| ==> In(s', toks[j], dst[j]))
    && (forall tok, p :: In(s', tok, p) && tok in toks ==> exists j :: 0 <= j < |toks| && toks[j] == tok && dst[j] == p)
    && (forall tok, p :: In(s', tok, p) && tok !in toks ==> In(s, tok, p))
    && (forall tok, p :: In(s, tok, p) && tok !in toks ==> In(s', tok, p))
    && s'.issued == s.issued
  }

  lemma SendsKeeps(s: Sys, s': Sys, toks: seq<Token>, src: seq<Place>, dst: seq<Place>)
    requires Accounted(s) && Sends(s, s', toks, src, dst)
    ensures Accounted(s')
  {
    forall i, j | 0 <= i < |toks| && 0 <= j < |toks| && toks[i] == toks[j] ensures i == j {
      assert In(s, toks[i], src[i]) && In(s, toks[i], src[j]);
    }
    forall tok | tok in s'.issued ensures exists p :: In(s', tok, p) {
      var p :| In(s, tok, p);
      if tok in toks {
        var j :| 0 <= j < |toks| && toks[j] == tok;
        assert In(s', tok, dst[j]);
      } else {
        assert In(s', tok, p);
      }
    }
    forall tok, p, q | In(s', tok, p) && In(s', tok, q) ensures p == q {
      if tok in toks {
        var i :| 0 <= i < |toks| && toks[i] == tok && dst[i] == p;
        var j :| 0 <= j < |toks| && toks[j] == tok && dst[j] == q;
      }
    }
  }

  lemma SameKeeps(s: Sys, s': Sys)
    requires Accounted(s) && s'.issued == s.issued && forall tok, p :: In(s', tok, p) <==> In(s, tok, p)
    ensures Accounted(s')
  {
    forall tok | tok in s'.issued ensures exists p :: In(s', tok, p) {
      var p :| In(s, tok, p);
      assert In(s', tok, p);
    }
  }

  // One callback moves.
  lemma MoveKeeps(s: Sys, s': Sys, tok: Token, src: Place, dst: Place)
    requires Accounted(s) && In(s, tok, src) && In(s', tok, dst) && s'.issued == s.issued
    requires forall t, p :: In(s', t, p) <==> if t == tok then p == dst else In(s, t, p)
    ensures Accounted(s')
  {
    assert Sends(s, s', [tok], [src], [dst]);
    SendsKeeps(s, s', [tok], [src], [dst]);
  }

  // A new callback arrives.
  lemma ArriveKeeps(s: Sys, s': Sys, tok: Token, dst: Place)
    requires Accounted(s) && tok !in s.issued && s'.issued == s.issued + {tok}
    requires forall t, p :: In(s', t, p) <==> if t == tok then p == dst else In(s, t, p)
    ensures Accounted(s')
  {
    assert In(s', tok, dst);
    forall t | t in s'.issued ensures exists p :: In(s', t, p) {
      if t != tok {
        var p :| In(s, t, p);
        assert In(s', t, p);
      }
    }
  }

  // Where the next delivery of the channel goes.
  function NextPlace(s: Impl, mayQueue: bool, j: nat): Place {
    if mayQueue && !s.inline then Queued(|s.pushed| + j) else Delivered(|s.delivered| + j)
  }

  function NextPlaces(s: Impl, mayQueue: bool, n: nat): seq<Place> {
    seq(n, j requires 0 <= j < n => NextPlace(s, mayQueue, j))
  }

  function Toks(ds: seq<Delivery>): seq<Token> { seq(|ds|, j requires 0 <= j < |ds| => ds[j].tok) }

  predicate IsEnd(p: Place) { p.Queued? || p.Delivered? }

  ghost predicate NewAt(i: Impl, ds: seq<Delivery>, mayQueue: bool, tok: Token, p: Place) {
    exists j :: 0 <= j < |ds| && ds[j].tok == tok && p == NextPlace(i, mayQueue, j)
  }

  // The end places are as after delivering `ds`.
  ghost predicate Delivers(s: Sys, s': Sys, ds: seq<Delivery>, mayQueue: bool) {
    && s.impl.popped <= |s.impl.pushed| && s'.impl.popped == s.impl.popped && s'.issued == s.issued
    && s'.impl.pushed == Deliver(s.impl, ds, mayQueue).pushed
    && s'.impl.delivered == Deliver(s.impl, ds, mayQueue).delivered
  }

  lemma AfterDeliver(s: Sys, s': Sys, ds: seq<Delivery>, mayQueue: bool)
    requires Delivers(s, s', ds, mayQueue)
    ensures forall tok, p :: IsEnd(p) ==> (In(s', tok, p) <==> In(s, tok, p) || NewAt(s.impl, ds, mayQueue, tok, p))
  {
    var q, n := mayQueue && !s.impl.inline, if mayQueue && !s.impl.inline then |s.impl.pushed| else |s.impl.delivered|;
    forall tok, p | IsEnd(p) ensures In(s', tok, p) <==> In(s, tok, p) || NewAt(s.impl, ds, mayQueue, tok, p) {
      if p.Queued? == q && n <= p.i < n + |ds| {
        assert p == NextPlace(s.impl, mayQueue, p.i - n);
      }
    }
  }

  // Callbacks leave their places and are delivered (or queued), in order.
  lemma DeliverKeeps(s: Sys, s': Sys, ds: seq<Delivery>, src: seq<Place>, mayQueue: bool)
    requires Accounted(s) && Delivers(s, s', ds, mayQueue)
    requires |src| == |ds| && forall j :: 0 <= j < |ds| ==> In(s, ds[j].tok, src[j]) && !IsEnd(src[j])
    requires forall i, j :: 0 <= i < j < |src| ==> src[i] != src[j]
    requires forall tok, p :: !IsEnd(p) ==> (In(s', tok, p) <==> In(s, tok, p) && tok !in Toks(ds))
    ensures Accounted(s')
  {
    var toks, dst := Toks(ds), NextPlaces(s.impl, mayQueue, |ds|);
    AfterDeliver(s, s', ds, mayQueue);
    forall tok, p | In(s', tok, p) && tok in toks ensures exists j :: 0 <= j < |toks| && toks[j] == tok && dst[j] == p {
      var k :| 0 <= k < |toks| && toks[k] == tok;
      assert In(s, tok, src[k]);
      assert NewAt(s.impl, ds, mayQueue, tok, p);
      var j :| 0 <= j < |ds| && ds[j].tok == tok && p == NextPlace(s.impl, mayQueue, j);
      assert toks[j] == tok && dst[j] == p;
    }
    forall j | 0 <= j < |ds| ensures ds[j].tok in toks { assert toks[j] == ds[j].tok; }
    forall tok, p | In(s', tok, p) && tok !in toks ensures In(s, tok, p) {}
    forall j | 0 <= j < |toks| ensures In(s', toks[j], dst[j]) {
      assert NewAt(s.impl, ds, mayQueue, toks[j], dst[j]);
    }
    SendsKeeps(s, s', toks, src, dst);
  }

  lemma DeliverOne(s: Sys, s': Sys, d: Delivery, src: Place, mayQueue: bool)
    requires Accounted(s) && Delivers(s, s', [d], mayQueue)
    requires In(s, d.tok, src) && !IsEnd(src)
    requires forall tok, p :: !IsEnd(p) ==> (In(s', tok, p) <==> In(s, tok, p) && tok != d.tok)
    ensures Accounted(s')
  {
    assert Toks([d]) == [d.tok];
    DeliverKeeps(s, s', [d], [src], mayQueue);
  }

  /************ Step by step ************/

  ghost predicate Bounds(s: Sys) { s.impl.popped <= |s.impl.pushed| && s.ran <= |s.posted| }

  lemma PostAccounts(s: Sys, l: Label)
    requires Accounted(s) && Bounds(s) && Enabled(s, l) && (l.CallPosts? || l.ConnectPosts?)
    ensures Accounted(Apply(s, l))
  {
    var s', tok, dst := Apply(s, l), l.tok, Posted(|s.posted|);
    assert In(s, tok, AtCaller);
    forall t, p ensures In(s', t, p) <==> if t == tok then p == dst else In(s, t, p) {
      if t == tok { assert In(s, t, p) ==> p == AtCaller; }
    }
    assert In(s', tok, dst);
    MoveKeeps(s, s', tok, AtCaller, dst);
  }

  // A caller's callback is delivered without ever reaching the strand.
  lemma CallerDelivers(s: Sys, s': Sys, d: Delivery, mayQueue: bool)
    requires Accounted(s) && Delivers(s, s', [d], mayQueue) && d.tok in s.callers
    requires s' == s.(callers := s.callers - {d.tok}, impl := Deliver(s.impl, [d], mayQueue))
    ensures Accounted(s')
  {
    assert In(s, d.tok, AtCaller);
    forall t, p | !IsEnd(p) ensures In(s', t, p) <==> In(s, t, p) && t != d.tok {
      if t == d.tok { assert In(s, t, p) ==> p == AtCaller; }
    }
    DeliverOne(s, s', d, AtCaller, mayQueue);
  }

  lemma CallFailsAccounts(s: Sys, tok: Token, code: Code)
    requires Accounted(s) && Bounds(s) && Enabled(s, CallFails(tok, code))
    ensures Accounted(Apply(s, CallFails(tok, code)))
  {
    CallerDelivers(s, Apply(s, CallFails(tok, code)), Delivery(tok, code, []), true);
  }

  lemma EnsureAccounts(s: Sys, tok: Token)
    requires Accounted(s) && Bounds(s) && Enabled(s, ConnectEnsures(tok))
    ensures Accounted(Apply(s, ConnectEnsures(tok)))
  {
    var s' := Apply(s, ConnectEnsures(tok));
    if s.ioStarted || !s.impl.stopped {
      SameKeeps(s, s');
    } else {
      CallerDelivers(s, s', Delivery(tok, UNAVAILABLE, []), false);
    }
  }

  lemma Arrives(s: Sys, s': Sys, tok: Token, c: Caller)
    requires Accounted(s) && tok !in s.issued && s' == s.(issued := s.issued + {tok}, callers := s.callers[tok := c])
    ensures Accounted(s')
  {
    forall t, p ensures In(s', t, p) <==> if t == tok then p == AtCaller else In(s, t, p) {
      if t == tok { assert !In(s, t, p); }
    }
    ArriveKeeps(s, s', tok, AtCaller);
  }

  lemma ArrivesDelivered(s: Sys, s': Sys, d: Delivery)
    requires Accounted(s) && d.tok !in s.issued
    requires s' == s.(issued := s.issued + {d.tok}, impl := s.impl.(delivered := s.impl.delivered + [d]))
    ensures Accounted(s')
  {
    var dst := Delivered(|s.impl.delivered|);
    forall t, p ensures In(s', t, p) <==> if t == d.tok then p == dst else In(s, t, p) {
      if t == d.tok { assert !In(s, t, p); }
    }
    ArriveKeeps(s, s', d.tok, dst);
  }

  lemma StartAccounts(s: Sys, l: Label)
    requires Accounted(s) && Bounds(s) && Enabled(s, l) && (l.CallStart? || l.ConnectStart?)
    ensures Accounted(Apply(s, l))
  {
    if l.ConnectStart? && s.impl.stopped {
      ArrivesDelivered(s, Apply(s, l), Delivery(l.tok, UNAVAILABLE, []));
    } else {
      Arrives(s, Apply(s, l), l.tok, if l.CallStart? then Calling(l.methodId, l.request) else Entered);
    }
  }

  // The next task's callback leaves the strand's queue.
  lemma TaskTokenMoves(s: Sys, tok: Token)
    requires Accounted(s) && s.ran < |s.posted| && TaskHas(s.posted[s.ran], tok)
    ensures In(s, tok, Posted(s.ran))
    ensures forall t, p :: In(s, t, p) && t == tok ==> p == Posted(s.ran)
  {
    assert In(s, tok, Posted(s.ran));
  }

  // A task's callback is delivered at once.
  lemma TaskDelivers(s: Sys, s': Sys, d: Delivery, mayQueue: bool)
    requires Accounted(s) && Bounds(s) && s.ran < |s.posted| && TaskHas(s.posted[s.ran], d.tok)
    requires s' == s.(ran := s.ran + 1, impl := Deliver(s.impl, [d], mayQueue))
    ensures Accounted(s')
  {
    TaskTokenMoves(s, d.tok);
    forall t, p | !IsEnd(p) ensures In(s', t, p) <==> In(s, t, p) && t != d.tok {
      if t == d.tok { assert In(s, t, p) ==> p == Posted(s.ran); }
    }
    DeliverOne(s, s', d, Posted(s.ran), mayQueue);
  }

  lemma TaskWaits(s: Sys, s': Sys, tok: Token)
    requires Accounted(s) && Bounds(s) && s.ran < |s.posted| && TaskHas(s.posted[s.ran], tok)
    requires s' == s.(ran := s.ran + 1,
        impl := s.impl.(waiters := s.impl.waiters + [tok], state := s'.impl.state, coros := s'.impl.coros))
    ensures Accounted(s')
  {
    TaskTokenMoves(s, tok);
    var dst := Waiting(|s.impl.waiters|);
    forall t, p ensures In(s', t, p) <==> if t == tok then p == dst else In(s, t, p) {
      if t == tok { assert In(s, t, p) ==> p == Posted(s.ran); }
    }
    MoveKeeps(s, s', tok, Posted(s.ran), dst);
  }

  lemma ConnectTaskAccounts(s: Sys, order: seq<u32>)
    requires Accounted(s) && Bounds(s) && Enabled(s, RunTask(order)) && s.posted[s.ran].ConnectT?
    ensures Accounted(Apply(s, RunTask(order)))
  {
    var s', tok := Apply(s, RunTask(order)), s.posted[s.ran].tok;
    if s.impl.state == Closed || s.impl.stopped || s.impl.state == Connected {
      var code := if s.impl.state == Closed || s.impl.stopped then UNAVAILABLE else OK;
      TaskDelivers(s, s', Delivery(tok, code, []), false);
    } else {
      TaskWaits(s, s', tok);
    }
  }

  lemma CallTaskAccounts(s: Sys, order: seq<u32>)
    requires Accounted(s) && Bounds(s) && Enabled(s, RunTask(order)) && s.posted[s.ran].CallT?
    ensures Accounted(Apply(s, RunTask(order)))
  {
    var s', tok := Apply(s, RunTask(order)), s.posted[s.ran].tok;
    if s.impl.stopped {
      TaskDelivers(s, s', Delivery(tok, CANCELLED, []), true);
    } else {
      TaskTokenMoves(s, tok);
      var dst := if s.impl.nextCallId in s.impl.pending then Dropped else Pending(s.impl.nextCallId);
      forall t, p ensures In(s', t, p) <==> if t == tok then p == dst else In(s, t, p) {
        if t == tok { assert In(s, t, p) ==> p == Posted(s.ran); }
      }
      MoveKeeps(s, s', tok, Posted(s.ran), dst);
    }
  }

  // The places of the pending calls, in iteration order, and of the waiters.
  function PendingPlaces(order: seq<u32>): seq<Place> { seq(|order|, j requires 0 <= j < |order| => Pending(order[j])) }

  function WaiterPlaces(n: nat): seq<Place> { seq(n, j requires 0 <= j < n => Waiting(j)) }

  lemma FatesCoverPending(s: Sys, order: seq<u32>, code: Code)
    requires Lists(order, s.impl.pending)
    ensures forall tok :: tok in Toks(Fates(order, s.impl.pending, code)) <==> exists id :: In(s, tok, Pending(id))
  {
    var toks := Toks(Fates(order, s.impl.pending, code));
    forall tok ensures tok in toks <==> exists id :: In(s, tok, Pending(id)) {
      if tok in toks {
        var j :| 0 <= j < |toks| && toks[j] == tok;
        assert In(s, tok, Pending(order[j]));
      }
      if id :| In(s, tok, Pending(id)) {
        var j :| 0 <= j < |order| && order[j] == id;
        assert toks[j] == tok;
      }
    }
  }

  // Every pending call fails.
  lemma FailAllAccounts(s: Sys, s': Sys, order: seq<u32>, code: Code, mayQueue: bool)
    requires Accounted(s) && Bounds(s) && Lists(order, s.impl.pending)
    requires s' == s.(impl := s'.impl)
    requires s'.impl == FailAll(s.impl, order, code, mayQueue).(
      state := s'.impl.state, readers := s'.impl.readers, writer := s'.impl.writer)
    ensures Accounted(s')
  {
    var ds := Fates(order, s.impl.pending, code);
    FatesCoverPending(s, order, code);
    forall tok, p | !IsEnd(p) ensures In(s', tok, p) <==> In(s, tok, p) && tok !in Toks(ds) {
      if In(s, tok, p) && tok in Toks(ds) {
        var id :| In(s, tok, Pending(id));
        assert p == Pending(id);
      }
      if p.Pending? && In(s, tok, p) { assert exists id :: In(s, tok, Pending(id)); }
    }
    DeliverKeeps(s, s', ds, PendingPlaces(order), mayQueue);
  }

  // Every waiter is told.
  lemma WaitersAccounts(s: Sys, s': Sys, code: Code, mayQueue: bool)
    requires Accounted(s) && Bounds(s)
    requires s' == s.(impl := s'.impl)
    requires s'.impl == Deliver(s.impl.(waiters := []), WaiterFates(s.impl.waiters, code), mayQueue).(
      state := s'.impl.state, coros := s'.impl.coros, readers := s'.impl.readers,
      readersStarted := s'.impl.readersStarted, connected := s'.impl.connected)
    ensures Accounted(s')
  {
    var ds, src := WaiterFates(s.impl.waiters, code), WaiterPlaces(|s.impl.waiters|);
    forall tok ensures tok in Toks(ds) <==> exists i: nat :: In(s, tok, Waiting(i)) {
      if tok in Toks(ds) {
        var j :| 0 <= j < |ds| && Toks(ds)[j] == tok;
        assert In(s, tok, Waiting(j));
      }
      if i: nat :| In(s, tok, Waiting(i)) { assert Toks(ds)[i] == tok; }
    }
    forall tok, p | !IsEnd(p) ensures In(s', tok, p) <==> In(s, tok, p) && tok !in Toks(ds) {
      if In(s, tok, p) && tok in Toks(ds) {
        var i: nat :| In(s, tok, Waiting(i));
        assert p == Waiting(i);
      }
      if p.Waiting? && In(s, tok, p) { assert exists i: nat :: In(s, tok, Waiting(i)); }
    }
    DeliverKeeps(s, s', ds, src, mayQueue);
  }

  lemma ShutdownTaskAccounts(s: Sys, order: seq<u32>)
    requires Accounted(s) && Bounds(s) && Enabled(s, RunTask(order)) && s.posted[s.ran].ShutdownT?
    ensures Accounted(Apply(s, RunTask(order)))
  {
    var s0 := s.(ran := s.ran + 1);
    SameKeeps(s, s0);
    var s1 := s0.(impl := FailAll(s.impl.(state := Closed), order, CANCELLED, false));
    FailAllAccounts(s0, s1, order, CANCELLED, false);
    WaitersAccounts(s1, Apply(s, RunTask(order)), CANCELLED, false);
  }

  lemma TaskAccounts(s: Sys, order: seq<u32>)
    requires Accounted(s) && Bounds(s) && Enabled(s, RunTask(order))
    ensures Accounted(Apply(s, RunTask(order)))
  {
    match s.posted[s.ran]
    case ConnectT(_) => ConnectTaskAccounts(s, order);
    case CallT(_, _, _) => CallTaskAccounts(s, order);
    case ShutdownT => ShutdownTaskAccounts(s, order);
  }

  lemma CoroAccounts(s: Sys, l: Label)
    requires Accounted(s) && Bounds(s) && Enabled(s, l) && (l.CoroFails? || l.CoroConnects?)
    ensures Accounted(Apply(s, l))
  {
    var code := if l.CoroFails? then l.code else if s.impl.state == Closed || s.impl.stopped then CANCELLED else OK;
    WaitersAccounts(s, Apply(s, l), code, true);
  }

  // The response's callback leaves `pending`.
  lemma ResponseAccounts(s: Sys, s': Sys, id: u32, d: Delivery)
    requires Accounted(s) && Bounds(s) && id in s.impl.pending && d.tok == s.impl.pending[id]
    requires s' == s.(impl := Deliver(s.impl.(pending := s.impl.pending - {id}), [d], true))
    ensures Accounted(s')
  {
    assert In(s, d.tok, Pending(id));
    forall t, p | !IsEnd(p) ensures In(s', t, p) <==> In(s, t, p) && t != d.tok {
      if t == d.tok { assert In(s, t, p) ==> p == Pending(id); }
    }
    DeliverOne(s, s', d, Pending(id), true);
  }

  lemma PushAccounts(s: Sys, s': Sys, c: Completion)
    requires Accounted(s) && Bounds(s) && c.PushNote? && s' == s.(impl := s.impl.(pushed := s.impl.pushed + [c]))
    ensures Accounted(s')
  {
    SameKeeps(s, s');
  }

  lemma ReadsAccounts(s: Sys, f: Frame, order: seq<u32>)
    requires Accounted(s) && Bounds(s) && Enabled(s, Reads(f, order))
    ensures Accounted(Apply(s, Reads(f, order)))
  {
    var s' := Apply(s, Reads(f, order));
    if f.hdr.ftype == PUSH {
      if s.impl.inline { SameKeeps(s, s'); } else { PushAccounts(s, s', PushNote(Note(f.hdr.methodId, f.payload))); }
    } else if f.hdr.ftype != RESPONSE {
      FailAllAccounts(s, s', order, INTERNAL, true);
    } else if f.hdr.callId in s.impl.pending {
      var payload := if f.hdr.status == OK then f.payload else [];
      ResponseAccounts(s, s', f.hdr.callId, Delivery(s.impl.pending[f.hdr.callId], f.hdr.status, payload));
    }
  }

  // RunCallbacks pops the oldest completion and runs it.
  lemma RunsOneAccounts(s: Sys)
    requires Accounted(s) && Bounds(s) && Enabled(s, RunsOne)
    ensures Accounted(Apply(s, RunsOne))
  {
    var s' := Apply(s, RunsOne);
    var k := s.impl.popped;
    if s.impl.pushed[k].Done? { TakenAccounts(s, s', s.impl.pushed[k].d); } else { SameKeeps(s, s'); }
  }

  lemma TakenAccounts(s: Sys, s': Sys, d: Delivery)
    requires Accounted(s) && Bounds(s) && s.impl.popped < |s.impl.pushed| && s.impl.pushed[s.impl.popped] == Done(d)
    requires s' == s.(impl := s.impl.(popped := s.impl.popped + 1, delivered := s.impl.delivered + [d]))
    ensures Accounted(s')
  {
    var k, tok, dst := s.impl.popped, d.tok, Delivered(|s.impl.delivered|);
    assert In(s, tok, Queued(k));
    forall t, p ensures In(s', t, p) <==> if t == tok then p == dst else In(s, t, p) {
      if t == tok { assert In(s, t, p) ==> p == Queued(k); }
    }
    MoveKeeps(s, s', tok, Queued(k), dst);
  }

  // A set of callbacks is discarded.
  lemma DiscardKeeps(s: Sys, s': Sys, gone: set<Token>)
    requires Accounted(s) && s'.issued == s.issued && gone <= s.issued
    requires forall tok, p :: In(s', tok, p) <==> if tok in gone then p == Discarded else In(s, tok, p)
    ensures Accounted(s')
  {
    forall tok | tok in s'.issued ensures exists p :: In(s', tok, p) {
      var p :| In(s, tok, p);
      assert In(s', tok, if tok in gone then Discarded else p);
    }
  }

  // Shutdown frees what is still queued.
  lemma DrainAccounts(s: Sys)
    requires Accounted(s) && Bounds(s) && Enabled(s, ShutDrains)
    ensures Accounted(Apply(s, ShutDrains))
  {
    var s', gone := Apply(s, ShutDrains), QueuedTokens(s.impl);
    forall tok ensures tok in gone <==> exists i: nat :: In(s, tok, Queued(i)) {
      if tok in gone {
        var i :| s.impl.popped <= i < |s.impl.pushed| && s.impl.pushed[i].Done? && s.impl.pushed[i].d.tok == tok;
        assert In(s, tok, Queued(i));
      }
    }
    forall tok, p ensures In(s', tok, p) <==> if tok in gone then p == Discarded else In(s, tok, p) {
      DrainMoves(s, s', tok, p, gone);
    }
    DiscardKeeps(s, s', gone);
  }

  lemma DrainMoves(s: Sys, s': Sys, tok: Token, p: Place, gone: set<Token>)
    requires Accounted(s) && Bounds(s) && Enabled(s, ShutDrains) && s' == Apply(s, ShutDrains)
    requires gone == QueuedTokens(s.impl) && (tok in gone <==> exists i: nat :: In(s, tok, Queued(i)))
    ensures In(s', tok, p) <==> if tok in gone then p == Discarded else In(s, tok, p)
  {
    if i: nat :| In(s, tok, Queued(i)) { assert In(s, tok, p) ==> p == Queued(i); }
    if p.Queued? { assert In(s, tok, p) ==> tok in gone; }
  }

  // Shutdown of a channel whose io thread never started: waiters are cleared, pending calls failed.
  lemma ShutChecksAccounts(s: Sys, order: seq<u32>)
    requires Accounted(s) && Bounds(s) && Enabled(s, ShutChecks(order)) && (s.ioStarted || s.impl.waiters == [])
    ensures Accounted(Apply(s, ShutChecks(order)))
  {
    var s' := Apply(s, ShutChecks(order));
    if s.ioStarted {
      SameKeeps(s, s');
    } else {
      var s1 := s.(impl := FailAll(s.impl.(state := Closed), order, CANCELLED, false));
      FailAllAccounts(s, s1, order, CANCELLED, false);
      assert ToSet(s.impl.waiters) == {};
      SameKeeps(s1, s');
    }
  }

  lemma FailAccounts(s: Sys, l: Label)
    requires Accounted(s) && Bounds(s) && Enabled(s, l) && (l.ReadFails? || l.WriteFails?)
    ensures Accounted(Apply(s, l))
  {
    FailAllAccounts(s, Apply(s, l), l.order, l.code, true);
  }

  lemma QuietAccounts(s: Sys, l: Label)
    requires Accounted(s) && Bounds(s) && Enabled(s, l) && (l.Writes? || l.IoExits? || l.ShutStart? || l.ShutJoins?)
    ensures Accounted(Apply(s, l))
  {
    SameKeeps(s, Apply(s, l));
  }

  lemma StepAccounts(s: Sys, l: Label)
    requires Accounted(s) && Bounds(s) && Enabled(s, l) && (l.ShutChecks? ==> s.impl.waiters == [] || s.ioStarted)
    ensures Accounted(Apply(s, l))
  {
    match l
    case CallStart(_, _, _) => StartAccounts(s, l);
    case CallFails(tok, code) => CallFailsAccounts(s, tok, code);
    case CallPosts(_) => PostAccounts(s, l);
    case ConnectStart(_) => StartAccounts(s, l);
    case ConnectEnsures(tok) => EnsureAccounts(s, tok);
    case ConnectPosts(_) => PostAccounts(s, l);
    case RunTask(order) => TaskAccounts(s, order);
    case CoroFails(_) => CoroAccounts(s, l);
    case CoroConnects => CoroAccounts(s, l);
    case Reads(f, order) => ReadsAccounts(s, f, order);
    case ReadFails(_, _) => FailAccounts(s, l);
    case Writes(_) => QuietAccounts(s, l);
    case WriteFails(_, _, _) => FailAccounts(s, l);
    case RunsOne => RunsOneAccounts(s);
    case IoExits => QuietAccounts(s, l);
    case ShutStart => QuietAccounts(s, l);
    case ShutChecks(order) => ShutChecksAccounts(s, order);
    case ShutJoins => QuietAccounts(s, l);
    case ShutDrains => DrainAccounts(s);
  }

  /************ Connecting, stopping and shutting down ************/

  // At most one ConnectCoro, at most one ReadLoop ever, and waiters only while connecting.
  ghost predicate ConnOk(i: Impl) {
    && (i.state.Idle? ==> i.coros == 0 && i.waiters == [] && i.readersStarted == 0)
    && (i.state.Connecting? ==> i.coros == 1 && i.readersStarted == 0)
    && (i.state.Connected? ==> i.coros == 0 && i.waiters == [] && i.readersStarted == 1)
    && (i.state.Closed? ==> i.coros <= 1 && i.waiters == [] && i.readersStarted <= 1)
    && i.readers <= i.readersStarted
    && (i.connected <==> i.readersStarted == 1)
  }

  ghost predicate NoShutdownLeft(s: Sys) { forall i :: s.ran <= i < |s.posted| ==> !s.posted[i].ShutdownT? }

  ghost predicate StopOk(s: Sys) {
    && (s.impl.stopped <==> !s.shutdown.NotCalled?)
    && (s.impl.state.Closed? ==> s.impl.stopped && s.impl.pending == map[])
    && (!s.workGuard ==> s.impl.stopped && (s.impl.state.Closed? || !NoShutdownLeft(s)))
    && (s.workGuard ==> NoShutdownLeft(s))
    && (s.shutdown.Joining? ==> !s.workGuard)
    && (s.ioExited ==> s.ioStarted && s.impl.state.Closed?)
    && (s.shutdown.Draining? || s.shutdown.Returned? ==> s.impl.state.Closed? && (s.ioExited || !s.ioStarted))
    && (forall tok :: tok in s.callers && s.callers[tok].Ensured? ==> s.ioStarted)
    && (!s.ioStarted ==> s.posted == [] && s.impl.pending == map[] && s.impl.coros == 0 && s.impl.readersStarted == 0
                         && s.impl.writer.pumps == [] && s.impl.waiters == [])
  }

  // What was handed in before Shutdown began has left its callers for good,
  ghost predicate BeforeOk(s: Sys) { s.before <= s.issued && s.before !! s.callers.Keys }

  // in the end the strand has run it, and the completion queue has let go of it.
  ghost predicate DrainOk(s: Sys) {
    && (s.ioExited || s.shutdown.Draining? || s.shutdown.Returned? ==>
          forall tok, i: nat :: tok in s.before ==> !In(s, tok, Posted(i)))
    && (s.shutdown.Returned? ==> forall tok, i: nat :: tok in s.before ==> !In(s, tok, Queued(i)))
  }

  // Inline dispatch never queues a completion, so none is ever discarded.
  ghost predicate InlineOk(s: Sys) { s.impl.inline ==> s.impl.pushed == [] && s.discarded == {} }

  ghost predicate Inv(s: Sys) {
    Accounted(s) && Control(s) && BeforeOk(s) && DrainOk(s) && InlineOk(s) && W.Inv(s.impl.writer)
  }

  ghost predicate Control(s: Sys) { Bounds(s) && ConnOk(s.impl) && StopOk(s) }

  // Callers touch neither the connection nor the strand's own state.
  lemma CallerControl(s: Sys, l: Label)
    requires Control(s) && Enabled(s, l) && (l.CallStart? || l.CallFails? || l.ConnectStart? || l.ConnectEnsures?)
    ensures Control(Apply(s, l)) && Apply(s, l).impl.writer == s.impl.writer
  {
    ShutdownStays(s, Apply(s, l));
  }

  lemma PostControl(s: Sys, l: Label)
    requires Control(s) && Enabled(s, l) && (l.CallPosts? || l.ConnectPosts?)
    ensures Control(Apply(s, l)) && Apply(s, l).impl.writer == s.impl.writer
  {
    ShutdownStays(s, Apply(s, l));
  }

  // A posted shutdown task stays posted until it is run.
  lemma ShutdownStays(s: Sys, s': Sys)
    requires s'.ran == s.ran && s.posted <= s'.posted
    requires forall i :: |s.posted| <= i < |s'.posted| ==> !s'.posted[i].ShutdownT?
    ensures NoShutdownLeft(s) <==> NoShutdownLeft(s')
  {
    if !NoShutdownLeft(s) {
      var i :| s.ran <= i < |s.posted| && s.posted[i].ShutdownT?;
      assert s'.posted[i].ShutdownT?;
    }
  }

  lemma ShutdownStillLeft(s: Sys, s': Sys)
    requires s'.posted == s.posted && s'.ran == s.ran + 1 && s.ran < |s.posted| && !s.posted[s.ran].ShutdownT?
    ensures NoShutdownLeft(s) <==> NoShutdownLeft(s')
  {
    if !NoShutdownLeft(s) {
      var i :| s.ran <= i < |s.posted| && s.posted[i].ShutdownT?;
      assert i != s.ran && s'.posted[i].ShutdownT?;
    }
  }

  lemma ConnectTaskControl(s: Sys, order: seq<u32>)
    requires Control(s) && Enabled(s, RunTask(order)) && s.posted[s.ran].ConnectT?
    ensures Control(Apply(s, RunTask(order))) && Apply(s, RunTask(order)).impl.writer == s.impl.writer
  {
    ShutdownStillLeft(s, Apply(s, RunTask(order)));
  }

  lemma CallTaskControl(s: Sys, order: seq<u32>)
    requires Control(s) && Enabled(s, RunTask(order)) && s.posted[s.ran].CallT?
    ensures Control(Apply(s, RunTask(order)))
  {
    ShutdownStillLeft(s, Apply(s, RunTask(order)));
  }

  lemma ShutdownTaskControl(s: Sys, order: seq<u32>)
    requires Control(s) && Enabled(s, RunTask(order)) && s.posted[s.ran].ShutdownT?
    ensures Control(Apply(s, RunTask(order))) && Apply(s, RunTask(order)).impl.writer == s.impl.writer
  {
    assert !NoShutdownLeft(s);
  }

  lemma CoroControl(s: Sys, l: Label)
    requires Control(s) && Enabled(s, l) && (l.CoroFails? || l.CoroConnects?)
    ensures Control(Apply(s, l)) && Apply(s, l).impl.writer == s.impl.writer
  {
    ShutdownStays(s, Apply(s, l));
  }

  // Calls complete, the reader or the pump moves; the connection and the strand's queue stay.
  lemma TrafficControl(s: Sys, s': Sys)
    requires Control(s) && Running(s) && s' == s.(impl := s'.impl)
    requires s'.impl == s.impl.(pending := s'.impl.pending, readers := s'.impl.readers, writer := s'.impl.writer,
                                pushed := s'.impl.pushed, delivered := s'.impl.delivered, heard := s'.impl.heard)
    requires s'.impl.readers <= s.impl.readers && |s.impl.pushed| <= |s'.impl.pushed|
    requires s.impl.pending == map[] ==> s'.impl.pending == map[]
    ensures Control(s')
  {
    ShutdownStays(s, s');
  }

  lemma ReadsControl(s: Sys, f: Frame, order: seq<u32>)
    requires Control(s) && Enabled(s, Reads(f, order))
    ensures Control(Apply(s, Reads(f, order))) && Apply(s, Reads(f, order)).impl.writer == s.impl.writer
  {
    TrafficControl(s, Apply(s, Reads(f, order)));
  }

  lemma FailControl(s: Sys, l: Label)
    requires Control(s) && Enabled(s, l) && (l.ReadFails? || l.Writes? || l.WriteFails?)
    ensures Control(Apply(s, l)) && (l.ReadFails? ==> Apply(s, l).impl.writer == s.impl.writer)
  {
    TrafficControl(s, Apply(s, l));
  }

  lemma RunsOneControl(s: Sys)
    requires Control(s) && Enabled(s, RunsOne)
    ensures Control(Apply(s, RunsOne)) && Apply(s, RunsOne).impl.writer == s.impl.writer
  {
    TurnShape(s);
    TurnControl(s, Apply(s, RunsOne));
  }

  // A completion leaves the queue, and nothing but the logs is touched.
  ghost predicate Turned(s: Sys, s': Sys) {
    && s' == s.(impl := s'.impl) && s'.impl.popped <= |s.impl.pushed|
    && s'.impl == s.impl.(popped := s'.impl.popped, delivered := s'.impl.delivered, heard := s'.impl.heard)
  }

  lemma TurnShape(s: Sys)
    requires Enabled(s, RunsOne)
    ensures Turned(s, Apply(s, RunsOne))
  {}

  lemma TurnControl(s: Sys, s': Sys)
    requires Control(s) && Turned(s, s')
    ensures Control(s') && s'.impl.writer == s.impl.writer
  {
    ShutdownStays(s, s');
  }

  lemma OtherControl(s: Sys, l: Label)
    requires Control(s) && Enabled(s, l) && (l.RunsOne? || l.IoExits? || l.ShutStart? || l.ShutJoins? || l.ShutDrains?)
    ensures Control(Apply(s, l)) && Apply(s, l).impl.writer == s.impl.writer
  {
    if l.RunsOne? { RunsOneControl(s); } else { ShutdownStays(s, Apply(s, l)); }
  }

  lemma ShutChecksControl(s: Sys, order: seq<u32>)
    requires Control(s) && Enabled(s, ShutChecks(order))
    ensures Control(Apply(s, ShutChecks(order))) && Apply(s, ShutChecks(order)).impl.writer == s.impl.writer
  {
    var s' := Apply(s, ShutChecks(order));
    if s.ioStarted { assert s'.posted[|s.posted|].ShutdownT?; }
  }

  predicate OfCaller(l: Label) {
    l.CallStart? || l.CallFails? || l.CallPosts? || l.ConnectStart? || l.ConnectEnsures? || l.ConnectPosts?
  }

  predicate OfShutdown(l: Label) {
    l.RunsOne? || l.IoExits? || l.ShutStart? || l.ShutChecks? || l.ShutJoins? || l.ShutDrains?
  }

  // A step keeps the control state, and none but a task and the pumps touches the writer.
  ghost predicate Controlled(s: Sys, s': Sys, l: Label) {
    && Control(s')
    && (!l.RunTask? && !l.Writes? && !l.WriteFails? ==> s'.impl.writer == s.impl.writer)
  }

  lemma CallersControl(s: Sys, l: Label)
    requires Control(s) && Enabled(s, l) && OfCaller(l)
    ensures Controlled(s, Apply(s, l), l)
  {
    if l.CallPosts? || l.ConnectPosts? { PostControl(s, l); } else { CallerControl(s, l); }
  }

  lemma ShutdownControl(s: Sys, l: Label)
    requires Control(s) && Enabled(s, l) && OfShutdown(l)
    ensures Controlled(s, Apply(s, l), l)
  {
    if l.ShutChecks? { ShutChecksControl(s, l.order); } else { OtherControl(s, l); }
  }

  lemma StrandControl(s: Sys, l: Label)
    requires Control(s) && Enabled(s, l) && !OfCaller(l) && !OfShutdown(l)
    ensures Controlled(s, Apply(s, l), l)
  {
    match l
    case RunTask(order) => TaskControl(s, order);
    case CoroFails(_) => CoroControl(s, l);
    case CoroConnects => CoroControl(s, l);
    case Reads(f, order) => ReadsControl(s, f, order);
    case _ => FailControl(s, l);
  }

  lemma StepControl(s: Sys, l: Label)
    requires Control(s) && Enabled(s, l)
    ensures Control(Apply(s, l))
    ensures !l.RunTask? && !l.Writes? && !l.WriteFails? ==> Apply(s, l).impl.writer == s.impl.writer
  {
    if OfCaller(l) {
      CallersControl(s, l);
    } else if OfShutdown(l) {
      ShutdownControl(s, l);
    } else {
      StrandControl(s, l);
    }
  }

  lemma TaskControl(s: Sys, order: seq<u32>)
    requires Control(s) && Enabled(s, RunTask(order))
    ensures Control(Apply(s, RunTask(order)))
  {
    match s.posted[s.ran]
    case ConnectT(_) => ConnectTaskControl(s, order);
    case CallT(_, _, _) => CallTaskControl(s, order);
    case ShutdownT => ShutdownTaskControl(s, order);
  }

  lemma TaskInline(s: Sys, order: seq<u32>)
    requires InlineOk(s) && Enabled(s, RunTask(order))
    ensures InlineOk(Apply(s, RunTask(order))) && Apply(s, RunTask(order)).impl.inline == s.impl.inline
  {
    match s.posted[s.ran]
    case ConnectT(_) =>
    case CallT(_, _, _) =>
    case ShutdownT =>
  }

  lemma ReadsInline(s: Sys, f: Frame, order: seq<u32>)
    requires InlineOk(s) && Enabled(s, Reads(f, order))
    ensures InlineOk(Apply(s, Reads(f, order))) && Apply(s, Reads(f, order)).impl.inline == s.impl.inline
  {
    if f.hdr.ftype == PUSH {
    } else if f.hdr.ftype != RESPONSE {
    } else {
    }
  }

  lemma ShutInline(s: Sys, l: Label)
    requires Control(s) && InlineOk(s) && Enabled(s, l)
    requires l.ShutStart? || l.ShutChecks? || l.ShutJoins? || l.ShutDrains?
    ensures InlineOk(Apply(s, l)) && Apply(s, l).impl.inline == s.impl.inline
  {
    if l.ShutChecks? && !s.ioStarted { assert ToSet(s.impl.waiters) == {}; }
    if l.ShutDrains? && s.impl.pushed == [] { assert QueuedTokens(s.impl) == {}; }
  }

  lemma StepInline(s: Sys, l: Label)
    requires Control(s) && InlineOk(s) && Enabled(s, l)
    ensures InlineOk(Apply(s, l)) && Apply(s, l).impl.inline == s.impl.inline
  {
    match l
    case RunTask(order) => TaskInline(s, order);
    case Reads(f, order) => ReadsInline(s, f, order);
    case ShutStart => ShutInline(s, l);
    case ShutChecks(_) => ShutInline(s, l);
    case ShutJoins => ShutInline(s, l);
    case ShutDrains => ShutInline(s, l);
    case _ =>
  }

  lemma StepBefore(s: Sys, l: Label)
    requires Accounted(s) && Control(s) && BeforeOk(s) && Enabled(s, l)
    ensures BeforeOk(Apply(s, l))
  {
    if l.ShutStart? {
      forall tok | tok in s.callers ensures tok in s.issued { assert In(s, tok, AtCaller); }
    }
  }

  // New strand tasks come from callers only, and so do new completions once the io thread is gone.
  lemma TaskSources(s: Sys, l: Label, tok: Token, i: nat)
    requires Bounds(s) && Enabled(s, l) && tok !in s.callers
    ensures In(Apply(s, l), tok, Posted(i)) ==> In(s, tok, Posted(i))
  {}

  lemma CompletionSources(s: Sys, l: Label, tok: Token, i: nat)
    requires Bounds(s) && Enabled(s, l) && tok !in s.callers && !Running(s) && !l.ShutChecks?
    ensures In(Apply(s, l), tok, Queued(i)) ==> In(s, tok, Queued(i))
  {}

  lemma StepDrain(s: Sys, l: Label)
    requires Control(s) && BeforeOk(s) && DrainOk(s) && Enabled(s, l)
    ensures DrainOk(Apply(s, l))
  {
    if !l.ShutStart? {
      forall tok, i: nat | tok in s.before
        ensures In(Apply(s, l), tok, Posted(i)) ==> In(s, tok, Posted(i))
        ensures !Running(s) && !l.ShutChecks? && In(Apply(s, l), tok, Queued(i)) ==> In(s, tok, Queued(i))
      {
        TaskSources(s, l, tok, i);
        if !Running(s) && !l.ShutChecks? { CompletionSources(s, l, tok, i); }
      }
    }
  }

  lemma TaskWriter(i: Impl, t: Task, order: seq<u32>)
    requires W.Inv(i.writer) && forall j :: 0 <= j < |order| ==> order[j] in i.pending
    ensures W.Inv(TaskEffect(i, t, order).writer)
  {
    if t.CallT? && !i.stopped {
      var f := RequestFrame(i.nextCallId, t.methodId, t.request);
      W.StepKeeps(i.writer, W.Enqueue(f));
      assert TaskEffect(i, t, order).writer == W.Push(i.writer, f);
    } else {
      assert TaskEffect(i, t, order).writer == i.writer;
    }
  }

  lemma PumpWriter(s: Sys, l: Label)
    requires W.Inv(s.impl.writer) && Enabled(s, l) && (l.Writes? || l.WriteFails?)
    ensures W.Inv(Apply(s, l).impl.writer)
  {
    W.StepKeeps(s.impl.writer, if l.Writes? then l.l else W.Fail(l.i));
  }

  lemma StepWriter(s: Sys, l: Label)
    requires Control(s) && W.Inv(s.impl.writer) && Enabled(s, l)
    ensures W.Inv(Apply(s, l).impl.writer)
  {
    if l.RunTask? {
      TaskWriter(s.impl, s.posted[s.ran], l.order);
    } else if l.Writes? || l.WriteFails? {
      PumpWriter(s, l);
    } else {
      StepControl(s, l);
    }
  }

  lemma StepInv(s: Sys, l: Label)
    requires Inv(s) && Enabled(s, l)
    ensures Inv(Apply(s, l))
  {
    StepAccounts(s, l);
    StepControl(s, l);
    StepBefore(s, l);
    StepDrain(s, l);
    StepInline(s, l);
    StepWriter(s, l);
  }

  lemma {:induction false} RunInv(s: Sys, ls: seq<Label>)
    requires Inv(s) && Legal(s, ls)
    ensures Inv(Exec(s, ls)) && Exec(s, ls).impl.inline == s.impl.inline
    decreases |ls|
  {
    if ls != [] {
      StepInv(s, ls[0]);
      StepInline(s, ls[0]);
      RunInv(Apply(s, ls[0]), ls[1..]);
    }
  }

  lemma FromInit(inline: bool, ls: seq<Label>)
    requires Legal(Init(inline), ls)
    ensures Inv(Exec(Init(inline), ls)) && Exec(Init(inline), ls).impl.inline == inline
  {
    RunInv(Init(inline), ls);
  }

  /************ What holds in every run ************/

  /** Every callback handed to the channel is at all times in exactly one place, and is delivered at most once.  */
  lemma ExactlyOnePlace(inline: bool, ls: seq<Label>)
    requires Legal(Init(inline), ls)
    ensures var s := Exec(Init(inline), ls);
      && (forall tok :: tok in s.issued ==> exists p :: In(s, tok, p))
      && (forall tok, p, q :: In(s, tok, p) && In(s, tok, q) ==> p == q)
      && (forall i, j :: 0 <= i < j < |s.impl.delivered| ==> s.impl.delivered[i].tok != s.impl.delivered[j].tok)
  {
    FromInit(inline, ls);
    var s := Exec(Init(inline), ls);
    forall i, j | 0 <= i < j < |s.impl.delivered| ensures s.impl.delivered[i].tok != s.impl.delivered[j].tok {
      if s.impl.delivered[i].tok == s.impl.delivered[j].tok {
        var tok := s.impl.delivered[i].tok;
        assert In(s, tok, Delivered(i)) && In(s, tok, Delivered(j));
      }
    }
  }

  /** There is at most one ConnectCoro in flight and at most one ReadLoop ever, `connected` is set exactly
      by starting it, and connect waiters exist only while a ConnectCoro is on its way to tell them.  */
  lemma ConnectsOnce(inline: bool, ls: seq<Label>)
    requires Legal(Init(inline), ls)
    ensures var i := Exec(Init(inline), ls).impl;
      && i.coros <= 1 && i.readers <= i.readersStarted <= 1 && (i.connected <==> i.readersStarted == 1)
      && (i.waiters != [] ==> i.state.Connecting? && i.coros == 1)
      && (i.state.Connecting? ==> i.coros == 1)
  {
    FromInit(inline, ls);
  }

  ghost predicate StillClosed(i: Impl, i': Impl) {
    i'.state.Closed? && i'.readersStarted == i.readersStarted && i'.connected == i.connected
  }

  lemma ClosedTask(i: Impl, t: Task, order: seq<u32>)
    requires i.state.Closed? && forall j :: 0 <= j < |order| ==> order[j] in i.pending
    ensures StillClosed(i, TaskEffect(i, t, order))
  {}

  lemma ClosedReads(i: Impl, f: Frame, order: seq<u32>)
    requires i.state.Closed? && i.readers > 0 && forall j :: 0 <= j < |order| ==> order[j] in i.pending
    ensures StillClosed(i, ReadFrame(i, f, order))
  {}

  // No reader comes or goes, and no state but Closed is entered.
  ghost predicate SameLink(i: Impl, i': Impl) {
    && i'.readers == i.readers && i'.readersStarted == i.readersStarted && i'.connected == i.connected
    && (i'.state == i.state || i'.state.Closed?)
  }

  lemma CallerLink(s: Sys, l: Label)
    requires Enabled(s, l) && OfCaller(l)
    ensures SameLink(s.impl, Apply(s, l).impl)
  {}

  lemma RunsOneLink(s: Sys)
    requires Enabled(s, RunsOne)
    ensures SameLink(s.impl, Apply(s, RunsOne).impl)
  {}

  lemma ShutdownLink(s: Sys, l: Label)
    requires Enabled(s, l) && OfShutdown(l) && !l.RunsOne?
    ensures SameLink(s.impl, Apply(s, l).impl)
  {}

  lemma LinkStays(s: Sys, l: Label)
    requires Enabled(s, l) && (OfCaller(l) || OfShutdown(l))
    ensures SameLink(s.impl, Apply(s, l).impl)
  {
    if OfCaller(l) { CallerLink(s, l); } else if l.RunsOne? { RunsOneLink(s); } else { ShutdownLink(s, l); }
  }

  lemma ClosedStep(s: Sys, l: Label)
    requires Enabled(s, l) && s.impl.state.Closed?
    ensures StillClosed(s.impl, Apply(s, l).impl)
  {
    if OfCaller(l) || OfShutdown(l) {
      LinkStays(s, l);
    } else {
      match l
      case RunTask(order) => ClosedTask(s.impl, s.posted[s.ran], order);
      case Reads(f, order) => ClosedReads(s.impl, f, order);
      case _ =>
    }
  }

  /** Closed is absorbing: no connection is made and no reader started after it.  */
  lemma {:induction false} ClosedForever(s: Sys, ls: seq<Label>)
    requires Legal(s, ls) && s.impl.state.Closed?
    ensures StillClosed(s.impl, Exec(s, ls).impl)
    decreases |ls|
  {
    if ls != [] {
      ClosedStep(s, ls[0]);
      ClosedForever(Apply(s, ls[0]), ls[1..]);
    }
  }

  /** When Shutdown has returned, every callback that had left its caller when Shutdown began has been
      run exactly once, or (Manual dispatch only) was freed unrun, or had its id taken.  */
  lemma ShutdownSettles(inline: bool, ls: seq<Label>, tok: Token)
    requires Legal(Init(inline), ls) && Exec(Init(inline), ls).shutdown.Returned?
    requires tok in Exec(Init(inline), ls).before
    ensures var s := Exec(Init(inline), ls);
      exists p :: In(s, tok, p) && (p.Delivered? || p.Dropped? || (p.Discarded? && !inline))
  {
    FromInit(inline, ls);
    var s := Exec(Init(inline), ls);
    var p :| In(s, tok, p);
    assert !p.Posted? && !p.Queued?;
  }

  /************ Call ids ************/

  ghost predicate IsRequest(f: Frame, id: u32) { f.hdr.ftype == REQUEST && f.hdr.callId == id }

  // The frames handed to the pump are requests with consecutive ids; an id repeats only after 2^32 of them.
  ghost predicate IdsOk(i: Impl) {
    && i.nextCallId == (1 + |i.writer.enqueued|) % TWO32
    && (forall k :: 0 <= k < |i.writer.enqueued| ==> IsRequest(i.writer.enqueued[k], (1 + k) % TWO32))
    && (|i.writer.enqueued| <= TWO32 ==> i.dropped == {} && IdsIssued(i.pending, |i.writer.enqueued|))
  }

  ghost predicate IdsIssued(m: map<u32, Token>, n: nat) {
    forall id :: id in m ==> 1 <= id <= n || (id == 0 && n == TWO32)
  }

  lemma CallTaskIds(i: Impl, tok: Token, m: u32, r: seq<byte>)
    requires IdsOk(i)
    ensures IdsOk(CallTask(i, tok, m, r))
  {
    if |i.writer.enqueued| < TWO32 { NewIdFree(i.pending, |i.writer.enqueued|, i.nextCallId, tok); }
  }

  lemma NewIdFree(m: map<u32, Token>, n: nat, id: u32, tok: Token)
    requires n < TWO32 && id == (1 + n) % TWO32 && IdsIssued(m, n)
    ensures id !in m && IdsIssued(m[id := tok], n + 1)
  {}

  ghost predicate SameIds(i: Impl, i': Impl) {
    && i'.nextCallId == i.nextCallId && i'.dropped == i.dropped
    && i'.writer.enqueued == i.writer.enqueued && forall id :: id in i'.pending ==> id in i.pending
  }

  lemma SameKeepsIds(i: Impl, i': Impl)
    requires IdsOk(i) && SameIds(i, i')
    ensures IdsOk(i')
  {}

  lemma TaskIds(i: Impl, t: Task, order: seq<u32>)
    requires IdsOk(i) && forall j :: 0 <= j < |order| ==> order[j] in i.pending
    ensures IdsOk(TaskEffect(i, t, order))
  {
    match t
    case ConnectT(_) => SameKeepsIds(i, TaskEffect(i, t, order));
    case CallT(tok, m, r) => CallTaskIds(i, tok, m, r);
    case ShutdownT => SameKeepsIds(i, TaskEffect(i, t, order));
  }

  lemma ReadsIds(i: Impl, f: Frame, order: seq<u32>)
    requires i.readers > 0 && forall j :: 0 <= j < |order| ==> order[j] in i.pending
    ensures SameIds(i, ReadFrame(i, f, order))
  {}

  lemma CallersIds(s: Sys, l: Label)
    requires Enabled(s, l)
    requires l.CallStart? || l.CallFails? || l.CallPosts? || l.ConnectStart? || l.ConnectEnsures? || l.ConnectPosts?
    ensures SameIds(s.impl, Apply(s, l).impl)
  {}

  lemma CoroIds(i: Impl, code: Code)
    requires i.coros > 0
    ensures SameIds(i, ConnectFails(i, code)) && SameIds(i, ConnectSucceeds(i))
  {}

  lemma RunsOneIds(s: Sys)
    requires Enabled(s, RunsOne)
    ensures SameIds(s.impl, Apply(s, RunsOne).impl)
  {}

  lemma ShutIds(s: Sys, l: Label)
    requires Enabled(s, l) && (l.IoExits? || l.ShutStart? || l.ShutChecks? || l.ShutJoins? || l.ShutDrains?)
    ensures SameIds(s.impl, Apply(s, l).impl)
  {}

  lemma StrandIds(s: Sys, l: Label)
    requires Enabled(s, l) && !l.RunTask? && !OfCaller(l) && !OfShutdown(l)
    ensures SameIds(s.impl, Apply(s, l).impl)
  {
    match l
    case CoroFails(code) => CoroIds(s.impl, code);
    case CoroConnects => CoroIds(s.impl, OK);
    case Reads(f, order) => ReadsIds(s.impl, f, order);
    case _ =>
  }

  // No step but a call's task touches the ids.
  lemma OtherIds(s: Sys, l: Label)
    requires Enabled(s, l) && !l.RunTask?
    ensures SameIds(s.impl, Apply(s, l).impl)
  {
    if OfCaller(l) {
      CallersIds(s, l);
    } else if l.RunsOne? {
      RunsOneIds(s);
    } else if OfShutdown(l) {
      ShutIds(s, l);
    } else {
      StrandIds(s, l);
    }
  }

  lemma StepIds(s: Sys, l: Label)
    requires IdsOk(s.impl) && Enabled(s, l)
    ensures IdsOk(Apply(s, l).impl)
  {
    if l.RunTask? {
      TaskIds(s.impl, s.posted[s.ran], l.order);
    } else {
      OtherIds(s, l);
      SameKeepsIds(s.impl, Apply(s, l).impl);
    }
  }

  lemma {:induction false} RunIds(s: Sys, ls: seq<Label>)
    requires IdsOk(s.impl) && Legal(s, ls)
    ensures IdsOk(Exec(s, ls).impl)
    decreases |ls|
  {
    if ls != [] {
      StepIds(s, ls[0]);
      RunIds(Apply(s, ls[0]), ls[1..]);
    }
  }

  /** Under Inline dispatch, with at most 2^32 calls registered, everything handed in before Shutdown began
      has been invoked exactly once when it returns.  */
  lemma InlineShutdownInvokesAll(ls: seq<Label>, tok: Token)
    requires Legal(Init(true), ls) && Exec(Init(true), ls).shutdown.Returned?
    requires |Exec(Init(true), ls).impl.writer.enqueued| <= TWO32 && tok in Exec(Init(true), ls).before
    ensures var ds := Exec(Init(true), ls).impl.delivered;
      exists i :: 0 <= i < |ds| && ds[i].tok == tok && forall j :: 0 <= j < |ds| && ds[j].tok == tok ==> j == i
  {
    RunIds(Init(true), ls);
    ShutdownSettles(true, ls, tok);
    ExactlyOnePlace(true, ls);
    var s := Exec(Init(true), ls);
    var p :| In(s, tok, p) && (p.Delivered? || p.Dropped?);
    assert s.impl.delivered[p.i].tok == tok;
  }

  /** On the wire: requests with consecutive ids, whole and in order until a write fails.  */
  lemma RequestsNeverInterleave(inline: bool, ls: seq<Label>)
    requires Legal(Init(inline), ls)
    ensures var w := Exec(Init(inline), ls).impl.writer;
      && |w.pumps| <= 1 && (w.queue != [] ==> w.active && |w.pumps| == 1)
      && (forall k :: 0 <= k < |w.enqueued| ==> IsRequest(w.enqueued[k], (1 + k) % TWO32))
      && (!w.failed ==> w.enqueued == w.written + W.InFlight(w) + w.queue && w.wire <= StreamBytes(w.enqueued))
  {
    FromInit(inline, ls);
    RunIds(Init(inline), ls);
    var w := Exec(Init(inline), ls).impl.writer;
    if !w.failed { W.WireIsPrefix(w); }
  }

  /************ What callbacks are told ************/

  // d was delivered, or queued for delivery, by the step from i to i'.
  ghost predicate Told(i: Impl, i': Impl, d: Delivery) {
    || (exists k :: |i.delivered| <= k < |i'.delivered| && i'.delivered[k] == d)
    || (exists k :: |i.pushed| <= k < |i'.pushed| && i'.pushed[k] == Done(d))
  }

  lemma DeliverTells(i: Impl, i': Impl, ds: seq<Delivery>, mayQueue: bool, j: nat)
    requires j < |ds| && i'.delivered == Deliver(i, ds, mayQueue).delivered
    requires i'.pushed == Deliver(i, ds, mayQueue).pushed
    ensures Told(i, i', ds[j])
  {
    if mayQueue && !i.inline {
      assert i'.pushed[|i.pushed| + j] == Done(ds[j]);
    } else {
      assert i'.delivered[|i.delivered| + j] == ds[j];
    }
  }

  lemma FailAllTells(i: Impl, i': Impl, order: seq<u32>, code: Code, mayQueue: bool, id: u32)
    requires Lists(order, i.pending) && id in i.pending
    requires var r := FailAll(i, order, code, mayQueue); i'.delivered == r.delivered && i'.pushed == r.pushed
    ensures Told(i, i', Delivery(i.pending[id], code, []))
  {
    var j :| 0 <= j < |order| && order[j] == id;
    DeliverTells(i, i', Fates(order, i.pending, code), mayQueue, j);
  }

  // The delivery a response frame makes.
  function FromFrame(tok: Token, f: Frame): Delivery {
    Delivery(tok, f.hdr.status, if f.hdr.status == OK then f.payload else [])
  }

  // tok is told what the response to id that step l read says, or a failure.
  ghost predicate Settled(i: Impl, i': Impl, l: Label, id: u32, tok: Token) {
    exists d :: Told(i, i', d) && d.tok == tok
      && if l.Reads? && l.frame.hdr.ftype == RESPONSE then l.frame.hdr.callId == id && d == FromFrame(tok, l.frame)
         else d.code != OK && d.payload == []
  }

  lemma ReadSettles(s: Sys, f: Frame, order: seq<u32>, id: u32)
    requires Enabled(s, Reads(f, order)) && id in s.impl.pending && id !in Apply(s, Reads(f, order)).impl.pending
    ensures Settled(s.impl, Apply(s, Reads(f, order)).impl, Reads(f, order), id, s.impl.pending[id])
  {
    var i, i' := s.impl, Apply(s, Reads(f, order)).impl;
    if f.hdr.ftype == RESPONSE {
      DeliverTells(i, i', [FromFrame(i.pending[id], f)], true, 0);
      assert Told(i, i', FromFrame(i.pending[id], f));
    } else {
      FailAllTells(i, i', order, INTERNAL, true, id);
      assert Told(i, i', Delivery(i.pending[id], INTERNAL, []));
    }
  }

  lemma FailureSettles(s: Sys, l: Label, id: u32)
    requires Enabled(s, l) && (l.ReadFails? || l.WriteFails?) && id in s.impl.pending
    ensures Settled(s.impl, Apply(s, l).impl, l, id, s.impl.pending[id])
  {
    var i, i' := s.impl, Apply(s, l).impl;
    FailAllTells(i, i', l.order, l.code, true, id);
    assert Told(i, i', Delivery(i.pending[id], l.code, []));
  }

  lemma ShutdownTells(i: Impl, i': Impl, order: seq<u32>, id: u32)
    requires Lists(order, i.pending) && id in i.pending && i' == ShutdownTask(i, order)
    ensures Told(i, i', Delivery(i.pending[id], CANCELLED, []))
  {
    var j :| 0 <= j < |order| && order[j] == id;
    assert i'.delivered[|i.delivered| + j] == Delivery(i.pending[id], CANCELLED, []);
  }

  lemma TaskSettles(s: Sys, order: seq<u32>, id: u32)
    requires Enabled(s, RunTask(order)) && id in s.impl.pending && id !in Apply(s, RunTask(order)).impl.pending
    ensures Settled(s.impl, Apply(s, RunTask(order)).impl, RunTask(order), id, s.impl.pending[id])
  {
    var i, i' := s.impl, Apply(s, RunTask(order)).impl;
    assert s.posted[s.ran].ShutdownT?;
    ShutdownTells(i, i', order, id);
    assert Told(i, i', Delivery(i.pending[id], CANCELLED, []));
  }

  lemma OnlyThesePend(s: Sys, l: Label, id: u32)
    requires Control(s) && Enabled(s, l) && id in s.impl.pending
    requires !l.Reads? && !l.ReadFails? && !l.WriteFails? && !l.RunTask?
    ensures id in Apply(s, l).impl.pending
  {}

  /** A call leaves `pending` only by being told, with the status and payload of a response that carries its own
      id, or with a failure.  */
  lemma PendingEndsByItsOwnResponse(inline: bool, ls: seq<Label>, l: Label, id: u32)
    requires Legal(Init(inline), ls) && Enabled(Exec(Init(inline), ls), l)
    requires var s := Exec(Init(inline), ls); id in s.impl.pending && id !in Apply(s, l).impl.pending
    ensures var s := Exec(Init(inline), ls); Settled(s.impl, Apply(s, l).impl, l, id, s.impl.pending[id])
  {
    FromInit(inline, ls);
    var s := Exec(Init(inline), ls);
    if l.Reads? {
      ReadSettles(s, l.frame, l.order, id);
    } else if l.ReadFails? || l.WriteFails? {
      FailureSettles(s, l, id);
    } else if l.RunTask? {
      TaskSettles(s, l.order, id);
    } else {
      OnlyThesePend(s, l, id);
    }
  }

  // What was told stays told.
  lemma {:induction false} ToldForGood(s: Sys, ls: seq<Label>)
    requires Legal(s, ls)
    ensures s.impl.delivered <= Exec(s, ls).impl.delivered && s.impl.pushed <= Exec(s, ls).impl.pushed
    decreases |ls|
  {
    if ls != [] {
      ToldGrows(s, ls[0]);
      ToldForGood(Apply(s, ls[0]), ls[1..]);
    }
  }

  lemma ToldGrows(s: Sys, l: Label)
    requires Enabled(s, l)
    ensures s.impl.delivered <= Apply(s, l).impl.delivered && s.impl.pushed <= Apply(s, l).impl.pushed
  {
    match l
    case RunTask(order) => TaskTellsMore(s.impl, s.posted[s.ran], order);
    case Reads(f, order) => ReadsTellsMore(s.impl, f, order);
    case CoroFails(code) => CoroTellsMore(s.impl, code);
    case CoroConnects => CoroTellsMore(s.impl, OK);
    case ReadFails(code, order) => FailTellsMore(s, l);
    case WriteFails(_, code, order) => FailTellsMore(s, l);
    case ShutChecks(order) => ShutTellsMore(s, order);
    case _ =>
  }

  lemma FailTellsMore(s: Sys, l: Label)
    requires Enabled(s, l) && (l.ReadFails? || l.WriteFails?)
    ensures s.impl.delivered <= Apply(s, l).impl.delivered && s.impl.pushed <= Apply(s, l).impl.pushed
  {}

  lemma ShutTellsMore(s: Sys, order: seq<u32>)
    requires Enabled(s, ShutChecks(order))
    ensures s.impl.delivered <= Apply(s, ShutChecks(order)).impl.delivered
    ensures s.impl.pushed <= Apply(s, ShutChecks(order)).impl.pushed
  {}

  lemma CoroTellsMore(i: Impl, code: Code)
    requires i.coros > 0
    ensures i.delivered <= ConnectFails(i, code).delivered && i.pushed <= ConnectFails(i, code).pushed
    ensures i.delivered <= ConnectSucceeds(i).delivered && i.pushed <= ConnectSucceeds(i).pushed
  {}

  lemma TaskTellsMore(i: Impl, t: Task, order: seq<u32>)
    requires forall j :: 0 <= j < |order| ==> order[j] in i.pending
    ensures i.delivered <= TaskEffect(i, t, order).delivered && i.pushed <= TaskEffect(i, t, order).pushed
  {}

  lemma ReadsTellsMore(i: Impl, f: Frame, order: seq<u32>)
    requires i.readers > 0 && forall j :: 0 <= j < |order| ==> order[j] in i.pending
    ensures i.delivered <= ReadFrame(i, f, order).delivered && i.pushed <= ReadFrame(i, f, order).pushed
  {}

  // The k-th waiter is told, OK exactly when a ConnectCoro has just connected the channel.
  ghost predicate Answered(i: Impl, i': Impl, l: Label, k: nat)
    requires k < |i.waiters|
  {
    exists d :: Told(i, i', d) && d.tok == i.waiters[k] && (d.code == OK <==> l.CoroConnects? && i'.state.Connected?)
  }

  lemma WaiterStep(s: Sys, l: Label, k: nat)
    requires Control(s) && Enabled(s, l) && k < |s.impl.waiters| && k >= |Apply(s, l).impl.waiters|
    ensures Answered(s.impl, Apply(s, l).impl, l, k)
  {
    var i, i' := s.impl, Apply(s, l).impl;
    if l.CoroFails? || l.CoroConnects? {
      var code := if l.CoroFails? then l.code else if i.state == Closed || i.stopped then CANCELLED else OK;
      DeliverTells(i, i', WaiterFates(i.waiters, code), true, k);
      assert Told(i, i', Delivery(i.waiters[k], code, []));
    } else {
      WaitersLeftByTask(s, l, k);
      ShutdownTellsWaiter(i, i', l.order, k);
    }
  }

  /** In every run a connect waiter stops waiting only by being told, and hears OK exactly when a ConnectCoro has
      connected the channel.  */
  lemma WaitersHearTheVerdict(inline: bool, ls: seq<Label>, l: Label, k: nat)
    requires Legal(Init(inline), ls) && Enabled(Exec(Init(inline), ls), l)
    requires var s := Exec(Init(inline), ls); k < |s.impl.waiters| && k >= |Apply(s, l).impl.waiters|
    ensures var s := Exec(Init(inline), ls); Answered(s.impl, Apply(s, l).impl, l, k)
  {
    FromInit(inline, ls);
    WaiterStep(Exec(Init(inline), ls), l, k);
  }

  lemma WaitersLeftByTask(s: Sys, l: Label, k: nat)
    requires Control(s) && Enabled(s, l) && !l.CoroFails? && !l.CoroConnects? && k < |s.impl.waiters|
    requires k >= |Apply(s, l).impl.waiters|
    ensures l.RunTask? && s.posted[s.ran].ShutdownT?
  {}

  lemma ShutdownTellsWaiter(i: Impl, i': Impl, order: seq<u32>, k: nat)
    requires Lists(order, i.pending) && k < |i.waiters| && i' == ShutdownTask(i, order)
    ensures Told(i, i', Delivery(i.waiters[k], CANCELLED, []))
  {
    assert i'.delivered[|i.delivered| + |order| + k] == Delivery(i.waiters[k], CANCELLED, []);
  }

  /************ The reader's exit ************/

  // The reader exits.
  predicate EndsReader(l: Label) {
    l.ReadFails? || (l.Reads? && l.frame.hdr.ftype != PUSH && l.frame.hdr.ftype != RESPONSE)
  }

  predicate ReaderStays(ls: seq<Label>) { forall i :: 0 <= i < |ls| ==> !EndsReader(ls[i]) }

  // Calls reach the strand only on a channel that has connected.
  ghost predicate CallsConnected(s: Sys) {
    !s.impl.connected ==> s.impl.pending == map[] && forall i :: s.ran <= i < |s.posted| ==> !s.posted[i].CallT?
  }

  lemma TaskCallsConnected(s: Sys, order: seq<u32>)
    requires Control(s) && CallsConnected(s) && Enabled(s, RunTask(order))
    ensures CallsConnected(Apply(s, RunTask(order)))
  {
    match s.posted[s.ran]
    case ConnectT(_) =>
    case CallT(_, _, _) => assert s.impl.connected;
    case ShutdownT =>
  }

  // Nothing else adds a pending call, and a caller posts one only once connected.
  lemma OtherCallsConnected(s: Sys, s': Sys)
    requires CallsConnected(s) && (s.impl.connected ==> s'.impl.connected) && s'.ran == s.ran && s.posted <= s'.posted
    requires s.impl.pending == map[] ==> s'.impl.pending == map[]
    requires forall i :: |s.posted| <= i < |s'.posted| && s'.posted[i].CallT? ==> s'.impl.connected
    ensures CallsConnected(s')
  {}

  lemma CallerShape(s: Sys, l: Label)
    requires Enabled(s, l)
    requires l.CallStart? || l.CallFails? || l.CallPosts? || l.ConnectStart? || l.ConnectEnsures? || l.ConnectPosts?
    ensures CallsConnected(s) ==> CallsConnected(Apply(s, l))
  {
    if CallsConnected(s) { OtherCallsConnected(s, Apply(s, l)); }
  }

  lemma ShutShape(s: Sys, l: Label)
    requires Enabled(s, l)
    requires l.RunsOne? || l.IoExits? || l.ShutStart? || l.ShutChecks? || l.ShutJoins? || l.ShutDrains?
    ensures CallsConnected(s) ==> CallsConnected(Apply(s, l))
  {
    if CallsConnected(s) { OtherCallsConnected(s, Apply(s, l)); }
  }

  lemma TrafficShape(s: Sys, l: Label)
    requires Enabled(s, l) && (l.CoroFails? || l.CoroConnects? || l.ReadFails? || l.Writes? || l.WriteFails?)
    ensures CallsConnected(s) ==> CallsConnected(Apply(s, l))
  {
    if CallsConnected(s) { OtherCallsConnected(s, Apply(s, l)); }
  }

  lemma ReadsShape(s: Sys, f: Frame, order: seq<u32>)
    requires Enabled(s, Reads(f, order))
    ensures CallsConnected(s) ==> CallsConnected(Apply(s, Reads(f, order)))
  {
    if CallsConnected(s) { OtherCallsConnected(s, Apply(s, Reads(f, order))); }
  }

  lemma StepCallsConnected(s: Sys, l: Label)
    requires Control(s) && CallsConnected(s) && Enabled(s, l)
    ensures CallsConnected(Apply(s, l))
  {
    if l.RunTask? {
      TaskCallsConnected(s, l.order);
    } else if l.Reads? {
      ReadsShape(s, l.frame, l.order);
    } else if l.CoroFails? || l.CoroConnects? || l.ReadFails? || l.Writes? || l.WriteFails? {
      TrafficShape(s, l);
    } else if l.RunsOne? || l.IoExits? || l.ShutStart? || l.ShutChecks? || l.ShutJoins? || l.ShutDrains? {
      ShutShape(s, l);
    } else {
      CallerShape(s, l);
    }
  }

  // Before its exit the reader is there once started; after it, never again.
  ghost predicate ReaderOk(i: Impl, ended: bool) {
    if ended then i.readers == 0 && i.readersStarted == 1 else i.readers == i.readersStarted
  }

  lemma TaskReader(i: Impl, t: Task, order: seq<u32>, ended: bool)
    requires ReaderOk(i, ended) && forall j :: 0 <= j < |order| ==> order[j] in i.pending
    ensures ReaderOk(TaskEffect(i, t, order), ended)
  {}

  lemma CoroReader(s: Sys, l: Label, ended: bool)
    requires ConnOk(s.impl) && ReaderOk(s.impl, ended) && Enabled(s, l) && (l.CoroFails? || l.CoroConnects?)
    ensures ReaderOk(Apply(s, l).impl, ended)
  {}

  lemma ReadsReader(s: Sys, l: Label, ended: bool)
    requires ConnOk(s.impl) && ReaderOk(s.impl, ended) && Enabled(s, l) && (l.Reads? || l.ReadFails?)
    ensures ReaderOk(Apply(s, l).impl, ended || EndsReader(l))
  {}

  lemma StepReader(s: Sys, l: Label, ended: bool)
    requires ConnOk(s.impl) && ReaderOk(s.impl, ended) && Enabled(s, l)
    ensures ReaderOk(Apply(s, l).impl, ended || EndsReader(l))
  {
    if OfCaller(l) || OfShutdown(l) {
      LinkStays(s, l);
    } else {
      match l
      case RunTask(order) => TaskReader(s.impl, s.posted[s.ran], order, ended);
      case CoroFails(_) => CoroReader(s, l, ended);
      case CoroConnects => CoroReader(s, l, ended);
      case Reads(_, _) => ReadsReader(s, l, ended);
      case ReadFails(_, _) => ReadsReader(s, l, ended);
      case _ =>
    }
  }

  lemma {:induction false} RunReader(s: Sys, ls: seq<Label>, ended: bool)
    requires Control(s) && CallsConnected(s) && ReaderOk(s.impl, ended) && Legal(s, ls)
    ensures Control(Exec(s, ls)) && CallsConnected(Exec(s, ls)) && ReaderOk(Exec(s, ls).impl, ended || !ReaderStays(ls))
    decreases |ls|
  {
    if ls != [] {
      StepControl(s, ls[0]);
      StepCallsConnected(s, ls[0]);
      StepReader(s, ls[0], ended);
      RunReader(Apply(s, ls[0]), ls[1..], ended || EndsReader(ls[0]));
      ReaderStaysSplit(ls);
    }
  }

  lemma ReaderStaysSplit(ls: seq<Label>)
    requires ls != []
    ensures ReaderStays(ls) <==> !EndsReader(ls[0]) && ReaderStays(ls[1..])
  {
    if !EndsReader(ls[0]) && ReaderStays(ls[1..]) {
      forall i | 0 <= i < |ls| ensures !EndsReader(ls[i]) { assert i > 0 ==> ls[i] == ls[1..][i - 1]; }
    }
    if ReaderStays(ls) {
      forall i | 0 <= i < |ls[1..]| ensures !EndsReader(ls[1..][i]) { assert ls[1..][i] == ls[i + 1]; }
    }
  }

  /** In every run a pending call implies a channel that has connected, and a reader to complete the call exactly
      when no read has failed and no frame that is neither push nor response has been read.  */
  lemma PendingHasReaderIff(inline: bool, ls: seq<Label>)
    requires Legal(Init(inline), ls)
    ensures var i := Exec(Init(inline), ls).impl;
      i.pending != map[] ==> i.connected && i.readers <= 1 && (i.readers == 1 <==> ReaderStays(ls))
  {
    RunReader(Init(inline), ls, false);
  }

  // A call registered while no reader is left.
  ghost predicate Orphaned(s: Sys, id: u32, tok: Token) {
    s.impl.readers == 0 && s.impl.connected && id in s.impl.pending && s.impl.pending[id] == tok
  }

  // Nothing but a failing write or Shutdown's task completes an orphaned call.
  lemma OrphanStays(s: Sys, l: Label, id: u32, tok: Token)
    requires Inv(s) && Enabled(s, l) && Orphaned(s, id, tok)
    requires !l.WriteFails? && !(l.RunTask? && s.posted[s.ran].ShutdownT?)
    ensures Orphaned(Apply(s, l), id, tok)
  {
    match l
    case RunTask(order) =>
    case ShutChecks(_) =>
    case _ =>
  }

  // No write fails and Shutdown's task does not run.
  ghost predicate Unattended(s: Sys, ls: seq<Label>)
    requires Legal(s, ls)
    decreases |ls|
  {
    ls == [] || (!ls[0].WriteFails? && !(ls[0].RunTask? && s.posted[s.ran].ShutdownT?)
      && Unattended(Apply(s, ls[0]), ls[1..]))
  }

  /** So an orphaned call stays pending for as long as neither happens, whatever frames would arrive.  */
  lemma {:induction false} OrphanedForever(s: Sys, ls: seq<Label>, id: u32, tok: Token)
    requires Inv(s) && Legal(s, ls) && Unattended(s, ls) && Orphaned(s, id, tok)
    ensures Orphaned(Exec(s, ls), id, tok)
    decreases |ls|
  {
    if ls != [] {
      OrphanStays(s, ls[0], id, tok);
      StepInv(s, ls[0]);
      OrphanedForever(Apply(s, ls[0]), ls[1..], id, tok);
    }
  }

  lemma {:induction false} Snoc(s: Sys, ls: seq<Label>, l: Label)
    requires Legal(s, ls) && Enabled(Exec(s, ls), l)
    ensures Legal(s, ls + [l]) && Exec(s, ls + [l]) == Apply(Exec(s, ls), l)
    decreases |ls|
  {
    if ls == [] {
      assert [l][1..] == [];
    } else {
      Snoc(Apply(s, ls[0]), ls[1..], l);
      assert (ls + [l])[1..] == ls[1..] + [l];
    }
  }

  // A channel on its way to connect.
  lemma Connects(inline: bool) returns (ls: seq<Label>)
    ensures Legal(Init(inline), ls)
    ensures var s := Exec(Init(inline), ls);
      s == Init(inline).(ioStarted := true, posted := [ConnectT(0)], ran := 1, issued := {0},
                         impl := InitImpl(inline).(state := Connecting, coros := 1, waiters := [0]))
  {
    var ls1 := [ConnectStart(0)];
    assert Legal(Init(inline), []) && [] + ls1 == ls1;
    Snoc(Init(inline), [], ConnectStart(0));
    Snoc(Init(inline), ls1, ConnectEnsures(0));
    var ls2 := ls1 + [ConnectEnsures(0)];
    Snoc(Init(inline), ls2, ConnectPosts(0));
    var ls3 := ls2 + [ConnectPosts(0)];
    Snoc(Init(inline), ls3, RunTask([]));
    ls := ls3 + [RunTask([])];
  }

  // It connected, and its reader has gone.
  lemma ReaderGone(inline: bool) returns (ls: seq<Label>)
    ensures Legal(Init(inline), ls)
    ensures var s := Exec(Init(inline), ls);
      Running(s) && s.impl.connected && !s.impl.stopped && s.impl.readers == 0 && s.impl.pending == map[]
      && s.impl.nextCallId == 1 && s.ran == |s.posted| && s.issued == {0}
  {
    var ls1 := Connects(inline);
    Snoc(Init(inline), ls1, CoroConnects);
    var ls2 := ls1 + [CoroConnects];
    Snoc(Init(inline), ls2, ReadFails(UNAVAILABLE, []));
    ls := ls2 + [ReadFails(UNAVAILABLE, [])];
  }

  /** The no-orphan property of the Go channel fails here: a call can be registered, on a channel that is
      neither stopped nor closed, with no reader left to complete it.  */
  lemma ReaderExitOrphansCalls(inline: bool) returns (ls: seq<Label>)
    ensures Legal(Init(inline), ls) && Orphaned(Exec(Init(inline), ls), 1, 1) && !Exec(Init(inline), ls).impl.stopped
  {
    var ls0 := ReaderGone(inline);
    Snoc(Init(inline), ls0, CallStart(1, 7, []));
    var ls1 := ls0 + [CallStart(1, 7, [])];
    Snoc(Init(inline), ls1, CallPosts(1));
    var ls2 := ls1 + [CallPosts(1)];
    Snoc(Init(inline), ls2, RunTask([]));
    ls := ls2 + [RunTask([])];
  }
}
