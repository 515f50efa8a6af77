/** The write queue and its pump, as both the C++ client channel and the C++ server session have it:
    strand tasks append frames and start a pump coroutine when none is active; the pump writes frame
    after frame, suspended at each co_await while the bytes go out.  */
module WritePump {
  import opened Framing

  // A pump coroutine: spawned, or suspended in WriteFrame with `sent` bytes of the frame out.
  datatype Pump = Ready | Writing(frame: Frame, sent: nat)

  /** `queue` and `active` are the source's fields and `pumps` its coroutines.  `wire` is every byte
      written; `enqueued`, `written` and `failed` are history.  */
  datatype Writer = Writer(queue: seq<Frame>, active: bool, pumps: seq<Pump>, wire: seq<byte>,
                           enqueued: seq<Frame>, written: seq<Frame>, failed: bool)

  datatype Label =
    | Enqueue(frame: Frame)
    | Start(i: nat)               // a spawned pump runs up to its first co_await
    | Emit(i: nat, n: nat)        // the socket takes n more bytes of pump i's frame
    | Complete(i: nat)            // WriteFrame finished; the pump runs to its next co_await
    | Fail(i: nat)                // WriteFrame failed

  function Init(): Writer { Writer([], false, [], [], [], [], false) }

  predicate Enabled(w: Writer, l: Label) {
    match l
    case Enqueue(_) => true
    case Start(i) => i < |w.pumps| && w.pumps[i].Ready?
    case Emit(i, n) => i < |w.pumps| && w.pumps[i].Writing? && w.pumps[i].sent + n <= |FrameBytes(w.pumps[i].frame)|
    case Complete(i) => i < |w.pumps| && w.pumps[i].Writing? && w.pumps[i].sent == |FrameBytes(w.pumps[i].frame)|
    case Fail(i) => i < |w.pumps| && w.pumps[i].Writing?
  }

  function Push(w: Writer, f: Frame): Writer {
    var w1 := w.(queue := w.queue + [f], enqueued := w.enqueued + [f]);
    if w.active then w1 else w1.(active := true, pumps := w.pumps + [Ready])
  }

  function Without(ps: seq<Pump>, i: nat): seq<Pump>
    requires i < |ps|
  {
    ps[..i] + ps[i + 1..]
  }

  // The loop test of WritePump: take the front frame and suspend in its write, or end.
  function LoopTest(w: Writer, i: nat): Writer
    requires i < |w.pumps|
  {
    if w.queue == [] then w.(active := false, pumps := Without(w.pumps, i))
    else w.(queue := w.queue[1..], pumps := w.pumps[i := Writing(w.queue[0], 0)])
  }

  function Apply(w: Writer, l: Label): Writer
    requires Enabled(w, l)
  {
    match l
    case Enqueue(f) => Push(w, f)
    case Start(i) => LoopTest(w, i)
    case Emit(i, n) =>
      var p := w.pumps[i];
      w.(wire := w.wire + FrameBytes(p.frame)[p.sent..p.sent + n], pumps := w.pumps[i := p.(sent := p.sent + n)])
    case Complete(i) => LoopTest(w.(written := w.written + [w.pumps[i].frame]), i)
    case Fail(i) => w.(queue := [], active := false, pumps := Without(w.pumps, i), failed := true)
  }

  predicate Legal(w: Writer, ls: seq<Label>)
    decreases |ls|
  {
    ls == [] || (Enabled(w, ls[0]) && Legal(Apply(w, ls[0]), ls[1..]))
  }

  function Exec(w: Writer, ls: seq<Label>): Writer
    requires Legal(w, ls)
    decreases |ls|
  {
    if ls == [] then w else Exec(Apply(w, ls[0]), ls[1..])
  }

  function InFlight(w: Writer): seq<Frame> {
    if |w.pumps| == 1 && w.pumps[0].Writing? then [w.pumps[0].frame] else []
  }

  function SentPart(w: Writer): seq<byte> {
    if |w.pumps| == 1 && w.pumps[0].Writing? && w.pumps[0].sent <= |FrameBytes(w.pumps[0].frame)|
    then FrameBytes(w.pumps[0].frame)[..w.pumps[0].sent] else []
  }

  ghost predicate PumpOk(w: Writer) {
    && |w.pumps| <= 1
    && (w.active <==> |w.pumps| == 1)
    && (w.queue != [] ==> w.active)
    && (InFlight(w) != [] ==> w.pumps[0].sent <= |FrameBytes(w.pumps[0].frame)|)
  }

  ghost predicate OrderOk(w: Writer) {
    !w.failed ==> w.enqueued == w.written + InFlight(w) + w.queue
  }

  ghost predicate WireOk(w: Writer) {
    !w.failed ==> w.wire == StreamBytes(w.written) + SentPart(w)
  }

  ghost predicate Inv(w: Writer) { PumpOk(w) && OrderOk(w) && WireOk(w) }

  lemma StepKeeps(w: Writer, l: Label)
    requires Inv(w) && Enabled(w, l)
    ensures Inv(Apply(w, l))
  {
    match l
    case Enqueue(f) =>
    case Start(i) => assert w.pumps == [Ready];
    case Emit(i, n) => EmitKeeps(w, i, n);
    case Complete(i) => CompleteKeeps(w, i);
    case Fail(i) =>
  }

  lemma EmitKeeps(w: Writer, i: nat, n: nat)
    requires Inv(w) && Enabled(w, Emit(i, n))
    ensures Inv(Apply(w, Emit(i, n)))
  {
    TakeMore(FrameBytes(w.pumps[0].frame), w.pumps[0].sent, n, StreamBytes(w.written));
  }

  lemma TakeMore(b: seq<byte>, k: nat, n: nat, before: seq<byte>)
    requires k + n <= |b|
    ensures before + b[..k] + b[k..k + n] == before + b[..k + n]
  {
    assert b[..k] + b[k..k + n] == b[..k + n];
  }

  // The frame is out: from here the writer stands as after a frame written in full.
  lemma Written(w: Writer, w1: Writer)
    requires Inv(w) && Enabled(w, Complete(0)) && w1 == w.(written := w.written + [w.pumps[0].frame])
    ensures !w.failed ==> w1.enqueued == w1.written + w1.queue && w1.wire == StreamBytes(w1.written)
  {
    var f := w.pumps[0].frame;
    StreamAppend(w.written, f);
    assert FrameBytes(f)[..|FrameBytes(f)|] == FrameBytes(f);
  }

  lemma NextKeeps(w: Writer)
    requires |w.pumps| == 1 && w.active
    requires !w.failed ==> w.enqueued == w.written + w.queue && w.wire == StreamBytes(w.written)
    ensures Inv(LoopTest(w, 0))
  {
    var w' := LoopTest(w, 0);
    if w.queue != [] { assert w.queue == InFlight(w') + w'.queue; }
    assert w.written + w.queue == w'.written + InFlight(w') + w'.queue;
  }

  lemma CompleteKeeps(w: Writer, i: nat)
    requires Inv(w) && Enabled(w, Complete(i))
    ensures Inv(Apply(w, Complete(i)))
  {
    var w1 := w.(written := w.written + [w.pumps[0].frame]);
    Written(w, w1);
    NextKeeps(w1);
  }

  lemma {:induction false} RunKeeps(w: Writer, ls: seq<Label>)
    requires Inv(w) && Legal(w, ls)
    ensures Inv(Exec(w, ls))
    decreases |ls|
  {
    if ls != [] {
      StepKeeps(w, ls[0]);
      RunKeeps(Apply(w, ls[0]), ls[1..]);
    }
  }

  /** In every run there is at most one pump and frames wait only while it is active; until the first
      write failure the frames handed in are, in order, those written, the one being written and
      those queued, and the bytes on the wire are those frames back to back, never interleaved.  */
  lemma FramesNeverInterleave(ls: seq<Label>)
    requires Legal(Init(), ls)
    ensures var w := Exec(Init(), ls);
      && |w.pumps| <= 1 && (w.queue != [] ==> w.active && |w.pumps| == 1)
      && (!w.failed ==> w.enqueued == w.written + InFlight(w) + w.queue)
      && (!w.failed ==> w.wire == StreamBytes(w.written) + SentPart(w) && w.wire <= StreamBytes(w.enqueued))
  {
    RunKeeps(Init(), ls);
    var w := Exec(Init(), ls);
    if !w.failed { WireIsPrefix(w); }
  }

  lemma SentPartIsPrefix(w: Writer)
    requires PumpOk(w)
    ensures SentPart(w) <= StreamBytes(InFlight(w))
  {
    if InFlight(w) != [] {
      var f := w.pumps[0].frame;
      assert [f][1..] == [];
      assert StreamBytes([f]) == FrameBytes(f) + [];
    }
  }

  lemma WireIsPrefix(w: Writer)
    requires PumpOk(w) && OrderOk(w) && WireOk(w) && !w.failed
    ensures w.wire <= StreamBytes(w.enqueued)
  {
    var a, b, c := StreamBytes(w.written), StreamBytes(InFlight(w)), StreamBytes(w.queue);
    assert StreamBytes(w.enqueued) == a + b + c by {
      StreamConcat(w.written + InFlight(w), w.queue);
      StreamConcat(w.written, InFlight(w));
    }
    SentPartIsPrefix(w);
  }

  /** Hence the peer, reading until an error, gets a prefix of the frames handed in.  */
  lemma PeerReadsPrefix(ls: seq<Label>)
    requires Legal(Init(), ls) && AllSized(Exec(Init(), ls).enqueued) && !Exec(Init(), ls).failed
    ensures ParseAll(Exec(Init(), ls).wire) <= Exec(Init(), ls).enqueued
  {
    FramesNeverInterleave(ls);
    var w := Exec(Init(), ls);
    assert w.wire == StreamBytes(w.enqueued)[..|w.wire|];
    ParseAnyPrefix(w.enqueued, |w.wire|);
  }

  /************ The code ************/

  // The frames a pump finds waiting and those handed in during its first n writes.
  function Due(queue: seq<Frame>, env: seq<seq<Frame>>, n: nat): (r: seq<Frame>)
    ensures queue <= r
  {
    if n == 0 then queue else Due(queue, env, n - 1) + (if n <= |env| then env[n - 1] else [])
  }

  // The first `cut` bytes of a frame.
  function Cut(f: Frame, cut: nat): seq<byte> {
    if cut <= |FrameBytes(f)| then FrameBytes(f)[..cut] else FrameBytes(f)
  }

  // A pump that started in w0 has put the first n frames due on the wire and is about to test its loop.
  ghost predicate Between(w0: Writer, w: Writer, due: seq<Frame>, n: nat) {
    && w0.queue <= due && n <= |due| && w.queue == due[n..]
    && w.active && |w.pumps| == 1 && w.failed == w0.failed
    && (if n > 0 then Enabled(w, Complete(0)) else w.pumps == [Ready])
    && w.enqueued == w0.enqueued + due[|w0.queue|..]
    && w.written + (if n > 0 then [w.pumps[0].frame] else []) == w0.written + due[..n]
    && w.wire == w0.wire + StreamBytes(due[..n])
  }

  // It is suspended in its n-th write.
  ghost predicate Within(w0: Writer, w: Writer, due: seq<Frame>, n: nat, f: Frame) {
    && w0.queue <= due && n < |due| && f == due[n] && w.queue == due[n + 1..]
    && w.active && w.pumps == [Writing(f, 0)] && w.failed == w0.failed
    && w.enqueued == w0.enqueued + due[|w0.queue|..]
    && w.written == w0.written + due[..n]
    && w.wire == w0.wire + StreamBytes(due[..n])
  }

  lemma DueMore(due: seq<Frame>, more: seq<Frame>, tasks: seq<Frame>, q: nat, n: nat)
    requires more == due + tasks && q <= |due| && n < |due|
    ensures more[q..] == due[q..] + tasks && more[..n] == due[..n] && more[n] == due[n]
    ensures due[n..][1..] + tasks == more[n + 1..] && due[n..][0] == due[n]
  {}

  lemma Begun(w0: Writer, w: Writer, w': Writer, due: seq<Frame>, tasks: seq<Frame>, more: seq<Frame>, n: nat)
    requires Between(w0, w, due, n) && w.queue != [] && more == due + tasks
    requires w'.queue == w.queue[1..] + tasks && w'.enqueued == w.enqueued + tasks
    requires w'.pumps == [Writing(w.queue[0], 0)]
    requires w'.written == w.written + (if n > 0 then [w.pumps[0].frame] else [])
    requires w'.wire == w.wire && w'.failed == w.failed && w'.active
    ensures Within(w0, w', more, n, w.queue[0])
  {
    DueMore(due, more, tasks, |w0.queue|, n);
  }

  lemma Finished(w0: Writer, w: Writer, w': Writer, due: seq<Frame>, n: nat, f: Frame)
    requires Within(w0, w, due, n, f)
    requires w' == w.(pumps := [Writing(f, |FrameBytes(f)|)], wire := w.wire + FrameBytes(f))
    ensures Between(w0, w', due, n + 1)
  {
    assert due[..n + 1] == due[..n] + [f];
    StreamAppend(due[..n], f);
  }

  // Before write n there was a frame to write each time, and none of those writes was to fail.
  ghost predicate Wrote(queue: seq<Frame>, env: seq<seq<Frame>>, failAt: nat, n: nat) {
    forall j: nat :: j < n ==> j < failAt && j < |Due(queue, env, j)|
  }

  lemma WroteMore(queue: seq<Frame>, env: seq<seq<Frame>>, failAt: nat, n: nat)
    requires Wrote(queue, env, failAt, n) && n < failAt && n < |Due(queue, env, n)|
    ensures Wrote(queue, env, failAt, n + 1)
  {}

  ghost predicate Pumping(w0: Writer, w: Writer, env: seq<seq<Frame>>, failAt: nat, n: nat) {
    Between(w0, w, Due(w0.queue, env, n), n) && n <= failAt && Wrote(w0.queue, env, failAt, n)
  }

  lemma PumpBegins(w: Writer, env: seq<seq<Frame>>, failAt: nat)
    requires w.pumps == [Ready] && w.active
    ensures Pumping(w, w, env, failAt, 0)
  {}

  /** What a pump started in w0 has done when it ends: n frames went out in full, in order, and it stopped
      because the queue had run dry or because the write numbered failAt failed after `cut` bytes.  */
  ghost predicate Pumped(w0: Writer, w: Writer, env: seq<seq<Frame>>, failAt: nat, cut: nat, n: nat, fails: bool) {
    var due := Due(w0.queue, env, if fails then n + 1 else n);
    && Wrote(w0.queue, env, failAt, n)
    && (if fails then n == failAt && n < |Due(w0.queue, env, n)| else n == |due|)
    && w.failed == (w0.failed || fails)
    && w.enqueued == w0.enqueued + due[|w0.queue|..]
    && w.written == w0.written + due[..n]
    && w.wire == w0.wire + StreamBytes(due[..n]) + (if fails then Cut(due[n], cut) else [])
  }

  lemma PumpFails(w0: Writer, w: Writer, w': Writer, env: seq<seq<Frame>>, failAt: nat, cut: nat, due: seq<Frame>,
                  f: Frame)
    requires due == Due(w0.queue, env, failAt + 1) && Within(w0, w, due, failAt, f)
    requires Wrote(w0.queue, env, failAt, failAt) && failAt < |Due(w0.queue, env, failAt)|
    requires w'.enqueued == w.enqueued && w'.written == w.written && w'.failed && w'.wire == w.wire + Cut(f, cut)
    ensures Pumped(w0, w', env, failAt, cut, failAt, true)
  {}

  lemma PumpEnds(w0: Writer, w: Writer, w': Writer, env: seq<seq<Frame>>, failAt: nat, cut: nat, n: nat,
                 due: seq<Frame>)
    requires due == Due(w0.queue, env, n) && Between(w0, w, due, n) && w.queue == [] && Wrote(w0.queue, env, failAt, n)
    requires w'.written == w.written + (if n > 0 then [w.pumps[0].frame] else [])
    requires w'.enqueued == w.enqueued && w'.failed == w.failed && w'.wire == w.wire
    ensures Pumped(w0, w', env, failAt, cut, n, false)
  {}

  // The writing half of Session (and of Channel::Impl).
  class FrameWriter {
    var queue: seq<Frame>
    var active: bool
    var wire: seq<byte>
    ghost var w: Writer     // the fields above with the pump and the history

    ghost predicate Valid()
      reads this
    {
      queue == w.queue && active == w.active && wire == w.wire && Inv(w)
    }

    constructor ()
      ensures Valid() && w == Init()
    {
      queue, active, wire, w := [], false, [], Init();
    }

    // The task EnqueueWrite posts; `spawn` says it starts a pump.
    method EnqueueTask(f: Frame) returns (spawn: bool)
      requires Valid()
      modifies this
      ensures Valid() && w == Push(old(w), f) && spawn == !old(active)
    {
      StepKeeps(w, Enqueue(f));
      queue := queue + [f];
      spawn := !active;
      if spawn { active := true; }
      w := Push(w, f);
    }

    // Tasks the strand runs while the pump is suspended; an active pump is never started twice.
    method RunTasks(fs: seq<Frame>)
      requires Valid() && active
      modifies this
      ensures Valid() && active && w.pumps == old(w.pumps)
      ensures queue == old(queue) + fs && wire == old(wire)
      ensures w.enqueued == old(w.enqueued) + fs && w.written == old(w.written) && w.failed == old(w.failed)
    {
      var i := 0;
      while i < |fs|
        invariant 0 <= i <= |fs| && Valid() && active && w.pumps == old(w.pumps)
        invariant queue == old(queue) + fs[..i] && wire == old(wire)
        invariant w.enqueued == old(w.enqueued) + fs[..i] && w.written == old(w.written) && w.failed == old(w.failed)
      {
        assert fs[..i + 1] == fs[..i] + [fs[i]];
        var spawn := EnqueueTask(fs[i]);
        i := i + 1;
      }
      assert fs[..i] == fs;
    }

    /** The coroutine WritePump from its spawn to its end.  env[k] is what the strand enqueues while
        the k-th write is suspended, and the write numbered `failAt` fails after `cut` bytes.  It ends
        with the queue empty and inactive; without a failure every frame handed in is written.  */
    method RunPump(env: seq<seq<Frame>>, failAt: nat, cut: nat) returns (n: nat, fails: bool)
      requires Valid() && w.pumps == [Ready]
      modifies this
      ensures Valid() && queue == [] && !active && w.pumps == []
      ensures Pumped(old(w), w, env, failAt, cut, n, fails)
      ensures !w.failed ==> w.written == w.enqueued && wire == StreamBytes(w.enqueued)
    {
      n := 0;
      fails := false;
      ghost var w0 := w;
      PumpBegins(w0, env, failAt);
      while queue != []
        invariant Valid() && Pumping(w0, w, env, failAt, n)
        decreases if n < |env| then |env| - n else 0, |queue|
      {
        var tasks := if n < |env| then env[n] else [];
        if n == failAt {
          WriteFails(w0, env, tasks, n, cut);
          fails := true;
          return;
        }
        WriteNext(w0, env, tasks, failAt, n);
        n := n + 1;
      }
      Stop(w0, env, failAt, cut, n);
    }

    // The loop test finds the queue empty.
    method Stop(ghost w0: Writer, ghost env: seq<seq<Frame>>, ghost failAt: nat, ghost cut: nat, ghost n: nat)
      requires Valid() && Pumping(w0, w, env, failAt, n) && queue == []
      modifies this
      ensures Valid() && queue == [] && !active && w.pumps == [] && Pumped(w0, w, env, failAt, cut, n, false)
      ensures !w.failed ==> w.written == w.enqueued && wire == StreamBytes(w.enqueued)
    {
      active := false;
      EndPump(n > 0);
      PumpEnds(w0, old(w), w, env, failAt, cut, n, Due(w0.queue, env, n));
    }

    // One turn of the loop, its write succeeding.
    method WriteNext(ghost w0: Writer, ghost env: seq<seq<Frame>>, tasks: seq<Frame>, ghost failAt: nat, ghost n: nat)
      requires Valid() && Pumping(w0, w, env, failAt, n) && n < failAt && queue != []
      requires tasks == (if n < |env| then env[n] else [])
      modifies this
      ensures Valid() && Pumping(w0, w, env, failAt, n + 1) && queue == old(queue)[1..] + tasks
    {
      ghost var due := Due(w0.queue, env, n);
      var f := BeginWrite(w0, due, tasks, n);
      FinishWrite(w0, due + tasks, n, f);
      WroteMore(w0.queue, env, failAt, n);
    }

    // One turn of the loop, its write failing after `cut` bytes.
    method WriteFails(ghost w0: Writer, ghost env: seq<seq<Frame>>, tasks: seq<Frame>, ghost n: nat, cut: nat)
      requires Valid() && Pumping(w0, w, env, n, n) && queue != [] && tasks == (if n < |env| then env[n] else [])
      modifies this
      ensures Valid() && queue == [] && !active && w.pumps == [] && w.failed && Pumped(w0, w, env, n, cut, n, true)
    {
      ghost var due := Due(w0.queue, env, n);
      var f := BeginWrite(w0, due, tasks, n);
      ghost var w1 := w;
      FailWrite(w0, due + tasks, n, f, cut);
      PumpFails(w0, w1, w, env, n, cut, due + tasks, f);
    }

    // Take the front frame; the strand runs `tasks` while its write is suspended.
    method BeginWrite(ghost w0: Writer, ghost due: seq<Frame>, tasks: seq<Frame>, ghost n: nat) returns (f: Frame)
      requires Valid() && Between(w0, w, due, n) && queue != []
      modifies this
      ensures Valid() && Within(w0, w, due + tasks, n, f) && queue == old(queue)[1..] + tasks
    {
      f := queue[0];
      queue := queue[1..];
      NextWrite(n > 0);
      RunTasks(tasks);
      Begun(w0, old(w), w, due, tasks, due + tasks, n);
    }

    method FinishWrite(ghost w0: Writer, ghost due: seq<Frame>, ghost n: nat, f: Frame)
      requires Valid() && Within(w0, w, due, n, f)
      modifies this
      ensures Valid() && Between(w0, w, due, n + 1) && queue == old(queue)
    {
      var bytes := FrameBytes(f);
      wire := wire + bytes;
      assert bytes[..|bytes|] == bytes;
      Sent(f, |bytes|);
      Finished(w0, old(w), w, due, n, f);
    }

    method FailWrite(ghost w0: Writer, ghost due: seq<Frame>, ghost n: nat, f: Frame, cut: nat)
      requires Valid() && Within(w0, w, due, n, f)
      modifies this
      ensures Valid() && queue == [] && !active && w.pumps == [] && w.failed
      ensures w.enqueued == old(w.enqueued) && w.written == old(w.written) && wire == old(wire) + Cut(f, cut)
    {
      var bytes := FrameBytes(f);
      var m := if cut <= |bytes| then cut else |bytes|;
      wire := wire + bytes[..m];
      assert bytes[..|bytes|] == bytes;
      Sent(f, m);
      queue := [];
      active := false;
      StepKeeps(w, Fail(0));
      w := Apply(w, Fail(0));
    }

    // The history of leaving the loop test with a frame in hand.
    ghost method NextWrite(started: bool)
      requires Inv(w) && |w.pumps| == 1 && w.queue != []
      requires if started then Enabled(w, Complete(0)) else Enabled(w, Start(0))
      modifies this`w
      ensures Inv(w) && w.pumps == [Writing(old(w).queue[0], 0)] && w.queue == old(w).queue[1..]
      ensures w.active == old(w).active && w.wire == old(w).wire && w.enqueued == old(w).enqueued
      ensures w.failed == old(w).failed
      ensures w.written == old(w).written + (if started then [old(w).pumps[0].frame] else [])
    {
      StepKeeps(w, if started then Complete(0) else Start(0));
      w := Apply(w, if started then Complete(0) else Start(0));
    }

    // The history of n bytes going out.
    ghost method Sent(f: Frame, n: nat)
      requires Inv(w) && w.pumps == [Writing(f, 0)] && n <= |FrameBytes(f)|
      modifies this`w
      ensures Inv(w) && w == old(w).(pumps := [Writing(f, n)], wire := old(w).wire + FrameBytes(f)[..n])
    {
      StepKeeps(w, Emit(0, n));
      w := Apply(w, Emit(0, n));
    }

    // The history of the loop test finding the queue empty.
    ghost method EndPump(started: bool)
      requires Inv(w) && |w.pumps| == 1 && w.queue == []
      requires if started then Enabled(w, Complete(0)) else Enabled(w, Start(0))
      modifies this`w
      ensures Inv(w) && w.pumps == [] && w.queue == [] && !w.active && w.wire == old(w).wire
      ensures w.enqueued == old(w).enqueued && w.failed == old(w).failed
      ensures w.written == old(w).written + (if started then [old(w).pumps[0].frame] else [])
      ensures !w.failed ==> w.written == w.enqueued && w.wire == StreamBytes(w.enqueued)
    {
      StepKeeps(w, if started then Complete(0) else Start(0));
      w := Apply(w, if started then Complete(0) else Start(0));
    }
  }
}
