/** The completion queue as the object the C++ channel uses.  `Pop` runs the body of
    MpscQueue::pop one atomic operation at a time; before every operation after the first the
    environment may run any producers' steps, so the contract covers every interleaving.  */
module MpscObject {
  import opened Mpsc

  // Producer steps only; a step that is not enabled when its turn comes is dropped.
  function Interfere(q: Queue, env: seq<Step>): Queue
    decreases |env|
  {
    if env == [] then q
    else if env[0] != Consume && Enabled(q, env[0]) then Interfere(Apply(q, env[0]), env[1..])
    else Interfere(q, env[1..])
  }

  function At(env: seq<seq<Step>>, i: nat): seq<Step> {
    if i < |env| then env[i] else []
  }

  // No push is active when the pop starts and none runs during it.
  ghost predicate Quiet(q: Queue, env: seq<seq<Step>>) {
    !PushActive(q) && forall i :: 0 <= i < |env| ==> env[i] == []
  }

  ghost predicate Reaches(q: Queue, r: Queue) {
    exists steps :: Legal(q, steps) && Exec(q, steps) == r
  }

  lemma {:induction false} ExecAppend(q: Queue, a: seq<Step>, b: seq<Step>)
    requires Legal(q, a) && Legal(Exec(q, a), b)
    ensures Legal(q, a + b) && Exec(q, a + b) == Exec(Exec(q, a), b)
    decreases |a|
  {
    if a == [] {
      assert a + b == b;
    } else {
      assert (a + b)[1..] == a[1..] + b;
      ExecAppend(Apply(q, a[0]), a[1..], b);
    }
  }

  lemma ReachesTrans(q: Queue, r: Queue, s: Queue)
    requires Reaches(q, r) && Reaches(r, s)
    ensures Reaches(q, s)
  {
    var a :| Legal(q, a) && Exec(q, a) == r;
    var b :| Legal(r, b) && Exec(r, b) == s;
    ExecAppend(q, a, b);
  }

  lemma ReachesStep(q: Queue, s: Step)
    requires Enabled(q, s)
    ensures Reaches(q, Apply(q, s))
  {
    var q' := Apply(q, s);
    assert Legal(q', []) && Exec(q', []) == q';
    assert [s][1..] == [];
    assert Legal(q, [s]) && Exec(q, [s]) == q';
  }

  ghost predicate Reachable(q: Queue) { Reaches(Init(), q) }

  lemma ReachableInv(q: Queue)
    requires Reachable(q)
    ensures Inv(q)
  {
    var steps :| Legal(Init(), steps) && Exec(Init(), steps) == q;
    RunKeeps(Init(), steps);
  }

  // The abstract queue: completions exchanged in and not yet returned.
  function Contents(q: Queue): seq<Node> { NonStub(q.chain) }

  lemma {:induction false} InterfereReaches(q: Queue, env: seq<Step>)
    requires Inv(q)
    ensures var r := Interfere(q, env);
      && Reaches(q, r) && Inv(r)
      && r.consumer == q.consumer && r.tail == q.tail && r.popped == q.popped && q.pushed <= r.pushed
    ensures env == [] ==> Interfere(q, env) == q
    decreases |env|
  {
    if env == [] {
      assert Legal(q, []) && Exec(q, []) == q;
    } else if env[0] != Consume && Enabled(q, env[0]) {
      StepKeeps(q, env[0]);
      ReachesStep(q, env[0]);
      InterfereReaches(Apply(q, env[0]), env[1..]);
      ReachesTrans(q, Apply(q, env[0]), Interfere(q, env));
    } else {
      InterfereReaches(q, env[1..]);
    }
  }

  /** `q` is a point inside (or at the end of) the pop that started in `q0`, before it answered.
      When `quiet`, no push was active at the start and none has run since.  */
  ghost predicate InPop(q0: Queue, q: Queue, quiet: bool) {
    && Reachable(q) && Reaches(q0, q)
    && q.consumer != Resting
    && q.popped == q0.popped && q0.pushed <= q.pushed
    && (quiet ==> !q.overlap && q.pushed == q0.pushed && q.producers == q0.producers)
  }

  // The pop that started in `q0` has answered in `q`.
  ghost predicate Popped(q0: Queue, q: Queue, quiet: bool) {
    && Reachable(q) && Reaches(q0, q)
    && q.consumer == Resting
    && q0.pushed <= q.pushed
    && (match q.result
        case Nothing => q.popped == q0.popped && (q.overlap || Contents(q) == [])
        case Got(n) => q.popped == q0.popped + [n])
    && (quiet ==> !q.overlap && q.pushed == q0.pushed && q.producers == q0.producers)
  }

  // A producer interlude inside a pop.
  lemma Interlude(q0: Queue, q: Queue, quiet: bool, env: seq<Step>)
    requires InPop(q0, q, quiet) && (quiet ==> env == [])
    ensures InPop(q0, Interfere(q, env), quiet)
    ensures Interfere(q, env).consumer == q.consumer
  {
    ReachableInv(q);
    InterfereReaches(q, env);
    ReachesTrans(q0, q, Interfere(q, env));
    ReachesTrans(Init(), q, Interfere(q, env));
  }

  // What one consumer operation writes to the history.
  lemma OperationLogs(q: Queue)
    ensures var r := PopStep(q);
      && r.pushed == q.pushed && r.producers == q.producers
      && (q.consumer != Resting ==> r.overlap == q.overlap)
      && (r.consumer == Resting && r.result.Got? ==> r.popped == q.popped + [r.result.node])
      && (r.consumer != Resting || r.result.Nothing? ==> r.popped == q.popped)
  {
    match q.consumer
    case Resting => case Second(t) => case CheckHead(t) => case StubClear(t) => case StubSwap(t) =>
    case StubLink(t, prev) => case Reload(t) =>
  }

  // A consumer operation inside a pop.
  lemma Operation(q0: Queue, q: Queue, quiet: bool)
    requires InPop(q0, q, quiet)
    ensures var r := PopStep(q); if r.consumer == Resting then Popped(q0, r, quiet) else InPop(q0, r, quiet)
  {
    var r := PopStep(q);
    OperationLogs(q);
    ReachesStep(q, Consume);
    ReachesTrans(q0, q, r);
    ReachesTrans(Init(), q, r);
    if r.consumer == Resting && r.result == Nothing && !r.overlap {
      ReachableInv(q);
      NullStep(q);
    }
  }

  // The first operation of a pop.
  lemma FirstOperation(q: Queue, quiet: bool)
    requires Reachable(q) && q.consumer == Resting && (quiet ==> !PushActive(q))
    ensures var r := PopStep(q); if r.consumer == Resting then Popped(q, r, quiet) else InPop(q, r, quiet)
  {
    var r := PopStep(q);
    OperationLogs(q);
    ReachesStep(q, Consume);
    ReachesTrans(Init(), q, r);
    if r.consumer == Resting && r.result == Nothing && !r.overlap {
      ReachableInv(q);
      NullStep(q);
    }
  }

  // A pop during which no push is in progress removes exactly the first completion.
  lemma QuietPop(q: Queue, r: Queue)
    requires Reachable(q) && Popped(q, r, true)
    ensures match r.result case Nothing => Contents(q) == [] && Contents(r) == []
                           case Got(n) => Contents(q) == [n] + Contents(r)
    ensures !PushActive(q) ==> !PushActive(r)
  {
    ReachableInv(q);
    ReachableInv(r);
    assert Contents(q) == q.pushed[|q.popped|..];
    assert Contents(r) == q.pushed[|r.popped|..];
  }

  lemma EmptyMeansAllPopped(q: Queue)
    requires Reachable(q) && Contents(q) == []
    ensures q.popped == q.pushed
  {
    ReachableInv(q);
  }

  lemma Shift(all: seq<Node>, done: seq<Node>, n: Node, left: seq<Node>, rest: seq<Node>)
    requires all == done + left && left == [n] + rest
    ensures all == done + [n] + rest && |rest| < |left|
  {}

  class MpscQueue {
    var head: Node
    var tail: Node
    var next: map<Node, Link>
    var producers: map<nat, Producer>   // where each producing thread stands
    var used: set<Node>                 // nodes allocated so far
    ghost var q: Queue                  // the memory above together with its history

    // The real fields are the memory part of `q`.
    ghost predicate Synced()
      reads this
    {
      head == q.head && tail == q.tail && next == q.next && producers == q.producers && used == q.used
    }

    ghost predicate Valid()
      reads this
    {
      Synced() && Reachable(q) && q.consumer == Resting
    }

    constructor ()
      ensures Valid() && q == Init()
    {
      head, tail, next, producers, used := STUB, STUB, map[STUB := Null], map[], {};
      q := Init();
      new;
      assert Legal(Init(), []) && Exec(Init(), []) == Init();
    }

    function Load(n: Node): Link
      reads this
    {
      if n in next then next[n] else Null
    }

    // One atomic operation of push; dropped when its thread is not at that operation.
    method PushStep(s: Step)
      requires Synced()
      modifies this
      ensures Synced()
      ensures q == if s != Consume && Enabled(old(q), s) then Apply(old(q), s) else old(q)
    {
      match s {
        case Clear(p, node) =>
          if (p !in producers || producers[p] == Idle) && node != STUB && node !in used {
            next := next[node := Null];
            producers := producers[p := Cleared(node)];
            used := used + {node};
            q := Apply(q, s);
          }
        case Exchange(p) =>
          if p in producers && producers[p].Cleared? {
            var node, prev := producers[p].node, head;
            head := node;
            producers := producers[p := Linking(node, prev)];
            q := Apply(q, s);
          }
        case LinkPrev(p) =>
          if p in producers && producers[p].Linking? {
            var node, prev := producers[p].node, producers[p].prev;
            next := next[prev := To(node)];
            producers := producers[p := Idle];
            q := Apply(q, s);
          }
        case Consume =>
      }
    }

    method RunProducers(env: seq<Step>)
      requires Synced()
      modifies this
      ensures Synced() && q == Interfere(old(q), env)
    {
      var i := 0;
      while i < |env|
        invariant 0 <= i <= |env| && Synced()
        invariant Interfere(q, env[i..]) == Interfere(old(q), env)
      {
        assert env[i..][1..] == env[i + 1..];
        PushStep(env[i]);
        i := i + 1;
      }
      assert env[i..] == [];
    }

    // Between two operations of a pop the producers run.
    method Between(env: seq<Step>, ghost q0: Queue, ghost quiet: bool)
      requires Synced() && InPop(q0, q, quiet) && (quiet ==> env == [])
      modifies this
      ensures Synced() && InPop(q0, q, quiet) && q.consumer == old(q.consumer)
    {
      Interlude(q0, q, quiet, env);
      RunProducers(env);
    }

    // The consumer's operation just performed on the real fields, in the history.
    ghost method Account(q0: Queue, quiet: bool)
      requires InPop(q0, q, quiet)
      modifies this`q
      ensures q == PopStep(old(q))
      ensures if q.consumer == Resting then Popped(q0, q, quiet) else InPop(q0, q, quiet)
    {
      Operation(q0, q, quiet);
      q := PopStep(q);
    }

    /** The pop of the source.  env[i] is what the producers do before its (i+2)-nd atomic
        operation.  */
    method Pop(env: seq<seq<Step>>) returns (r: PopResult)
      requires Valid()
      modifies this
      ensures Valid() && r == q.result
      ensures Popped(old(q), q, Quiet(old(q), env))
    {
      ghost var quiet := Quiet(q, env);
      ghost var q0 := q;
      var t := tail;
      var n := Load(t);
      FirstOperation(q, quiet);
      q := PopStep(q);
      if t == STUB {
        if n.Null? { return Nothing; }
        tail := n.node;
        t := n.node;
        Between(At(env, 0), q0, quiet);
        n := Load(t);
        Account(q0, quiet);
      }
      if n.To? {
        tail := n.node;
        return Got(t);
      }
      r := PopLast(t, env, q0);
    }

    // The node at the tail has no next: it is the last, or a push is in progress.
    method PopLast(t: Node, env: seq<seq<Step>>, ghost q0: Queue) returns (r: PopResult)
      requires Synced() && InPop(q0, q, Quiet(q0, env)) && q.consumer == CheckHead(t)
      modifies this
      ensures Synced() && r == q.result
      ensures Popped(q0, q, Quiet(q0, env))
    {
      ghost var quiet := Quiet(q0, env);
      Between(At(env, 1), q0, quiet);
      Account(q0, quiet);
      if t != head {
        return Nothing;
      }
      r := PopSlow(t, env, q0);
    }

    // The rest of pop: push(&stub), then look once more.
    method PopSlow(t: Node, env: seq<seq<Step>>, ghost q0: Queue) returns (r: PopResult)
      requires Synced() && InPop(q0, q, Quiet(q0, env)) && q.consumer == StubClear(t)
      modifies this
      ensures Synced() && r == q.result
      ensures Popped(q0, q, Quiet(q0, env))
    {
      ghost var quiet := Quiet(q0, env);
      PushStub(t, env, q0);
      Between(At(env, 5), q0, quiet);
      var n := Load(t);
      Account(q0, quiet);
      if n.To? {
        tail := n.node;
        return Got(t);
      }
      return Nothing;
    }

    // push(&stub) run by the consumer, with producers between its three operations.
    method PushStub(t: Node, env: seq<seq<Step>>, ghost q0: Queue)
      requires Synced() && InPop(q0, q, Quiet(q0, env)) && q.consumer == StubClear(t)
      modifies this
      ensures Synced() && InPop(q0, q, Quiet(q0, env)) && q.consumer == Reload(t)
    {
      ghost var quiet := Quiet(q0, env);
      Between(At(env, 2), q0, quiet);
      next := next[STUB := Null];
      Account(q0, quiet);

      var prev := SwapStub(t, env, q0);
      LinkStub(t, prev, env, q0);
    }

    // Its exchange.
    method SwapStub(t: Node, env: seq<seq<Step>>, ghost q0: Queue) returns (prev: Node)
      requires Synced() && InPop(q0, q, Quiet(q0, env)) && q.consumer == StubSwap(t)
      modifies this
      ensures Synced() && InPop(q0, q, Quiet(q0, env)) && q.consumer == Consumer.StubLink(t, prev)
    {
      ghost var quiet := Quiet(q0, env);
      Between(At(env, 3), q0, quiet);
      prev := head;
      head := STUB;
      Account(q0, quiet);
    }

    // The last operation of push(&stub).
    method LinkStub(t: Node, prev: Node, env: seq<seq<Step>>, ghost q0: Queue)
      requires Synced() && InPop(q0, q, Quiet(q0, env)) && q.consumer == Consumer.StubLink(t, prev)
      modifies this
      ensures Synced() && InPop(q0, q, Quiet(q0, env)) && q.consumer == Reload(t)
    {
      ghost var quiet := Quiet(q0, env);
      Between(At(env, 4), q0, quiet);
      next := next[prev := To(STUB)];
      Account(q0, quiet);
    }

    /** Channel::RunCallbacks with no push in progress and callbacks that push nothing: it runs
        min(max, n) completions, oldest first, and leaves the others queued in order.  */
    method RunCallbacks(max: nat) returns (ran: nat)
      requires Valid() && !PushActive(q)
      modifies this
      ensures Valid() && !PushActive(q)
      ensures ran == if max < |Contents(old(q))| then max else |Contents(old(q))|
      ensures q.popped == old(q.popped) + Contents(old(q))[..ran]
      ensures Contents(q) == Contents(old(q))[ran..]
    {
      ghost var all := Contents(q);
      ran := 0;
      while ran < max
        invariant ran <= max && ran <= |all| && Valid() && !PushActive(q)
        invariant q.popped == old(q.popped) + all[..ran]
        invariant Contents(q) == all[ran..]
      {
        ghost var before := q;
        var c := Pop([]);
        QuietPop(before, q);
        if c == Nothing { break; }
        assert all[..ran + 1] == all[..ran] + [all[ran]];
        ran := ran + 1;
      }
    }

    /** The drain at the end of Shutdown: every completion never run is popped and freed.  */
    method Drain() returns (freed: seq<Node>)
      requires Valid() && !PushActive(q)
      modifies this
      ensures Valid() && !PushActive(q)
      ensures freed == Contents(old(q)) && Contents(q) == []
      ensures q.popped == old(q.popped) + freed && q.popped == q.pushed
    {
      ghost var all := Contents(q);
      freed := [];
      while true
        invariant Valid() && !PushActive(q)
        invariant q.popped == old(q.popped) + freed
        invariant all == freed + Contents(q)
        decreases |Contents(q)|
      {
        ghost var before := q;
        var c := Pop([]);
        QuietPop(before, q);
        if c == Nothing { break; }
        Shift(all, freed, c.node, Contents(before), Contents(q));
        freed := freed + [c.node];
      }
      EmptyMeansAllPopped(q);
    }
  }
}
