/** The lock-free completion queue (Vyukov's intrusive multi-producer / single-consumer queue)
    as a transition system.  Every atomic operation of `push` and `pop` is one sequentially
    consistent step; any number of producers and the one consumer interleave freely.  */
module Mpsc {

  type Node = nat

  // The sentinel node that the queue owns.
  const STUB: Node := 0

  datatype Link = Null | To(node: Node)

  // Where a producer stands inside push(node).
  datatype Producer =
    | Idle
    | Cleared(node: Node)               // node->mpsc_next is null, head not yet exchanged
    | Linking(node: Node, prev: Node)   // head exchanged, prev->mpsc_next not yet written

  // Where the consumer stands inside pop(); t is its local variable `tail`.
  datatype Consumer =
    | Resting
    | Second(t: Node)                   // stub skipped, about to load t->mpsc_next
    | CheckHead(t: Node)                // t->mpsc_next was null, about to load head
    | StubClear(t: Node)                // push(&stub): about to clear the stub's next
    | StubSwap(t: Node)                 // push(&stub): about to exchange head
    | StubLink(t: Node, prev: Node)     // push(&stub): about to link prev
    | Reload(t: Node)                   // about to load t->mpsc_next again

  datatype PopResult = Nothing | Got(node: Node)

  /** `head`, `tail`, `next` are the queue's memory.  The last five fields are history:
      `chain` is the exchange order still in the queue, `pushed` the non-stub nodes in exchange
      order, `popped` what pop returned, `overlap` whether a push was in progress at some
      moment of the current (or last) pop, and `result` the last pop's answer.  */
  datatype Queue = Queue(
    head: Node, tail: Node, next: map<Node, Link>,
    producers: map<nat, Producer>, consumer: Consumer, used: set<Node>,
    chain: seq<Node>, pushed: seq<Node>, popped: seq<Node>, overlap: bool, result: PopResult)

  datatype Step = Clear(p: nat, node: Node) | Exchange(p: nat) | LinkPrev(p: nat) | Consume

  function Init(): Queue {
    Queue(STUB, STUB, map[STUB := Null], map[], Resting, {}, [STUB], [], [], false, Nothing)
  }

  function Next(q: Queue, n: Node): Link {
    if n in q.next then q.next[n] else Null
  }

  function Pc(q: Queue, p: nat): Producer {
    if p in q.producers then q.producers[p] else Idle
  }

  predicate PushActive(q: Queue) {
    exists p | p in q.producers :: q.producers[p] != Idle
  }

  // A push needs a node no earlier push has used: every completion is freshly allocated.
  predicate Enabled(q: Queue, s: Step) {
    match s
    case Clear(p, node) => Pc(q, p) == Idle && node != STUB && node !in q.used
    case Exchange(p) => Pc(q, p).Cleared?
    case LinkPrev(p) => Pc(q, p).Linking?
    case Consume => true
  }

  function Apply(q: Queue, s: Step): Queue
    requires Enabled(q, s)
  {
    match s
    case Clear(p, node) => PushClear(q, p, node)
    case Exchange(p) => PushExchange(q, p)
    case LinkPrev(p) => PushLink(q, p)
    case Consume => PopStep(q)
  }

  function Busy(q: Queue): bool { q.overlap || q.consumer != Resting }

  function PushClear(q: Queue, p: nat, node: Node): Queue {
    q.(next := q.next[node := Null], producers := q.producers[p := Cleared(node)],
       used := q.used + {node}, overlap := Busy(q))
  }

  function PushExchange(q: Queue, p: nat): Queue
    requires Pc(q, p).Cleared?
  {
    var node := Pc(q, p).node;
    q.(head := node, producers := q.producers[p := Linking(node, q.head)],
       chain := q.chain + [node], pushed := q.pushed + [node], overlap := Busy(q))
  }

  function PushLink(q: Queue, p: nat): Queue
    requires Pc(q, p).Linking?
  {
    var pc := Pc(q, p);
    q.(next := q.next[pc.prev := To(pc.node)], producers := q.producers[p := Idle], overlap := Busy(q))
  }

  function Rest(c: seq<Node>): seq<Node> { if c == [] then [] else c[1..] }

  function Return(q: Queue, t: Node, n: Node): Queue {
    q.(tail := n, chain := Rest(q.chain), popped := q.popped + [t], consumer := Resting, result := Got(t))
  }

  function ReturnNull(q: Queue): Queue {
    q.(consumer := Resting, result := Nothing)
  }

  // One atomic operation of pop().
  function PopStep(q: Queue): Queue {
    match q.consumer
    case Resting => PopStart(q.(overlap := PushActive(q)))
    case Second(t) =>
      if Next(q, t).To? then Return(q, t, Next(q, t).node) else q.(consumer := CheckHead(t))
    case CheckHead(t) =>
      if t != q.head then ReturnNull(q) else q.(consumer := StubClear(t))
    case StubClear(t) =>
      q.(next := q.next[STUB := Null], consumer := StubSwap(t))
    case StubSwap(t) =>
      q.(head := STUB, chain := q.chain + [STUB], consumer := StubLink(t, q.head))
    case StubLink(t, prev) =>
      q.(next := q.next[prev := To(STUB)], consumer := Reload(t))
    case Reload(t) =>
      if Next(q, t).To? then Return(q, t, Next(q, t).node) else ReturnNull(q)
  }

  function PopStart(q: Queue): Queue {
    var t := q.tail;
    var n := Next(q, t);
    if t == STUB then
      if n.Null? then ReturnNull(q)
      else q.(tail := n.node, chain := Rest(q.chain), consumer := Second(n.node))
    else if n.To? then Return(q, t, n.node)
    else q.(consumer := CheckHead(t))
  }

  predicate Legal(q: Queue, steps: seq<Step>)
    decreases |steps|
  {
    steps == [] || (Enabled(q, steps[0]) && Legal(Apply(q, steps[0]), steps[1..]))
  }

  function Exec(q: Queue, steps: seq<Step>): Queue
    requires Legal(q, steps)
    decreases |steps|
  {
    if steps == [] then q else Exec(Apply(q, steps[0]), steps[1..])
  }

  /************ The inductive invariant ************/

  ghost predicate Distinct(s: seq<Node>) {
    forall i, j :: 0 <= i < j < |s| ==> s[i] != s[j]
  }

  ghost predicate Adjacent(c: seq<Node>, a: Node, b: Node) {
    exists i :: 0 <= i < |c| - 1 && c[i] == a && c[i + 1] == b
  }

  // Some thread has exchanged `node` in after `prev` and not yet written prev->mpsc_next.
  ghost predicate Owed(q: Queue, prev: Node, node: Node) {
    || (exists p :: p in q.producers && q.producers[p] == Linking(node, prev))
    || (q.consumer.StubLink? && q.consumer.prev == prev && node == STUB)
  }

  // The chain runs from tail to head, without repetition.
  ghost predicate Ends(q: Queue) {
    && q.chain != []
    && q.chain[0] == q.tail
    && q.chain[|q.chain| - 1] == q.head
    && Next(q, q.head) == Null
    && Distinct(q.chain)
  }

  // Memory holds the chain, except for holes whose link some thread still owes.
  ghost predicate Linked(q: Queue) {
    forall i :: 0 <= i < |q.chain| - 1 ==>
      || Next(q, q.chain[i]) == To(q.chain[i + 1])
      || (Next(q, q.chain[i]) == Null && Owed(q, q.chain[i], q.chain[i + 1]))
  }

  // An owed link goes into a chain node whose next is still null.
  ghost predicate OwedInChain(q: Queue) {
    forall prev, node :: Owed(q, prev, node) ==> Adjacent(q.chain, prev, node) && Next(q, prev) == Null
  }

  // Producers own distinct fresh nodes; a node not yet exchanged is outside the chain.
  ghost predicate Owned(q: Queue) {
    && (forall p :: p in q.producers && q.producers[p].Cleared? ==>
         var n := q.producers[p].node;
         n != STUB && n in q.used && n !in q.chain && n !in q.pushed && Next(q, n) == Null)
    && (forall p :: p in q.producers && q.producers[p].Linking? ==>
         q.producers[p].node != STUB && q.producers[p].node in q.pushed)
    && (forall p, r | p in q.producers && r in q.producers && p != r ::
         q.producers[p] != Idle && q.producers[r] != Idle ==> q.producers[p].node != q.producers[r].node)
    && (forall n :: n in q.pushed ==> n != STUB && n in q.used)
    && Distinct(q.pushed)
  }

  // The consumer's local `tail` is the queue's tail, and the stub is pushed only when absent.
  ghost predicate Consuming(q: Queue) {
    && (q.consumer != Resting ==> q.consumer.t == q.tail && q.tail != STUB)
    && (q.consumer.StubClear? || q.consumer.StubSwap? ==> STUB !in q.chain)
    && (q.consumer.StubSwap? ==> Next(q, STUB) == Null)
  }

  function NonStub(c: seq<Node>): seq<Node> {
    if c == [] then [] else (if c[0] == STUB then [] else [c[0]]) + NonStub(c[1..])
  }

  ghost predicate Conserved(q: Queue) { q.pushed == q.popped + NonStub(q.chain) }

  // While no push has overlapped the current pop, the consumer sees a frozen queue.
  ghost predicate Undisturbed(q: Queue) {
    q.consumer != Resting && !q.overlap ==>
      && !PushActive(q)
      && (q.consumer.CheckHead? ==> Next(q, q.tail) == Null)
      && (q.consumer.StubClear? || q.consumer.StubSwap? ==> q.chain == [q.tail])
      && (q.consumer.StubLink? ==> q.chain == [q.tail, STUB] && q.consumer.prev == q.tail)
      && (q.consumer.Reload? ==> Next(q, q.tail) == To(STUB))
  }

  ghost predicate Inv(q: Queue) {
    Ends(q) && Linked(q) && OwedInChain(q) && Owned(q) && Consuming(q) && Conserved(q) && Undisturbed(q)
  }

  lemma {:induction false} NonStubAppend(c: seq<Node>, n: Node)
    ensures NonStub(c + [n]) == NonStub(c) + (if n == STUB then [] else [n])
  {
    if c != [] {
      assert (c + [n])[1..] == c[1..] + [n];
      NonStubAppend(c[1..], n);
    } else {
      assert (c + [n])[1..] == [];
    }
  }

  lemma {:induction false} NonStubMember(c: seq<Node>, n: Node)
    ensures n in NonStub(c) <==> n in c && n != STUB
  {
    if c != [] { NonStubMember(c[1..], n); }
  }

  lemma ChainMembers(q: Queue, n: Node)
    requires Conserved(q)
    ensures n in q.chain && n != STUB ==> n in q.pushed
    ensures n in q.popped ==> n in q.pushed
  {
    NonStubMember(q.chain, n);
  }

  // A node that pop has returned is no longer in the chain.
  lemma PoppedLeftChain(q: Queue, n: Node)
    requires Conserved(q) && Distinct(q.pushed) && n in q.popped && n != STUB
    ensures n !in q.chain
  {
    var rest := NonStub(q.chain);
    var i :| 0 <= i < |q.popped| && q.popped[i] == n;
    forall j | 0 <= j < |rest| ensures rest[j] != n {
      assert q.pushed[i] == n && q.pushed[|q.popped| + j] == rest[j];
    }
    NonStubMember(q.chain, n);
  }

  /************ Preservation, step by step ************/

  lemma OwedByProducer(q: Queue, p: nat)
    requires p in q.producers && q.producers[p].Linking?
    ensures Owed(q, q.producers[p].prev, q.producers[p].node)
  {}

  // How a producer's own step changes what is owed.
  lemma OwedAfter(q: Queue, q': Queue, p: nat, pc: Producer)
    requires q'.producers == q.producers[p := pc] && q'.consumer == q.consumer
    requires forall r :: r in q.producers && r != p ==> q.producers[r] != Pc(q, p) || Pc(q, p) == Idle
    requires Pc(q, p).Linking? ==> Pc(q, p).node != STUB
    ensures forall prev, n :: Owed(q', prev, n) <==>
      || (Owed(q, prev, n) && Pc(q, p) != Linking(n, prev))
      || pc == Linking(n, prev)
  {
    forall prev, n ensures Owed(q', prev, n) <==>
        (Owed(q, prev, n) && Pc(q, p) != Linking(n, prev)) || pc == Linking(n, prev) {
      if r :| r in q.producers && q.producers[r] == Linking(n, prev) && r != p {
        assert q'.producers[r] == Linking(n, prev);
      }
      if pc == Linking(n, prev) { OwedByProducer(q', p); }
    }
  }

  lemma ClearKeeps(q: Queue, p: nat, node: Node)
    requires Inv(q) && Enabled(q, Clear(p, node))
    ensures Inv(PushClear(q, p, node))
  {
    ChainMembers(q, node);
    var q' := PushClear(q, p, node);
    assert Linked(q') && OwedInChain(q') by { OwedAfter(q, q', p, Cleared(node)); }
  }

  lemma ExchangeKeeps(q: Queue, p: nat)
    requires Inv(q) && Enabled(q, Exchange(p))
    ensures Inv(PushExchange(q, p))
  {
    var node := Pc(q, p).node;
    var q' := PushExchange(q, p);
    NonStubAppend(q.chain, node);
    assert Conserved(q');
    assert Linked(q') && OwedInChain(q') by {
      OwedAfter(q, q', p, Linking(node, q.head));
      ExtendKeepsLinks(q, q', node);
    }
    assert Owned(q') by { ExchangeKeepsOwned(q, p); }
  }

  lemma ExchangeKeepsOwned(q: Queue, p: nat)
    requires Owned(q) && Enabled(q, Exchange(p))
    ensures Owned(PushExchange(q, p))
  {
    var q' := PushExchange(q, p);
    var node := Pc(q, p).node;
    forall r | r in q'.producers && q'.producers[r].Cleared?
      ensures q'.producers[r].node !in q'.chain && q'.producers[r].node !in q'.pushed
    {
      assert r in q.producers && q.producers[r] == q'.producers[r] && q.producers[p] == Cleared(node);
    }
  }

  // Appending a node to the chain together with the debt to link it.
  lemma ExtendKeepsLinks(q: Queue, q': Queue, node: Node)
    requires Ends(q) && Linked(q) && OwedInChain(q)
    requires q'.chain == q.chain + [node] && q'.next == q.next
    requires forall prev, n :: Owed(q', prev, n) <==> Owed(q, prev, n) || (prev == q.head && n == node)
    ensures Linked(q') && OwedInChain(q')
  {
    var c, c' := q.chain, q'.chain;
    forall prev, n | Owed(q', prev, n) ensures Adjacent(c', prev, n) && Next(q', prev) == Null {
      if Owed(q, prev, n) {
        var i :| 0 <= i < |c| - 1 && c[i] == prev && c[i + 1] == n;
        assert c'[i] == prev && c'[i + 1] == n;
      } else {
        assert c'[|c| - 1] == prev && c'[|c|] == n;
      }
    }
  }

  // Paying the debt for (prev, node) closes exactly that hole.
  lemma PayKeepsLinks(q: Queue, q': Queue, prev: Node, node: Node)
    requires Ends(q) && Linked(q) && OwedInChain(q) && Owed(q, prev, node)
    requires q'.chain == q.chain && q'.next == q.next[prev := To(node)]
    requires forall a, b :: Owed(q', a, b) <==> Owed(q, a, b) && !(a == prev && b == node)
    ensures Linked(q') && OwedInChain(q')
    ensures prev != q.head
  {
    var c := q.chain;
    var i :| 0 <= i < |c| - 1 && c[i] == prev && c[i + 1] == node;
    assert OwedInChain(q') by {
      forall a, b | Owed(q', a, b) ensures Adjacent(c, a, b) && Next(q', a) == Null {
        var j :| 0 <= j < |c| - 1 && c[j] == a && c[j + 1] == b;
        assert i != j;
      }
    }
    assert Linked(q') by { PaidLinks(q, q', prev, node, i); }
  }

  lemma PaidLinks(q: Queue, q': Queue, prev: Node, node: Node, i: nat)
    requires Ends(q) && Linked(q) && i + 1 < |q.chain| && q.chain[i] == prev && q.chain[i + 1] == node
    requires q'.chain == q.chain && q'.next == q.next[prev := To(node)]
    requires forall a, b :: Owed(q', a, b) <==> Owed(q, a, b) && !(a == prev && b == node)
    ensures Linked(q')
  {}

  lemma LinkKeeps(q: Queue, p: nat)
    requires Inv(q) && Enabled(q, LinkPrev(p))
    ensures Inv(PushLink(q, p))
  {
    var pc := Pc(q, p);
    OwedByProducer(q, p);
    OwedAfter(q, PushLink(q, p), p, Idle);
    assert forall a, b :: Owed(PushLink(q, p), a, b) ==> Owed(q, a, b);
    assert forall r :: r in q.producers && r != p && q.producers[r] != Idle ==> q.producers[r].node != pc.node;
    PayKeepsLinks(q, PushLink(q, p), pc.prev, pc.node);
  }

  // Moving tail to the linked successor drops the first node, into which nothing is owed.
  lemma AdvanceKeeps(q: Queue, q': Queue)
    requires Ends(q) && Linked(q) && OwedInChain(q) && Next(q, q.tail).To?
    requires q'.next == q.next && q'.head == q.head && q'.producers == q.producers
    requires !q.consumer.StubLink? && !q'.consumer.StubLink?
    requires q'.tail == Next(q, q.tail).node && q'.chain == q.chain[1..]
    ensures Ends(q') && Linked(q') && OwedInChain(q')
    ensures q.tail !in q'.chain
    ensures forall node :: !Owed(q, q.tail, node)
  {
    var c, c' := q.chain, q'.chain;
    assert |c| > 1;
    forall a, b ensures Owed(q', a, b) <==> Owed(q, a, b) {}
    forall i | 0 <= i < |c'| - 1
      ensures Next(q', c'[i]) == To(c'[i + 1]) || (Next(q', c'[i]) == Null && Owed(q', c'[i], c'[i + 1]))
    {
      assert c'[i] == c[i + 1] && c'[i + 1] == c[i + 2];
    }
    forall a, b | Owed(q', a, b) ensures Adjacent(c', a, b) {
      var j :| 0 <= j < |c| - 1 && c[j] == a && c[j + 1] == b;
      assert j != 0;
      assert c'[j - 1] == a && c'[j] == b;
    }
  }

  lemma ReturnKeeps(q: Queue, q': Queue, n: Node)
    requires Inv(q) && q.tail != STUB && !q.consumer.StubLink?
    requires Next(q, q.tail) == To(n) && q' == Return(q, q.tail, n)
    ensures Inv(q')
  {
    AdvanceKeeps(q, q');
  }

  // With no push in progress nothing is owed, so a null next ends the chain.
  lemma QuietTailIsHead(q: Queue)
    requires Ends(q) && Linked(q) && !PushActive(q) && !q.consumer.StubLink? && Next(q, q.tail) == Null
    ensures q.chain == [q.tail] && q.head == q.tail
  {
    if |q.chain| > 1 {
      HoleIsOwed(q);
      assert false;
    }
  }

  lemma HoleIsOwed(q: Queue)
    requires Linked(q) && |q.chain| > 1 && Next(q, q.chain[0]) == Null
    ensures Owed(q, q.chain[0], q.chain[1])
  {}

  // A step that only moves the consumer's program counter keeps the chain and its links.
  lemma PcMoveKeeps(q: Queue, q': Queue)
    requires Ends(q) && Linked(q) && OwedInChain(q) && Owned(q) && Conserved(q)
    requires q' == q.(consumer := q'.consumer, overlap := q'.overlap, result := q'.result)
    requires !q.consumer.StubLink? && !q'.consumer.StubLink?
    ensures Ends(q') && Linked(q') && OwedInChain(q') && Owned(q') && Conserved(q')
  {
    forall prev, node ensures Owed(q', prev, node) <==> Owed(q, prev, node) {}
  }

  lemma StartKeeps(q: Queue)
    requires Inv(q) && q.consumer == Resting
    ensures Inv(PopStep(q))
  {
    var q0 := q.(overlap := PushActive(q));
    PcMoveKeeps(q, q0);
    if Next(q0, q0.tail).Null? {
      PcMoveKeeps(q, PopStep(q));
    } else if q0.tail == STUB {
      SkipStubKeeps(q0, PopStep(q));
    } else {
      ReturnKeeps(q0, PopStep(q), Next(q0, q0.tail).node);
    }
  }

  // Skipping the stub: it leaves the chain and nothing is owed into it.
  lemma SkipStubKeeps(q: Queue, q': Queue)
    requires Inv(q) && q.consumer == Resting && q.tail == STUB && Next(q, STUB).To?
    requires q.overlap == PushActive(q) && q' == PopStart(q)
    ensures Inv(q')
  {
    AdvanceKeeps(q, q');
  }

  lemma StubSwapKeeps(q: Queue)
    requires Inv(q) && q.consumer.StubSwap?
    ensures Inv(PopStep(q))
  {
    assert Conserved(PopStep(q)) by { NonStubAppend(q.chain, STUB); }
    assert Ends(PopStep(q)) && Linked(PopStep(q)) && OwedInChain(PopStep(q)) by {
      ExtendKeepsLinks(q, PopStep(q), STUB);
    }
  }

  lemma StubLinkKeeps(q: Queue)
    requires Inv(q) && q.consumer.StubLink?
    ensures Inv(PopStep(q))
  {
    assert Owed(q, q.consumer.prev, STUB);
    PayKeepsLinks(q, PopStep(q), q.consumer.prev, STUB);
  }

  lemma ConsumeKeeps(q: Queue)
    requires Inv(q)
    ensures Inv(PopStep(q))
  {
    match q.consumer
    case Resting => StartKeeps(q);
    case Second(t) =>
      if Next(q, t).To? { ReturnKeeps(q, PopStep(q), Next(q, t).node); } else { PcMoveKeeps(q, PopStep(q)); }
    case CheckHead(t) => CheckHeadKeeps(q);
    case StubClear(t) => StubClearKeeps(q);
    case StubSwap(t) => StubSwapKeeps(q);
    case StubLink(t, prev) => StubLinkKeeps(q);
    case Reload(t) =>
      if Next(q, t).To? { ReturnKeeps(q, PopStep(q), Next(q, t).node); } else { PcMoveKeeps(q, PopStep(q)); }
  }

  // head == tail means the chain is the one node, so the stub is absent and may be pushed.
  lemma CheckHeadKeeps(q: Queue)
    requires Inv(q) && q.consumer.CheckHead?
    ensures Inv(PopStep(q))
  {
    PcMoveKeeps(q, PopStep(q));
    if q.tail == q.head { assert q.chain == [q.tail]; }
  }

  lemma StubClearKeeps(q: Queue)
    requires Inv(q) && q.consumer.StubClear?
    ensures Inv(PopStep(q))
  {
    var q' := PopStep(q);
    forall a, b ensures Owed(q', a, b) <==> Owed(q, a, b) {}
    forall i | 0 <= i < |q.chain| ensures Next(q', q.chain[i]) == Next(q, q.chain[i]) {}
    forall a, b | Owed(q', a, b) ensures Adjacent(q'.chain, a, b) && Next(q', a) == Null {
      assert Adjacent(q.chain, a, b);
    }
  }

  lemma StepKeeps(q: Queue, s: Step)
    requires Inv(q) && Enabled(q, s)
    ensures Inv(Apply(q, s))
  {
    match s
    case Clear(p, node) => ClearKeeps(q, p, node);
    case Exchange(p) => ExchangeKeeps(q, p);
    case LinkPrev(p) => LinkKeeps(q, p);
    case Consume => ConsumeKeeps(q);
  }

  lemma {:induction false} RunKeeps(q: Queue, steps: seq<Step>)
    requires Inv(q) && Legal(q, steps)
    ensures Inv(Exec(q, steps))
    decreases |steps|
  {
    if steps != [] {
      StepKeeps(q, steps[0]);
      RunKeeps(Apply(q, steps[0]), steps[1..]);
    }
  }

  /************ What every interleaving guarantees ************/

  /** Whatever the interleaving, pop has returned a prefix of the nodes in exchange order; what is
      missing is exactly what the chain still holds, and the stub is never returned.  */
  lemma PopsInExchangeOrder(steps: seq<Step>)
    requires Legal(Init(), steps)
    ensures var q := Exec(Init(), steps);
      && q.popped <= q.pushed
      && q.pushed == q.popped + NonStub(q.chain)
      && Distinct(q.pushed)
      && STUB !in q.popped
  {
    RunKeeps(Init(), steps);
    var q := Exec(Init(), steps);
    forall n | n in q.popped ensures n != STUB { ChainMembers(q, n); }
  }

  /** No thread will write into a node that pop has returned, nor into the stub once it has left
      the chain: deleting the node and pushing the stub again are safe.  The stub is in the
      chain at most once, and it is absent whenever pop is about to push it.  */
  lemma NoWriteIntoFreedNode(steps: seq<Step>)
    requires Legal(Init(), steps)
    ensures var q := Exec(Init(), steps);
      && (forall prev, node :: Owed(q, prev, node) ==> prev in q.chain && prev !in q.popped)
      && q.head in q.chain && q.tail in q.chain && q.head !in q.popped && q.tail !in q.popped
      && (forall i, j :: 0 <= i < |q.chain| && 0 <= j < |q.chain| && q.chain[i] == q.chain[j] == STUB ==> i == j)
      && (q.consumer.StubClear? || q.consumer.StubSwap? ==> STUB !in q.chain && forall node :: !Owed(q, STUB, node))
  {
    RunKeeps(Init(), steps);
    var q := Exec(Init(), steps);
    forall n | n in q.popped ensures n !in q.chain {
      ChainMembers(q, n);
      PoppedLeftChain(q, n);
    }
    forall prev, node | Owed(q, prev, node) ensures prev in q.chain {
      assert Adjacent(q.chain, prev, node);
    }
  }

  /** A pop that answers null found the queue empty, or some push was in progress at a moment
      of that pop.  */
  lemma NullMeansEmptyOrOverlap(steps: seq<Step>)
    requires Legal(Init(), steps)
    ensures var q := Exec(Init(), steps); var q' := PopStep(q);
      q'.consumer == Resting && q'.result == Nothing ==>
        q'.overlap || (NonStub(q.chain) == [] && q'.popped == q'.pushed)
  {
    RunKeeps(Init(), steps);
    NullStep(Exec(Init(), steps));
  }

  // Null from the very first look at the queue.
  lemma NullAtStart(q: Queue)
    requires Inv(q) && q.consumer.Resting?
    requires PopStep(q).consumer == Resting && PopStep(q).result == Nothing && !PopStep(q).overlap
    ensures NonStub(q.chain) == [] && PopStep(q).chain == q.chain && PopStep(q).popped == PopStep(q).pushed
  {
    QuietTailIsHead(q);
    assert q.chain[1..] == [];
  }

  // Further inside, only an overlapping push makes pop give up.
  lemma NullInsideOverlaps(q: Queue)
    requires Inv(q) && !q.consumer.Resting? && PopStep(q).consumer == Resting && PopStep(q).result == Nothing
    ensures PopStep(q).overlap
  {
    if q.consumer.CheckHead? && !q.overlap { QuietTailIsHead(q); }
  }

  lemma NullStep(q: Queue)
    requires Inv(q)
    ensures var q' := PopStep(q);
      q'.consumer == Resting && q'.result == Nothing && !q'.overlap ==>
        NonStub(q.chain) == [] && NonStub(q'.chain) == [] && q'.popped == q'.pushed
  {
    var q' := PopStep(q);
    if q'.consumer == Resting && q'.result == Nothing {
      if !q.consumer.Resting? {
        NullInsideOverlaps(q);
      } else if !q'.overlap {
        NullAtStart(q);
      }
    }
  }
}
