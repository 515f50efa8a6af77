/** The request loop of a C++ server session: requests are served one at a time, in the order read. */
module CppSession {
  import opened Framing
  import opened GoServer
  import WritePump

  datatype Reply = NoHandler | Reply(code: Code, payload: seq<byte>)

  // What the session answers to its k-th request, given what the handler did with it.
  function Respond(req: Frame, r: Reply): Frame {
    match r
    case NoHandler => ResponseFrame(req, UNIMPLEMENTED, [])
    case Reply(code, payload) => ResponseFrame(req, code, if code == OK then payload else [])
  }

  /** f is the response to req when the handler did r: under req's ids, with the handler's code cut to 16 bits and
      its payload exactly with OK, or UNIMPLEMENTED, which is 12, where there is no handler.  */
  predicate Conveys(f: Frame, req: Frame, r: Reply) {
    && f.hdr.ftype == RESPONSE && f.hdr.callId == req.hdr.callId && f.hdr.methodId == req.hdr.methodId
    && f.hdr.status == (if r.NoHandler? then 12 else r.code % 0x1_0000)
    && f.payload == (if r.Reply? && r.code == 0 then r.payload else [])
    && f.hdr.payloadSize == |f.payload| % 0x1_0000_0000
  }

  // The frames the loop serves: up to the first that is not a request.
  function Requests(fs: seq<Frame>): seq<Frame> {
    if fs == [] || fs[0].hdr.ftype != REQUEST then [] else [fs[0]] + Requests(fs[1..])
  }

  lemma {:induction false} RequestsPrefix(fs: seq<Frame>)
    ensures Requests(fs) <= fs
    ensures forall i :: 0 <= i < |Requests(fs)| ==> Requests(fs)[i].hdr.ftype == REQUEST
    ensures |Requests(fs)| < |fs| ==> fs[|Requests(fs)|].hdr.ftype != REQUEST
  {
    if fs != [] && fs[0].hdr.ftype == REQUEST { RequestsPrefix(fs[1..]); }
  }

  // The responses to `reqs`, of which the first is request number k of the session.
  function Responses(reqs: seq<Frame>, k: nat, handle: (nat, u32, seq<byte>) -> Reply): seq<Frame> {
    seq(|reqs|, i requires 0 <= i < |reqs| =>
      Respond(reqs[i], handle(k + i, reqs[i].hdr.methodId, reqs[i].payload)))
  }

  lemma ResponsesSnoc(reqs: seq<Frame>, n: nat, handle: (nat, u32, seq<byte>) -> Reply)
    requires n < |reqs|
    ensures Responses(reqs[..n + 1], 0, handle) ==
      Responses(reqs[..n], 0, handle) + [Respond(reqs[n], handle(n, reqs[n].hdr.methodId, reqs[n].payload))]
  {}

  // The body of the loop, from a request to the frame it enqueues.
  method Serve(req: Frame, r: Reply) returns (f: Frame)
    ensures f == Respond(req, r) && Conveys(f, req, r)
  {
    var code, payload := OK, [];
    match r {
      case NoHandler => code := UNIMPLEMENTED;
      case Reply(c, p) =>
        payload := p;
        if c != OK {
          code := c;
          payload := [];
        }
    }
    f := ResponseFrame(req, code, payload);
  }

  /** Session::Run after the handshake.  `input` is everything the peer will ever send, and handle(k, m,
      p) what the handler table answers to the k-th request.  Every request read is answered exactly once,
      in order, with its own ids and what its handler returned, and nothing is answered after the first frame that is
      no request.  */
  method Run(input: seq<byte>, handle: (nat, u32, seq<byte>) -> Reply) returns (out: seq<Frame>)
    ensures out == Responses(Requests(ParseAll(input)), 0, handle)
    ensures |out| <= |ParseAll(input)| && (|out| < |ParseAll(input)| ==> ParseAll(input)[|out|].hdr.ftype != REQUEST)
    ensures forall i :: 0 <= i < |out| ==>
      var req := ParseAll(input)[i];
      req.hdr.ftype == REQUEST && Conveys(out[i], req, handle(i, req.hdr.methodId, req.payload))
  {
    ghost var all := ParseAll(input);
    ghost var reqs := Requests(all);
    RequestsPrefix(all);
    out := [];
    var rest := input;
    while true
      invariant |out| <= |reqs| && out == Responses(reqs[..|out|], 0, handle)
      invariant reqs[|out|..] == Requests(ParseAll(rest))
      decreases |rest|
    {
      ghost var n := |out|;
      var r := Parse(rest);
      if r.Err? { break; }
      if r.frame.hdr.ftype != REQUEST { break; }
      assert reqs[n..][0] == r.frame && reqs[n..][1..] == reqs[n + 1..];
      ResponsesSnoc(reqs, n, handle);
      var f := Serve(r.frame, handle(|out|, r.frame.hdr.methodId, r.frame.payload));
      out := out + [f];
      rest := r.rest;
    }
    assert reqs[..|out|] == reqs;
  }

  /************ Answers and pushes on one connection ************/

  // The session's writing half: how many of its answers it has enqueued, and the queue with its pump.
  datatype Session = Session(answered: nat, w: WritePump.Writer)

  datatype Event =
    | Answer                                      // the request loop enqueues its next response
    | Send(methodId: u32, payload: seq<byte>)     // anyone pushes to this peer
    | Pump(l: WritePump.Label)                    // a pump runs, bytes go out, or a write fails

  predicate Can(s: Session, answers: seq<Frame>, e: Event) {
    match e
    case Answer => s.answered < |answers|
    case Send(_, _) => true
    case Pump(l) => !l.Enqueue? && WritePump.Enabled(s.w, l)
  }

  function Do(s: Session, answers: seq<Frame>, e: Event): Session
    requires Can(s, answers, e)
  {
    match e
    case Answer => Session(s.answered + 1, WritePump.Push(s.w, answers[s.answered]))
    case Send(m, payload) => s.(w := WritePump.Push(s.w, PushFrame(m, payload)))
    case Pump(l) => s.(w := WritePump.Apply(s.w, l))
  }

  predicate Legal(s: Session, answers: seq<Frame>, es: seq<Event>)
    decreases |es|
  {
    es == [] || (Can(s, answers, es[0]) && Legal(Do(s, answers, es[0]), answers, es[1..]))
  }

  function Exec(s: Session, answers: seq<Frame>, es: seq<Event>): Session
    requires Legal(s, answers, es)
    decreases |es|
  {
    if es == [] then s else Exec(Do(s, answers, es[0]), answers, es[1..])
  }

  // The responses among fs.
  function Answered(fs: seq<Frame>): seq<Frame> {
    if fs == [] then []
    else
      var n := |fs| - 1;
      if fs[n].hdr.ftype == RESPONSE then Answered(fs[..n]) + [fs[n]] else Answered(fs[..n])
  }

  lemma AnsweredMore(fs: seq<Frame>, f: Frame)
    ensures Answered(fs + [f]) == Answered(fs) + if f.hdr.ftype == RESPONSE then [f] else []
  {
    assert (fs + [f])[..|fs|] == fs;
  }

  lemma {:induction false} AnsweredPrefix(fs: seq<Frame>, gs: seq<Frame>)
    requires fs <= gs
    ensures Answered(fs) <= Answered(gs)
    decreases |gs|
  {
    if |fs| < |gs| {
      var n := |gs| - 1;
      AnsweredPrefix(fs, gs[..n]);
    } else {
      assert fs == gs;
    }
  }

  // What has been enqueued is, pushes apart, the answers in order.
  ghost predicate InOrder(s: Session, answers: seq<Frame>) {
    s.answered <= |answers| && Answered(s.w.enqueued) == answers[..s.answered]
  }

  predicate AllResponses(fs: seq<Frame>) { forall i :: 0 <= i < |fs| ==> fs[i].hdr.ftype == RESPONSE }

  lemma EventKeepsOrder(s: Session, answers: seq<Frame>, e: Event)
    requires InOrder(s, answers) && Can(s, answers, e) && AllResponses(answers)
    ensures InOrder(Do(s, answers, e), answers)
  {
    match e
    case Answer =>
      AnsweredMore(s.w.enqueued, answers[s.answered]);
      assert answers[..s.answered + 1] == answers[..s.answered] + [answers[s.answered]];
    case Send(m, payload) => AnsweredMore(s.w.enqueued, PushFrame(m, payload));
    case Pump(l) => assert WritePump.Apply(s.w, l).enqueued == s.w.enqueued;
  }

  lemma EventKeepsPump(s: Session, answers: seq<Frame>, e: Event)
    requires WritePump.Inv(s.w) && Can(s, answers, e)
    ensures WritePump.Inv(Do(s, answers, e).w)
  {
    match e
    case Answer => WritePump.StepKeeps(s.w, WritePump.Enqueue(answers[s.answered]));
    case Send(m, payload) => WritePump.StepKeeps(s.w, WritePump.Enqueue(PushFrame(m, payload)));
    case Pump(l) => WritePump.StepKeeps(s.w, l);
  }

  lemma {:induction false} EventsKeep(s: Session, answers: seq<Frame>, es: seq<Event>)
    requires InOrder(s, answers) && WritePump.Inv(s.w) && Legal(s, answers, es) && AllResponses(answers)
    ensures InOrder(Exec(s, answers, es), answers) && WritePump.Inv(Exec(s, answers, es).w)
    decreases |es|
  {
    if es != [] {
      EventKeepsOrder(s, answers, es[0]);
      EventKeepsPump(s, answers, es[0]);
      EventsKeep(Do(s, answers, es[0]), answers, es[1..]);
    }
  }

  /** Whatever is pushed in between and however the pump is scheduled, the responses among the frames the peer
      reads are, up to the first write failure, the first answers to its requests, in the order of the requests.  */
  lemma PeerSeesAnswersInOrder(input: seq<byte>, handle: (nat, u32, seq<byte>) -> Reply, es: seq<Event>)
    requires Legal(Session(0, WritePump.Init()), Responses(Requests(ParseAll(input)), 0, handle), es)
    requires
      var w := Exec(Session(0, WritePump.Init()), Responses(Requests(ParseAll(input)), 0, handle), es).w;
      AllSized(w.enqueued) && !w.failed
    ensures var answers := Responses(Requests(ParseAll(input)), 0, handle);
      var s := Exec(Session(0, WritePump.Init()), answers, es);
      s.answered <= |answers| && Answered(ParseAll(s.w.wire)) <= answers[..s.answered]
        && ParseAll(s.w.wire) <= s.w.enqueued
  {
    var answers := Responses(Requests(ParseAll(input)), 0, handle);
    EventsKeep(Session(0, WritePump.Init()), answers, es);
    var w := Exec(Session(0, WritePump.Init()), answers, es).w;
    WritePump.WireIsPrefix(w);
    assert w.wire == StreamBytes(w.enqueued)[..|w.wire|];
    ParseAnyPrefix(w.enqueued, |w.wire|);
    AnsweredPrefix(ParseAll(w.wire), w.enqueued);
  }
}
