/** One direction of a connection as bytes, together with the frames that were written to it.  */
module Flows {
  import opened Framing

  /** `bytes` is what the writer has put on the wire and `read` how much of it the reader has
      consumed; after a failed write, which may leave part of a frame behind, the direction is
      `broken` and no further write succeeds.  `frames` and `taken` are history.  */
  datatype Flow = Flow(bytes: seq<byte>, read: nat, broken: bool, frames: seq<Frame>, taken: nat)

  function EmptyFlow(): Flow { Flow([], 0, false, [], 0) }

  predicate CanRead(fl: Flow, f: Frame) {
    fl.read <= |fl.bytes| && Parse(fl.bytes[fl.read..]).Ok? && Parse(fl.bytes[fl.read..]).frame == f
  }

  function AfterRead(fl: Flow): Flow
    requires fl.read <= |fl.bytes| && Parse(fl.bytes[fl.read..]).Ok?
  {
    fl.(read := |fl.bytes| - |Parse(fl.bytes[fl.read..]).rest|, taken := fl.taken + 1)
  }

  function AfterWrite(fl: Flow, f: Frame): Flow {
    fl.(bytes := fl.bytes + FrameBytes(f), frames := fl.frames + [f])
  }

  // A failed write: some bytes of the frame may have gone out.
  function AfterFailedWrite(fl: Flow, f: Frame, cut: nat): Flow
    requires cut < |FrameBytes(f)|
  {
    if fl.broken then fl else fl.(bytes := fl.bytes + FrameBytes(f)[..cut], broken := true)
  }

  ghost predicate Partial(b: seq<byte>) {
    exists f :: Sized(f) && b <= FrameBytes(f) && |b| < |FrameBytes(f)|
  }

  ghost predicate FlowOk(fl: Flow) {
    && AllSized(fl.frames)
    && fl.taken <= |fl.frames|
    && fl.read == |StreamBytes(fl.frames[..fl.taken])|
    && StreamBytes(fl.frames) <= fl.bytes
    && var tail := fl.bytes[|StreamBytes(fl.frames)|..];
    && (if fl.broken then Partial(tail) else tail == [])
  }

  function Tail(fl: Flow): seq<byte>
    requires |StreamBytes(fl.frames)| <= |fl.bytes|
  {
    fl.bytes[|StreamBytes(fl.frames)|..]
  }

  // What is left to read: the frames not yet taken, then the remains of a failed write.
  lemma UnreadBytes(fl: Flow)
    requires FlowOk(fl)
    ensures fl.read <= |fl.bytes|
    ensures fl.bytes[fl.read..] == StreamBytes(fl.frames[fl.taken..]) + Tail(fl)
  {
    var done, todo := fl.frames[..fl.taken], fl.frames[fl.taken..];
    assert fl.frames == done + todo;
    StreamConcat(done, todo);
    DropFirst(fl.bytes, StreamBytes(done), StreamBytes(todo), Tail(fl));
  }

  lemma DropFirst(all: seq<byte>, a: seq<byte>, b: seq<byte>, c: seq<byte>)
    requires all == a + b + c
    ensures |a| <= |all| && all[|a|..] == b + c
  {}

  lemma NothingAfterLastFrame(fl: Flow)
    requires FlowOk(fl)
    ensures Parse(Tail(fl)) == Err
  {
    var tail := Tail(fl);
    if fl.broken {
      var g :| Sized(g) && tail <= FrameBytes(g) && |tail| < |FrameBytes(g)|;
      ParsePartial(g, tail);
    }
  }

  lemma NextParse(fl: Flow)
    requires FlowOk(fl) && fl.taken < |fl.frames| && fl.read <= |fl.bytes|
    ensures var r := Parse(fl.bytes[fl.read..]); var g := fl.frames[fl.taken];
      r.Ok? && r.frame == g && |fl.bytes| - |r.rest| == fl.read + |FrameBytes(g)|
  {
    UnreadBytes(fl);
    var todo := fl.frames[fl.taken..];
    var g, rest := fl.frames[fl.taken], StreamBytes(todo[1..]) + Tail(fl);
    assert fl.bytes[fl.read..] == FrameBytes(g) + rest;
    ParseFrame(g, rest);
  }

  lemma TakeOne(fl: Flow)
    requires FlowOk(fl) && fl.taken < |fl.frames|
    ensures FlowOk(fl.(read := fl.read + |FrameBytes(fl.frames[fl.taken])|, taken := fl.taken + 1))
  {
    StreamAppend(fl.frames[..fl.taken], fl.frames[fl.taken]);
    assert fl.frames[..fl.taken + 1] == fl.frames[..fl.taken] + [fl.frames[fl.taken]];
  }

  /** The reader gets the frames in the order written, each whole: what it reads is the first frame
      it has not yet taken.  */
  lemma ReadIsNextFrame(fl: Flow, f: Frame)
    requires FlowOk(fl) && CanRead(fl, f)
    ensures fl.taken < |fl.frames| && f == fl.frames[fl.taken]
  {
    if fl.taken == |fl.frames| {
      UnreadBytes(fl);
      NothingAfterLastFrame(fl);
      assert false;
    }
    NextParse(fl);
  }

  lemma ReadKeepsFlow(fl: Flow, f: Frame)
    requires FlowOk(fl) && CanRead(fl, f)
    ensures FlowOk(AfterRead(fl))
  {
    ReadIsNextFrame(fl, f);
    NextParse(fl);
    TakeOne(fl);
  }

  lemma WriteKeepsFlow(fl: Flow, f: Frame)
    requires FlowOk(fl) && !fl.broken && Sized(f)
    ensures FlowOk(AfterWrite(fl, f))
  {
    StreamAppend(fl.frames, f);
    assert (fl.frames + [f])[..fl.taken] == fl.frames[..fl.taken];
    assert fl.bytes == StreamBytes(fl.frames);
  }

  lemma FailedWriteKeepsFlow(fl: Flow, f: Frame, cut: nat)
    requires FlowOk(fl) && Sized(f) && cut < |FrameBytes(f)|
    ensures FlowOk(AfterFailedWrite(fl, f, cut))
  {
    if !fl.broken {
      var whole := StreamBytes(fl.frames);
      assert fl.bytes == whole;
      var tail := FrameBytes(f)[..cut];
      assert (fl.bytes + tail)[|whole|..] == tail;
      assert Partial(tail);
    }
  }
}
