/** Channel::Impl of c++/src/channel.cc as an object: the strand code run on its fields, each stretch
    between two co_awaits proved to be the state change that `CppChannel` gives for it.  */
module CppChannelObject {
  import opened Framing
  import opened CppChannel
  import W = WritePump

  lemma DeliverAppend(s: Impl, ds: seq<Delivery>, d: Delivery, mayQueue: bool)
    ensures Deliver(Deliver(s, ds, mayQueue), [d], mayQueue) == Deliver(s, ds + [d], mayQueue)
  {
    assert Completions(ds + [d]) == Completions(ds) + Completions([d]);
    assert s.pushed + Completions(ds) + Completions([d]) == s.pushed + Completions(ds + [d]);
    assert s.delivered + ds + [d] == s.delivered + (ds + [d]);
  }

  lemma DeliverNone(s: Impl, mayQueue: bool)
    ensures Deliver(s, [], mayQueue) == s
  {
    assert s.pushed + Completions([]) == s.pushed && s.delivered + [] == s.delivered;
  }

  class ChannelImpl {
    const inline: bool
    var stopped: bool
    var connected: bool
    var connState: ConnState
    var connectWaiters: seq<Token>
    var pending: map<u32, Token>
    var nextCallId: u32
    var writeQueue: seq<Frame>
    var writePumpActive: bool
    var cbQueue: seq<Completion>
    var delivered: seq<Delivery>   // the callbacks run, in order
    var heard: seq<Note>           // the pushes given to on_push, in order
    ghost var st: Impl             // the fields above with the coroutines and the history

    ghost predicate Valid()
      reads this
    {
      && inline == st.inline && stopped == st.stopped && connected == st.connected && connState == st.state
      && connectWaiters == st.waiters && pending == st.pending && nextCallId == st.nextCallId
      && writeQueue == st.writer.queue && writePumpActive == st.writer.active
      && st.popped <= |st.pushed| && cbQueue == st.pushed[st.popped..] && delivered == st.delivered
      && heard == st.heard
    }

    constructor (inline: bool)
      ensures Valid() && st == InitImpl(inline)
    {
      this.inline := inline;
      stopped, connected, connState, connectWaiters, pending, nextCallId := false, false, Idle, [], map[], 1;
      writeQueue, writePumpActive, cbQueue, delivered, heard := [], false, [], [], [];
      st := InitImpl(inline);
    }

    // Run a callback now.
    method Invoke(d: Delivery)
      requires Valid()
      modifies this`delivered, this`st
      ensures Valid() && st == Deliver(old(st), [d], false)
    {
      delivered := delivered + [d];
      st := Deliver(st, [d], false);
    }

    // post_response and post_deferred.
    method Post(d: Delivery)
      requires Valid()
      modifies this`cbQueue, this`delivered, this`st
      ensures Valid() && st == Deliver(old(st), [d], true)
      ensures if inline then delivered == old(delivered) + [d] && cbQueue == old(cbQueue)
              else delivered == old(delivered) && cbQueue == old(cbQueue) + [Done(d)]
    {
      if inline {
        delivered := delivered + [d];
      } else {
        cbQueue := cbQueue + [Done(d)];
        assert Completions([d]) == [Done(d)];
      }
      st := Deliver(st, [d], true);
    }

    method Complete(d: Delivery, mayQueue: bool)
      requires Valid()
      modifies this`cbQueue, this`delivered, this`st
      ensures Valid() && st == Deliver(old(st), [d], mayQueue)
    {
      if mayQueue { Post(d); } else { Invoke(d); }
    }

    // `order` is the order in which the map happened to be walked.
    method FailAllPending(code: Code, mayQueue: bool) returns (order: seq<u32>)
      requires Valid()
      modifies this`pending, this`cbQueue, this`delivered, this`st
      ensures Lists(order, old(pending)) && Valid() && st == FailAll(old(st), order, code, mayQueue)
    {
      var snapshot := pending;
      pending := map[];
      st := st.(pending := map[]);
      ghost var s0 := st;
      var left := snapshot.Keys;
      order := [];
      DeliverNone(s0, mayQueue);
      while left != {}
        invariant Valid() && left <= snapshot.Keys
        invariant forall i :: 0 <= i < |order| ==> order[i] in snapshot && order[i] !in left
        invariant forall id :: id in snapshot ==> id in left || id in order
        invariant forall i, j :: 0 <= i < j < |order| ==> order[i] != order[j]
        invariant st == Deliver(s0, Fates(order, snapshot, code), mayQueue)
        decreases |left|
      {
        var id :| id in left;
        var d := Delivery(snapshot[id], code, []);
        DeliverAppend(s0, Fates(order, snapshot, code), d, mayQueue);
        assert Fates(order + [id], snapshot, code) == Fates(order, snapshot, code) + [d];
        Complete(d, mayQueue);
        order, left := order + [id], left - {id};
      }
    }

    method TellWaiters(code: Code, mayQueue: bool)
      requires Valid()
      modifies this`connectWaiters, this`cbQueue, this`delivered, this`st
      ensures Valid() && st == Deliver(old(st).(waiters := []), WaiterFates(old(st).waiters, code), mayQueue)
    {
      var waiters := connectWaiters;
      connectWaiters := [];
      st := st.(waiters := []);
      ghost var s0 := st;
      var i := 0;
      DeliverNone(s0, mayQueue);
      while i < |waiters|
        invariant 0 <= i <= |waiters| && Valid()
        invariant st == Deliver(s0, WaiterFates(waiters[..i], code), mayQueue)
      {
        var d := Delivery(waiters[i], code, []);
        DeliverAppend(s0, WaiterFates(waiters[..i], code), d, mayQueue);
        assert WaiterFates(waiters[..i + 1], code) == WaiterFates(waiters[..i], code) + [d];
        Complete(d, mayQueue);
        i := i + 1;
      }
      assert waiters[..i] == waiters;
    }

    method Finish(code: Code)
      requires Valid()
      modifies this`connState, this`connectWaiters, this`cbQueue, this`delivered, this`st
      ensures Valid() && st == CppChannel.Finish(old(st), code)
    {
      if code != OK && connState != Closed {
        connState := Idle;
        st := st.(state := Idle);
      }
      TellWaiters(code, true);
    }

    // The task RequestConnect posts; `spawn` says it starts ConnectCoro.
    method ConnectTask(tok: Token) returns (spawn: bool)
      requires Valid()
      modifies this`connState, this`connectWaiters, this`delivered, this`st
      ensures Valid() && st == CppChannel.ConnectTask(old(st), tok) && (spawn <==> st.coros == old(st).coros + 1)
    {
      spawn := false;
      if connState == Closed || stopped {
        Invoke(Delivery(tok, UNAVAILABLE, []));
        return;
      }
      if connState == Connected {
        Invoke(Delivery(tok, OK, []));
        return;
      }
      connectWaiters := connectWaiters + [tok];
      st := st.(waiters := connectWaiters);
      if connState == Idle {
        connState := Connecting;
        spawn := true;
        st := st.(state := Connecting, coros := st.coros + 1);
      }
    }

    // The end of ConnectCoro: `failure` is OK when every await succeeded.  `reader` says it starts ReadLoop.
    method ConnectCoroEnds(failure: Code) returns (reader: bool)
      requires Valid() && st.coros > 0
      modifies this`connected, this`connState, this`connectWaiters, this`cbQueue, this`delivered, this`st
      ensures Valid() && st == if failure != OK then ConnectFails(old(st), failure) else ConnectSucceeds(old(st))
      ensures reader <==> st.readersStarted == old(st).readersStarted + 1
    {
      reader := false;
      if failure != OK {
        Finish(failure);
      } else if connState == Closed || stopped {
        Finish(CANCELLED);
      } else {
        connState := Connected;
        reader := true;
        connected := true;
        st := st.(state := Connected, readers := st.readers + 1, readersStarted := st.readersStarted + 1,
          connected := true);
        Finish(OK);
      }
      st := st.(coros := st.coros - 1);
    }

    // The task AsyncUnaryCall posts; `spawn` says it starts WritePump.
    method CallTask(tok: Token, methodId: u32, request: seq<byte>) returns (spawn: bool)
      requires Valid()
      modifies this`pending, this`nextCallId, this`writeQueue, this`writePumpActive, this`cbQueue, this`delivered,
        this`st
      ensures Valid() && st == CppChannel.CallTask(old(st), tok, methodId, request)
      ensures spawn <==> st.writer.active && !old(st).writer.active
      ensures !stopped ==>
        && writeQueue == old(writeQueue)
             + [Frame(Header(REQUEST, 0, old(nextCallId), methodId, |request| % 0x1_0000_0000), request)]
        && nextCallId == (old(nextCallId) + 1) % 0x1_0000_0000
        && pending == if old(nextCallId) in old(pending) then old(pending) else old(pending)[old(nextCallId) := tok]
    {
      spawn := false;
      if stopped {
        Post(Delivery(tok, CANCELLED, []));
        return;
      }
      var callId := RegisterCall(tok);
      spawn := EnqueueRequest(Frame(Header(REQUEST, 0, callId, methodId, |request| % TWO32), request));
    }

    // The next call id is tok's, unless a call still pending has it.
    method RegisterCall(tok: Token) returns (callId: u32)
      requires Valid()
      modifies this`pending, this`nextCallId, this`st
      ensures Valid() && callId == old(nextCallId) && nextCallId == (callId + 1) % TWO32
      ensures pending == if callId in old(pending) then old(pending) else old(pending)[callId := tok]
      ensures st == old(st).(nextCallId := nextCallId, pending := pending,
                             dropped := old(st).dropped + if callId in old(pending) then {tok} else {})
    {
      callId := nextCallId;
      nextCallId := (nextCallId + 1) % TWO32;
      ghost var dropped := st.dropped;
      if callId in pending {
        dropped := dropped + {tok};
      } else {
        pending := pending[callId := tok];
      }
      assert dropped == st.dropped + if callId in old(pending) then {tok} else {};
      st := st.(nextCallId := nextCallId, pending := pending, dropped := dropped);
    }

    method EnqueueRequest(frame: Frame) returns (spawn: bool)
      requires Valid()
      modifies this`writeQueue, this`writePumpActive, this`st
      ensures Valid() && st == old(st).(writer := W.Push(old(st).writer, frame)) && spawn == !old(writePumpActive)
      ensures writeQueue == old(writeQueue) + [frame]
    {
      writeQueue := writeQueue + [frame];
      spawn := !writePumpActive;
      if spawn { writePumpActive := true; }
      st := st.(writer := W.Push(st.writer, frame));
    }

    // The task Shutdown posts.
    method ShutdownTask() returns (order: seq<u32>)
      requires Valid()
      modifies this`connState, this`pending, this`connectWaiters, this`cbQueue, this`delivered, this`st
      ensures Lists(order, old(pending)) && Valid() && st == CppChannel.ShutdownTask(old(st), order)
    {
      connState := Closed;
      st := st.(state := Closed);
      order := FailAllPending(CANCELLED, false);
      TellWaiters(CANCELLED, false);
    }

    // ReadLoop from one frame to the next read; `more` says the loop goes on.
    method ReadFrame(f: Frame) returns (more: bool, order: seq<u32>)
      requires Valid() && st.readers > 0
      modifies this`pending, this`cbQueue, this`delivered, this`heard, this`st
      ensures more ==> (forall i :: 0 <= i < |order| ==> order[i] in old(pending))
      ensures !more ==> Lists(order, old(pending))
      ensures Valid() && st == CppChannel.ReadFrame(old(st), f, order) && (more <==> st.readers == old(st).readers)
      ensures more <==> f.hdr.ftype == PUSH || f.hdr.ftype == RESPONSE
      ensures !more ==> pending == map[]
      ensures f.hdr.ftype == RESPONSE ==> Responded(f, old(pending), old(delivered), old(cbQueue))
      ensures f.hdr.ftype == PUSH ==> Noted(f, old(pending), old(delivered), old(cbQueue), old(heard))
    {
      more, order := true, [];
      if f.hdr.ftype == PUSH {
        TakePush(f);
        return;
      }
      if f.hdr.ftype != RESPONSE {
        order := FailAllPending(INTERNAL, true);
        st := st.(readers := st.readers - 1);
        more := false;
        return;
      }
      TakeResponse(f);
    }

    /** A response takes its id out of `pending`, and the callback that was there, if any, is told its status, and
        its payload with OK only: at once under Inline dispatch, through the queue otherwise.  */
    ghost predicate Responded(f: Frame, was: map<u32, Token>, told: seq<Delivery>, queued: seq<Completion>)
      reads this
    {
      && pending == was - {f.hdr.callId}
      && if f.hdr.callId !in was then delivered == told && cbQueue == queued
         else
           var d := Delivery(was[f.hdr.callId], f.hdr.status, if f.hdr.status == 0 then f.payload else []);
           if inline then delivered == told + [d] && cbQueue == queued
           else delivered == told && cbQueue == queued + [Done(d)]
    }

    // A push reaches on_push, at once or through the queue, and nothing else changes.
    ghost predicate Noted(f: Frame, was: map<u32, Token>, told: seq<Delivery>, queued: seq<Completion>,
                          notes: seq<Note>)
      reads this
    {
      var note := Note(f.hdr.methodId, f.payload);
      && pending == was && delivered == told
      && if inline then heard == notes + [note] && cbQueue == queued
         else heard == notes && cbQueue == queued + [PushNote(note)]
    }

    method TakePush(f: Frame)
      requires Valid() && st.readers > 0 && f.hdr.ftype == PUSH
      modifies this`cbQueue, this`heard, this`st
      ensures Valid() && st == CppChannel.ReadFrame(old(st), f, [])
      ensures Noted(f, pending, delivered, old(cbQueue), old(heard))
    {
      var note := Note(f.hdr.methodId, f.payload);
      if inline {
        heard := heard + [note];
        st := st.(heard := heard);
      } else {
        cbQueue := cbQueue + [PushNote(note)];
        st := st.(pushed := st.pushed + [PushNote(note)]);
      }
    }

    method TakeResponse(f: Frame)
      requires Valid() && st.readers > 0 && f.hdr.ftype == RESPONSE
      modifies this`pending, this`cbQueue, this`delivered, this`st
      ensures Valid() && st == CppChannel.ReadFrame(old(st), f, [])
      ensures Responded(f, old(pending), old(delivered), old(cbQueue))
    {
      if f.hdr.callId !in pending {
        assert pending - {f.hdr.callId} == pending;
        return;
      }
      var tok := pending[f.hdr.callId];
      pending := pending - {f.hdr.callId};
      st := st.(pending := pending);
      Post(Delivery(tok, f.hdr.status, if f.hdr.status == OK then f.payload else []));
    }
  }
}
