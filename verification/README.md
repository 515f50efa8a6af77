# protocomm, verified

protocomm is an RPC runtime in Go and C++ that share one wire format: a client channel multiplexes calls over a
TCP connection as frames with a 16-byte header, a server answers them out of order, a generator gives methods
their 32-bit ids by hashing, and a hand-written protobuf codec carries the messages. This project models that
runtime in Dafny and proves its protocol properties over every run.

`dafny verify dfyconfig.toml` checks everything.

| file | what it models |
|---|---|
| `Mpsc.dfy`, `MpscObject.dfy` | the lock-free completion queue: the transition system of all interleavings, and the object with `pop`, `RunCallbacks` and the drain of `Shutdown` |
| `GoChannel.dfy`, `GoClient.dfy`, `GoEffects.dfy` | the Go channel: its critical sections and read loop as a class, all runs of its goroutines, and why each callback is told what it is told |
| `GoServer.dfy`, `GoServerObject.dfy` | the Go server over all its connections, and `handleConn` and `serveRequest` as code |
| `Flows.dfy`, `EndToEnd.dfy`, `Ledger.dfy`, `WriteFailures.dfy`, `Pushes.dfy`, `EndToEndRuns.dfy` | the Go client, byte streams and the Go server together, their calls numbered and followed through a run, what a failed write leads to, pushes, and three runs built step by step |
| `CppChannel.dfy`, `CppClient.dfy`, `CppEffects.dfy`, `CppChannelObject.dfy` | the C++ channel: its strand code as functions, all runs of callers, strand, coroutines and shutdown, what each step tells whom and sends, and the strand code on real fields |
| `WritePump.dfy`, `CppSession.dfy` | the write queue and pump both C++ ends have, and the C++ server's request loop |
| `Framing.dfy`, `CppFraming.dfy` | the frame header in both languages and the stream of frames |
| `Hash.dfy`, `Routing.dfy` | FNV-1a, full names, the generators' collision scan and the id-keyed handler map |
| `Wire.dfy`, `WireBits.dfy`, `DecodeLoop.dfy`, `Switches.dfy`, `Endings.dfy`, `Messages.dfy`, `MessageCodec.dfy` | the protobuf codec: varints and fields, the varint loop on machine words, the Unmarshal loop for any switch and when it ends, the ten messages, and the code on `Encoder` and `Decoder` |

A component with concurrency is a state, labels, `Enabled` and `Apply`; a run is a list of labels, and a theorem
is about `Exec(Init(), ls)` for every legal `ls`. Code that works by assignment is a class whose methods are
proved to make the same state change.

Modelling decisions:

- Every atomic operation, critical section and stretch of strand code between two `co_await`s is one step, and
  steps are sequentially consistent. Callbacks and handlers return and do not throw.
- Sockets deliver bytes in order or fail; a direction on which a write failed partway is not written again.
  Connecting and its handshake succeed or fail as one step.
- Call ids are 32 bits and wrap. A Go call that finds its id pending overwrites the other callback (`lost`); a C++
  call that finds its id pending loses its own (`dropped`). Theorems that need ids not to alias say so, or hold
  for at most 2^32 calls. The Go generation is 64 bits and wraps; its theorems hold below 2^64 increments.
- Identities of callbacks, connections and goroutines are numbers that are not reused.
- Doubles are their 64 bits; strings are their bytes.

Properties that turned out false of the code, with what does hold:

- Termination of Unmarshal. A declared length can take the position out of the positive ints: reading such a text
  panics, and `Skip` moves back. `Messages.WildIffOverflow` says exactly for which data that happens: the loop comes
  to a known text field with pos + length of 2^63 or more, or to an unknown one whose length wraps to or before the
  field's start. On all other data the loop ends (`Messages.Terminates`), marshalled data among them
  (`Messages.LoopRoundTrip`); eleven bytes keep any of the ten Unmarshals looping for ever
  (`Messages.NeverTerminates`). On any data at all, the loop ends if and only if it has ended after as many turns as
  there are bytes (`Messages.EndsIffWithinLength`).
- Unknown fields. Fifteen bytes unmarshal to a message and, with a well-formed unknown field put at a field
  boundary, keep the loop going for ever (`Messages.InsertionCanSpin`). On data in which the loop comes to no such
  length, inserting unknown fields changes neither message nor error if and only if it still comes to none;
  otherwise an end-of-data error becomes a panic (`Messages.UnknownFieldsHarmless`).
- The no-orphan property of the Go channel, carried over to C++. After the C++ reader exits, a call can be
  registered that nothing but a failing write or `Shutdown` completes (`CppClient.ReaderExitOrphansCalls`,
  `CppClient.OrphanedForever`). A pending call has its reader exactly in the runs in which no read fails and no
  frame is read that is neither push nor response (`CppClient.PendingHasReaderIff`).
- Round trips. `HistoryResponse` loses its all-default messages and a double loses the sign of zero; the identity
  holds exactly when there are none (`Messages.HistoryRoundTripIff`, `Messages.RoundTripIff`).
- Failure codes. In a run the callback of a handler that failed with 65536 is told OK
  (`EndToEndRuns.FailureArrivesAsSuccess`); a failure arrives as one exactly when its code is not a multiple of 2^16
  (`EndToEnd.CodesSurviveTheWireIff`).
- Call ids. In a run of 2^32 + 1 calls a callback gets the answer to another call
  (`EndToEndRuns.IdReuseMisdelivers`); none does while ids are not reused when outstanding
  (`Ledger.CompletedCallsGotTheirOwnAnswer`), and a Go callback is overwritten only once 2^32 later calls were
  registered (`GoClient.LostWasOvertaken`).

## Model

| member | source | states |
|---|---|---|
| Mpsc.PopsInExchangeOrder | c++/src/mpsc_queue.h:19-57 | in every interleaving of any producers with the consumer, what `pop` returned is a prefix of the nodes in head-exchange order, the rest is exactly what the chain still holds, and the stub is never returned |
| Mpsc.NoWriteIntoFreedNode | c++/src/mpsc_queue.h:22-56 | no thread still owes a link write into a node `pop` returned, nor into the stub when it is pushed again; the stub is in the chain at most once |
| Mpsc.NullMeansEmptyOrOverlap | c++/src/mpsc_queue.h:26-57 | a `pop` that answers null found the queue empty or was overlapped by a push |
| Mpsc.ClearKeeps | c++/src/mpsc_queue.h:20 | the first store of `push` keeps the queue's invariant |
| Mpsc.ExchangeKeeps | c++/src/mpsc_queue.h:21 | the exchange of `push` keeps it, extending the chain by the node |
| Mpsc.LinkKeeps | c++/src/mpsc_queue.h:22 | the link store of `push` keeps it, closing the hole |
| Mpsc.ConsumeKeeps | c++/src/mpsc_queue.h:26-57 | every step of `pop`, stub re-insertion included, keeps it |
| MpscObject.MpscQueue.Pop | c++/src/mpsc_queue.h:26-57 | with any producers' steps between its atomic operations, `pop` ends in a reachable queue; undisturbed it takes exactly the first node |
| MpscObject.MpscQueue.PushStep | c++/src/mpsc_queue.h:19-23 | each atomic operation of `push` on the real memory is that step of the transition system |
| MpscObject.QuietPop | c++/src/mpsc_queue.h:26-57 | a `pop` with no push in progress removes the first completion, or finds none |
| MpscObject.MpscQueue.RunCallbacks | c++/src/channel.cc:432-448 | with no push in progress `RunCallbacks(max)` runs min(max, n) completions in order and leaves the others in order |
| MpscObject.MpscQueue.Drain | c++/src/channel.cc:335-339 | the drain of `Shutdown` frees every queued completion and leaves none |
| GoChannel.ReaderSettlesAll | go/channel.go:123-160 | a reader of the current generation leaves nothing pending: its teardown flushes exactly the calls without a response, and every other call's callback runs once, with the status of the first response to it and, if that is OK, its payload |
| GoChannel.Channel.ReadLoop | go/channel.go:123-160 | the read loop with its early exits is that run |
| GoChannel.Channel.EnsureConnected | go/channel.go:56-121 | with any other goroutines acting between its critical sections: OK is returned exactly when the channel is then open and live, a failure is the dial's or means closed, and a connection is installed with one reader of its generation only where no live one would be replaced |
| GoChannel.Channel.Install | go/channel.go:107-117 | installs the connection under a new generation unless closed |
| GoChannel.Channel.Register | go/channel.go:168-184 | admits a call exactly on an open live channel, under the next id, with the connection and generation it must use |
| GoChannel.Channel.Take | go/channel.go:138-144 | takes the callback of an id out of `pending` |
| GoChannel.Channel.Teardown | go/channel.go:229-249 | with the current generation disconnects and hands over every pending callback, with a stale one changes nothing |
| GoChannel.Channel.Close | go/channel.go:251-274 | the first Close disconnects for good and hands over every pending callback, later ones change nothing |
| GoClient.ExactlyOnePlace | go/channel.go:138-274 | in every run a callback is in exactly one place: with one goroutine, pending, invoked once, or overwritten |
| GoClient.LostWasOvertaken | go/channel.go:179-181 | in every run an overwritten callback was followed by at least 2^32 later registrations, so none is overwritten while at most 2^32 calls are registered |
| GoClient.QuiescentMeansAllInvoked | go/channel.go:162-274 | when all goroutines are done every callback was invoked exactly once, except overwritten ones; what it was told is in GoEffects.EveryInvocationHasItsCause, and that a failed write leaves none pending in WriteFailures.FailedWriteTearsDown |
| GoClient.NoOrphans | go/channel.go:107-160 | pending calls imply a live connection, and the live connection has exactly one reader with the current generation |
| GoClient.LiveReaderLeavesOnlyByFlush | go/channel.go:119-160 | that reader stops being so only by handing over to the goroutine it is started in, or by a teardown or Close that flushes every pending call |
| GoClient.GenerationSafety | go/channel.go:229-249 | a carried generation is current exactly when its connection is the live one, and a teardown changes the channel exactly then |
| GoClient.InstallInv | go/channel.go:107-117 | installing never overwrites a live connection, and keeps the invariant |
| GoClient.ClosedForever | go/channel.go:251-274 | after Close the channel stays closed, disconnected and without pending calls |
| GoEffects.FramesEndTheirCalls | go/channel.go:123-160 | in every run a response handled ends the call pending under its id and no other, whose callback the reader's next step runs with the response's status, and its payload with OK only; a push goes to OnPush with its method and payload; after any other frame the reader tears down with INTERNAL |
| GoEffects.EveryInvocationHasItsCause | go/channel.go:56-274 | in every run whatever a callback was told has its cause in the run: a response read with that status and payload, Close for CANCELLED, a frame of another type for INTERNAL, the dial's own failure, or a connection given up for UNAVAILABLE |
| GoServer.ConcurrencyBound | go/server.go:157-187 | over all connections, running requests are the tokens held minus those acquired for a request not yet started, and never exceed `maxConcurrent` |
| GoServer.ReleaseNeverBlocks | go/server.go:178-186 | returning the token and `inflight.Done` are always possible |
| GoServer.DisconnectAfterAnswers | go/server.go:129-142 | `onDisconnect` runs only after each dispatched request of the peer had exactly one response write attempted, with its own ids |
| GoServerObject.ServerObject.HandleConn | go/server.go:129-189 | whatever other goroutines do before each of its steps, it starts one request for each of the first frames, all of them REQUEST, in order, and no other; it is left waiting only where no token is free for the next request or one of its own has not finished; when it returns, its session is gone, every request finished and was answered exactly once, and unless the server is shutting down no leading request was left out |
| GoServerObject.ServerObject.Dispatch | go/server.go:155-187 | one turn of the request loop: a REQUEST frame becomes one new started request of the peer, or waits where every token is taken and the server is not shutting down; the loop ends without one exactly for another frame or when the server is shutting down |
| GoServerObject.ServerObject.ServeRequest | go/server.go:191-236 | whatever other goroutines do before each of its steps, a request is answered exactly once under its own ids, then gives back token and count |
| GoServerObject.ServerObject.Answer | go/server.go:203-216 | the answer is the handler's code, with its payload only if that is OK, if a handler was registered, and UNIMPLEMENTED with no payload if none is even afterwards |
| Flows.ReadIsNextFrame | go/frame.go:60-74 | what a reader gets from a byte stream, even after a write that broke off, is the next frame written |
| Flows.WriteKeepsFlow | go/frame.go:47-58 | a whole write appends its frame to the stream |
| Flows.FailedWriteKeepsFlow | go/frame.go:47-58 | a write that fails partway adds no readable frame |
| EndToEnd.CompletedCallsGotTheirAnswer | go/channel.go:123-200 | in every run of client, streams and server, with any reconnects and failures, a callback invoked with OK got the payload `serveRequest` produced for that same call's method and request, given payloads under 2^32 bytes and no id reused while a call or a frame the client can still read has it |
| EndToEnd.FirstCallsGotTheirAnswer | go/server.go:164-236 | the same with no condition on ids for at most 2^32 calls |
| EndToEnd.CodesSurviveTheWireIff | go/server.go:207-228 | in every such run a response that completes a call tells its callback the low 16 bits of the code `serveRequest` produced for that same call, and a failure exactly when that code is not a multiple of 2^16 |
| Ledger.OneAnswerPerCall | go/server.go:155-236 | with calls numbered by registration, in every such run each is answered at most once, with an answer to that call's method and request |
| Ledger.CompletedCallsGotTheirOwnAnswer | go/channel.go:123-200 | in every such run a callback invoked with OK got the payload of the answer to its own registration, even where an earlier call had the same id, method and request |
| Ledger.Comes | go/frame.go:47-74 | every request or response in flight comes, with its id, from one that was there before the step, but for a new request and a push |
| WriteFailures.FailedWriteTearsDown | go/channel.go:194-199 | in every such run, when a write to the live connection has failed, some goroutine is about to tear it down under the current generation with UNAVAILABLE; so once none is, no connection a write to which failed is live, and no call registered on one is pending |
| WriteFailures.TeardownTellsUnavailable | go/channel.go:229-249 | that teardown ends the connection and takes every pending callback with it, to tell each UNAVAILABLE |
| Pushes.PushesHeardInOrder | go/channel.go:131-136 | in every such run what OnPush heard of a connection is the first of what was pushed to it, in order, with method and payload, and it is all of what was read once no reader holds a push |
| EndToEndRuns.SomeCallIsAnswered | go/channel.go:123-200 | a run within those conditions in which a call is answered with OK |
| EndToEndRuns.FailureArrivesAsSuccess | go/server.go:222-228 | a run within them in which a handler fails with 65536 and the callback is told OK |
| EndToEndRuns.IdReuseMisdelivers | go/channel.go:138-181 | the condition on ids is needed: a run of 2^32 + 1 calls in which a callback told OK has a payload that no answer to its call had |
| CppClient.ExactlyOnePlace | c++/src/channel.cc:83-106 | in every run a callback is in exactly one place: with its caller, a posted task, `pending`, waiting, the completion queue, delivered once, discarded, or dropped |
| CppClient.ShutdownSettles | c++/src/channel.cc:306-340 | when Shutdown returns, every callback that had left its caller when Shutdown began was delivered once, or freed unrun (Manual dispatch only), or dropped |
| CppClient.InlineShutdownInvokesAll | c++/src/channel.cc:306-340 | under Inline dispatch, with at most 2^32 calls, every callback that had left its caller when Shutdown began has been invoked exactly once when it returns |
| CppClient.ConnectsOnce | c++/src/channel.cc:144-233 | at most one `ConnectCoro` in flight, at most one `ReadLoop` ever, `connected` set exactly by it, and waiters only while a `ConnectCoro` is in flight |
| CppClient.ClosedForever | c++/src/channel.cc:144-229 | Closed is absorbing: no connection and no reader after it |
| CppClient.PendingEndsByItsOwnResponse | c++/src/channel.cc:235-304 | in every run a call leaves `pending` only by being told: the status and payload of a response carrying its own id, or a failure; that a response does end its call is in CppEffects.FramesEndTheirCalls |
| CppClient.ToldForGood | c++/src/channel.cc:83-106 | nothing delivered or queued is changed or taken back later |
| CppClient.WaitersHearTheVerdict | c++/src/channel.cc:204-229 | in every run a connect waiter stops waiting only by being told, and hears OK exactly when the channel has connected |
| CppClient.RequestsNeverInterleave | c++/src/channel.cc:278-407 | requests go out whole and in order with consecutive ids until a write fails; a non-empty queue has exactly one pump; what the requests hold is in CppEffects.CallsGoOut |
| CppClient.PendingHasReaderIff | c++/src/channel.cc:204-275 | in every run a pending call implies a channel that has connected, and a reader exactly when no read failed and no frame other than push or response was read |
| CppClient.ReaderExitOrphansCalls | c++/src/channel.cc:235-257 | a run in which a call is registered on an open channel whose reader has gone |
| CppClient.OrphanedForever | c++/src/channel.cc:235-304 | such a call stays pending through every run in which no write fails and Shutdown's task does not run |
| CppClient.StepAccounts | c++/src/channel.cc:83-448 | every step moves callbacks from place to place without losing or copying one |
| CppEffects.EveryStepTells | c++/src/channel.cc:83-448 | in every run every step tells exactly the deliveries its cause names: a refused connect or call its error, every waiter the verdict, a response's own call its status and payload, every pending call the failure of its connection or CANCELLED, and a turn of RunCallbacks what was queued first |
| CppEffects.FramesEndTheirCalls | c++/src/channel.cc:245-275 | in every run a response read ends the call pending under its id, which alone is told, its status, and its payload with OK only; all others stay pending; a push tells no call; any other frame ends every call with INTERNAL |
| CppEffects.CallsGoOut | c++/src/channel.cc:376-408 | in every run the k-th frame enqueued is the REQUEST of the k-th call run, status 0, id (1 + k) modulo 2^32, with the method and request its AsyncUnaryCall was given and that request's size; a pending callback is that of a call with its id |
| CppEffects.CallTakesItsId | c++/src/channel.cc:393-394 | in every run a call's task registers its callback under that id unless one is pending there, in which case it is dropped |
| CppEffects.QueueRunsInOrder | c++/src/channel.cc:432-448 | in every run until Shutdown has returned, the turns of RunCallbacks tell exactly the deliveries queued, in their order, and every push read reaches `on_push` in order, at once under Inline dispatch and in its turn under Manual |
| CppEffects.ManualDispatchDefers | c++/src/channel.cc:83-106 | under Manual dispatch a callback runs outside RunCallbacks only to answer a request to connect or in Shutdown; under Inline none is ever queued |
| CppChannelObject.ChannelImpl.Post | c++/src/channel.cc:83-106 | runs a callback at once under Inline dispatch, queues it otherwise |
| CppChannelObject.ChannelImpl.FailAllPending | c++/src/channel.cc:293-304 | whatever the map's order, every pending call fails once and none is left |
| CppChannelObject.ChannelImpl.Finish | c++/src/channel.cc:220-229 | tells every waiter once, in order, and goes back to Idle after a failure unless closed |
| CppChannelObject.ChannelImpl.ConnectTask | c++/src/channel.cc:160-175 | refuses, confirms, or adds a waiter and starts `ConnectCoro` exactly from Idle |
| CppChannelObject.ChannelImpl.ConnectCoroEnds | c++/src/channel.cc:204-217 | the end of `ConnectCoro`: connects and starts the reader only if neither stopped nor closed |
| CppChannelObject.ChannelImpl.CallTask | c++/src/channel.cc:384-408 | queues the REQUEST frame of the call under the next id, with its method, request and size, takes the id for it unless one is pending there, and starts a pump exactly when none is active |
| CppChannelObject.ChannelImpl.ShutdownTask | c++/src/channel.cc:316-326 | closes the channel and cancels every pending call and every waiter |
| CppChannelObject.ChannelImpl.ReadFrame | c++/src/channel.cc:245-275 | one turn of the read loop: a push reaches `on_push`, a response's own call and no other is told its status and payload, any other frame ends the reader with every pending call told INTERNAL |
| WritePump.FramesNeverInterleave | c++/src/session.cc:35-61 | one pump at most, active while frames wait; until a write fails, frames handed in are those written, in flight and queued in order, and the wire holds them back to back |
| WritePump.PeerReadsPrefix | c++/src/session.cc:35-61 | so the peer reads a prefix of the frames handed in |
| WritePump.StepKeeps | c++/src/channel.cc:278-291 | every step of queue and pump keeps that |
| WritePump.FrameWriter.EnqueueTask | c++/src/session.cc:39-44 | appends the frame and starts a pump exactly when none is active |
| WritePump.FrameWriter.RunPump | c++/src/session.cc:48-61 | the pump writes the frames waiting and those handed in meanwhile, in order, until the queue is dry or a write fails, which it says exactly; it ends inactive with an empty queue, and without a failure everything handed in is on the wire |
| CppSession.Serve | c++/src/session.cc:119-145 | the response has the request's ids, the low 16 bits of the handler's code, its payload exactly with OK, and that payload's size, or UNIMPLEMENTED and no payload where there is no handler |
| CppSession.Run | c++/src/session.cc:105-148 | every request read before the first frame that is none gets exactly one such response, in order, and no other frame does |
| CppSession.RequestsPrefix | c++/src/session.cc:105-111 | those requests are the longest prefix of requests among the frames read |
| CppSession.PeerSeesAnswersInOrder | c++/src/session.cc:35-147 | with pushes sent at any time, the responses among the frames the peer reads are the first answers to its requests, in order, until a write fails |
| Framing.HeaderRoundTrip | go/frame.go:26-45 | deserialising a serialised header gives it back |
| Framing.HeaderLayout | go/frame.go:26-35 | type, a zero byte, then status, call id, method id and payload size, each big-endian at its offset |
| Framing.BytesRoundTrip | go/frame.go:26-45 | serialising a deserialised header gives the 16 bytes back, the reserved one as zero |
| Framing.SelfDelimitingIffSized | go/frame.go:47-74 | a frame reads back whatever follows it exactly when PayloadSize is its payload's length |
| Framing.StreamRoundTrip | go/frame.go:47-74 | reading the concatenation of such frames gives exactly the frames |
| Framing.ParseAnyPrefix | go/frame.go:60-74 | any byte prefix of it gives a prefix of the frames and then an error |
| Framing.WholeIsMaximal | go/frame.go:60-74 | namely the frames that lie wholly inside it |
| Framing.Serialize | go/frame.go:26-35 | fills the buffer with the header's bytes |
| Framing.Stream.WriteFrame | go/frame.go:47-58 | appends header and payload |
| Framing.Stream.ReadFrame | go/frame.go:60-74 | takes one frame off the stream, or fails where none is whole |
| Framing.SendAndReceive | go/frame.go:47-74 | frames written one by one are read back one by one |
| CppFraming.EncodersAgree | c++/src/frame.h:24-32 | C++ and Go serialise every header to the same bytes |
| CppFraming.DecodersAgree | c++/src/frame.h:34-57 | C++ and Go read every 16 bytes as the same header |
| CppFraming.CrossLanguageRoundTrip | c++/src/frame.h:24-57 | a header written by one side is read back by either |
| CppFraming.WriteBE32 | c++/src/frame.h:45-50 | writes four bytes in place and no others |
| CppFraming.Serialize | c++/src/frame.h:24-32 | fills the buffer with the bytes Go would write |
| Hash.HashIsBijectiveOnState | go/hash.go:3-10 | hashing a fixed string is a bijection on the 32-bit state, undone with multiplier 0x359C449B |
| Hash.OneByteChangeNeverCollides | go/hash.go:3-17 | equal-length strings that differ in exactly one byte never share a hash |
| Hash.KnownValues | go/hash_test.go:15-18 | the published FNV-1a values of "", "a", "foo" and "foobar" |
| Hash.Fnv1a32 | go/hash.go:3-10 | the loop computes the hash |
| Hash.CppFnv1a32 | c++/include/protocomm/method_hash.h:7-14 | the loop hashes up to the first NUL |
| Hash.CppHashesWholeNameIffNulFree | c++/include/protocomm/method_hash.h:7-14 | so it hashes the whole name exactly when the name has no NUL, and then agrees with Go |
| Routing.FullNamesAgree | c++/protoc/generator_utils.cpp:14-25 | both generators build the same full name |
| Routing.FullNameInjective | go/protoc-gen-protocomm-go/main.go:70-75 | distinct (package, service, method) of valid identifiers have distinct full names |
| Routing.KnownName | go/hash_test.go:33-34 | "/Greeter/SayHello" for a method without a package |
| Routing.KnownNameInPackage | go/hash_test.go:35 | "/math.Calculator/Add" for one in a package |
| Routing.NamesExact | go/protoc-gen-protocomm-go/main.go:27-44 | the names scanned are exactly the full names of the methods of the services of the files |
| Routing.ScanService | go/protoc-gen-protocomm-go/main.go:31-43 | with the names before it indexed, every method of the service is indexed under its full name's hash, or two distinct names with one hash are reported |
| Routing.ScanFile | go/protoc-gen-protocomm-go/main.go:27-44 | the same for every method of every service of a file |
| Routing.PreScan | c++/protoc/plugin.cpp:32-54 | the scan accepts exactly when no two methods declared in any service of any file have distinct full names with the same hash, and a rejection names such a pair |
| Routing.PreScansAgree | go/protoc-gen-protocomm-go/main.go:25-68 | the two generators accept the same files |
| Routing.IdFindsName | go/server.go:203-205 | for an accepted set, looking up by id finds what looking up by name would |
| Routing.HashTableAgreesIffCollisionFree | go/server.go:58-62 | the id-keyed table agrees with a name-keyed one for every registration exactly when the names are collision free |
| Routing.RegistrationOrderIrrelevant | go/server.go:58-62 | and the order of registration does not matter |
| Routing.HandlerTable.RegisterMethod | go/server.go:58-62 | adds the registration |
| Routing.HandlerTable.Route | go/server.go:203-208 | finds the handler last registered under the id, by name for an accepted set |
| WireBits.WordAgrees | go/internal/testpb/wire.go:97-113 | on every input the shifts and ors of the varint loop on 64-bit words give the number, or the error, that the sums of the model give |
| Wire.VarintRoundTrip | go/internal/testpb/wire.go:22-113 | reading a written varint gives its value and stops behind it |
| Wire.VarintLayout | go/internal/testpb/wire.go:22-28 | a written varint is base 128, lowest group first, with the top bit on every byte but the last and no byte too many |
| Wire.ReadVarintLocal | go/internal/testpb/wire.go:97-113 | a varint ends where it says, whatever follows |
| Wire.TagRoundTrip | go/internal/testpb/wire.go:30-121 | reading a written tag gives field number and wire type |
| Wire.Fixed64RoundTrip | go/internal/testpb/wire.go:52-134 | reading a written fixed64 gives its bits |
| Wire.Fixed64Layout | go/internal/testpb/wire.go:52-60 | a written fixed64 is eight bytes, lowest first |
| Wire.BytesRoundTrip | go/internal/testpb/wire.go:43-157 | reading a written length-delimited value gives its bytes |
| Wire.Encoder.AppendVarint | go/internal/testpb/wire.go:22-28 | the loop appends the varint |
| Wire.Encoder.EncodeBytes | go/internal/testpb/wire.go:34-50 | appends the field, or nothing for an empty value |
| Wire.Encoder.EncodeUint64 | go/internal/testpb/wire.go:62-84 | appends the field, or nothing for zero |
| Wire.Encoder.EncodeDouble | go/internal/testpb/wire.go:52-60 | appends the field, or nothing for either zero |
| Wire.Decoder.ConsumeVarint | go/internal/testpb/wire.go:97-113 | the loop reads the varint at the position, or fails at the end or after ten bytes |
| Wire.Decoder.ReadBytes | go/internal/testpb/wire.go:144-157 | reads the value at the position, fails on a length beyond the data, panics on one no int reaches |
| Wire.Decoder.ReadFixed64 | go/internal/testpb/wire.go:127-134 | reads eight bytes or fails |
| Wire.Decoder.Skip | go/internal/testpb/wire.go:167-197 | moves to where the field ends, which a huge length puts behind it |
| DecodeLoop.UnknownFieldsIgnored | go/internal/testpb/messages.go:145-167 | for any switch, skipped fields woven between fields change nothing |
| DecodeLoop.WildIffVisits | go/internal/testpb/messages.go:147-165 | for any switch with an exact guard, the loop panics or moves back exactly when it comes to a field the guard holds of |
| DecodeLoop.LoopEnds | go/internal/testpb/messages.go:147-165 | otherwise the loop as it is ends, within as many turns as there are bytes |
| DecodeLoop.InsertionHarmless | go/internal/testpb/messages.go:145-167 | for any switch, skipped fields put at a field boundary of data that comes to no such field change neither message nor error |
| Endings.InsertionTips | go/internal/testpb/wire.go:144-197 | for any switch, a length that overflows only because of inserted fields ran into the end of the data before, and panics after |
| Endings.EndsWithin | go/internal/testpb/messages.go:147-165 | for any switch whose turns go the same way whatever the message so far, a loop that ends at all has ended, alike, after as many turns as there are bytes |
| Switches.LoopRegular | go/internal/testpb/messages.go:147-165 | a loop whose switch uses only the decoder's reads does not see beyond a field, nor where in the buffer it stands |
| Switches.LoopGuarded | go/internal/testpb/messages.go:147-165 | and a guard that is exact for its switch is exact for the loop |
| Switches.ReadsWildIff | go/internal/testpb/wire.go:144-197 | a text read panics, and a skip moves back or panics, exactly when the declared length overflows |
| Switches.SkipAdvancesIff | go/internal/testpb/wire.go:167-197 | skipping moves on exactly unless the declared length takes the sum past the positive ints and not just back into the field |
| Switches.UnknownSkips | go/internal/testpb/messages.go:159-161 | a well-formed field of an unknown number is skipped whole |
| Switches.EndlessSpins | go/internal/testpb/wire.go:184-193 | eleven bytes keep any loop that does not know field 4 at position zero for ever |
| Messages.RoundTrip | go/internal/testpb/messages.go:7-346 | each flat message comes back from its bytes with -0.0 as +0.0 |
| Messages.KnownBytes | go/compat_test.go:89-137 | for every name under 128 bytes and all doubles that are not zero, a HelloRequest is 0x0A, the length and the name, and a CalcRequest 0x09, eight bytes, 0x11 and eight bytes |
| Messages.RoundTripIff | go/internal/testpb/messages.go:68-129 | unchanged exactly when no field is -0.0 |
| Messages.HistoryRoundTrip | go/internal/testpb/messages.go:242-282 | a HistoryResponse comes back with the same total and without its all-default messages |
| Messages.HistoryRoundTripIff | go/internal/testpb/messages.go:242-282 | unchanged exactly when no message is all default |
| Messages.EmptyIffDefault | go/internal/testpb/messages.go:137-143 | a ChatMessage marshals to nothing exactly when it is all default |
| Messages.UnknownFieldsInvisible | go/internal/testpb/messages.go:145-167 | any runs of well-formed unknown fields at every field boundary of a marshalled flat message change nothing |
| Messages.HistoryUnknownFieldsInvisible | go/internal/testpb/messages.go:251-282 | the same for HistoryResponse |
| Messages.UnknownFieldsHarmless | go/internal/testpb/messages.go:145-167 | put at a field boundary of any data in which the loop comes to no overflowing length, they change neither the message nor the error the loop ends with if and only if it still comes to none; otherwise an end of data becomes a panic |
| Messages.HistoryUnknownFieldsHarmless | go/internal/testpb/messages.go:251-282 | the same for HistoryResponse |
| Messages.InsertionCanSpin | go/internal/testpb/wire.go:167-197 | without that condition it is false: fifteen bytes return a message, and with an unknown field inserted never return |
| Messages.WildIffOverflow | go/internal/testpb/wire.go:144-197 | Unmarshal of a flat message panics or moves back if and only if it comes to a declared length that overflows |
| Messages.HistoryWildIffOverflow | go/internal/testpb/messages.go:251-282 | the same for HistoryResponse, nested messages included |
| Messages.Terminates | go/internal/testpb/messages.go:145-167 | if it comes to none, the loop ends with a message or an error value, in at most as many turns as there are bytes |
| Messages.HistoryTerminates | go/internal/testpb/messages.go:251-282 | the same for HistoryResponse |
| Messages.EndsIffWithinLength | go/internal/testpb/messages.go:145-167 | on any data, rewinding or not, a flat message's loop that ends at all has ended, alike, after as many turns as there are bytes |
| Messages.HistoryEndsIffWithinLength | go/internal/testpb/messages.go:251-282 | the same for HistoryResponse and its nested loops |
| Messages.LoopRoundTrip | go/internal/testpb/messages.go:7-346 | so the loop ends on every marshalled flat message, with that message |
| Messages.HistoryLoopRoundTrip | go/internal/testpb/messages.go:242-282 | and on every marshalled HistoryResponse |
| Messages.NeverTerminates | go/internal/testpb/wire.go:184-193 | none ends on the endless bytes |
| MessageCodec.Marshal | go/internal/testpb/messages.go:7-346 | the calls on the Encoder append the message's fields in order |
| MessageCodec.MarshalHistory | go/internal/testpb/messages.go:242-249 | the loop over messages and the total do too |
| MessageCodec.ReadValue | go/internal/testpb/messages.go:152-161 | one case of a switch: the field's value, truncated to its type, or the error |
| MessageCodec.Unmarshal | go/internal/testpb/messages.go:145-167 | for any number of turns the loop on the Decoder goes where the specified one goes, and where no length overflows it ends with what is specified |
| MessageCodec.UnmarshalHistory | go/internal/testpb/messages.go:251-282 | so does the loop with the nested Unmarshal |
| MessageCodec.Exchange | go/internal/testpb/messages.go:242-282 | unmarshalling what was marshalled returns the history without its all-default messages |

## Left out

- Weak memory orderings of the C++ atomics: every atomic operation is one sequentially consistent step.
- The drain of the C++ Shutdown is one step: a push half done would end it early, but Shutdown runs from the destructor, after the io thread was joined, when no caller may be in the channel.
- Liveness: nothing says that a blocked goroutine, coroutine or Shutdown ever goes on, only what holds when it does.
- Sockets, name resolution, Boost.Asio, thread creation and the transport layer beyond reading and writing frames or failing.
- The handshake bytes: a handshake succeeds or fails with the connection it belongs to.
- Broadcast, GetConnections, Port, builders, interceptors, tracing and status messages: setters, snapshots and logging.
- Code emission of the two generators, and the generated files.
- Null callbacks and an unset `on_push`: all are taken to be set.
- Go's `UnaryCall`: it waits for the callback of `AsyncUnaryCall`.
- MessageCodec.Unmarshal: runs for a given number of turns, because on some data the source never ends; one turn per byte is enough wherever no length overflows.
- MessageCodec.UnmarshalHistory: the same, with as many turns for each nested Unmarshal.
- MessageCodec.Marshal: one loop over the fields' types stands for the nine Marshal methods written out in the source.
- WireBits.WordAgrees: the encoder's shifts are modelled as divisions only, which for unsigned numbers they are.
- Messages.RoundTrip: the receiver is a zero value, and what a failed Unmarshal leaves in it is not modelled.
- CppSession.Run: the handler's answers are given by a function of the request's number, method and payload.
- CppChannelObject.ChannelImpl.CallTask: the pump's coroutine is not run in place; WritePump.FrameWriter.RunPump runs it.
