# Verified model of ssh_proxy

ssh_proxy carries many proxied TCP and UDP streams over one connection between a
local controller and a remote peer. The two ends speak SPX, a framed protocol,
over whatever transport the route selected. This project models the parts of the
repository where concurrency, encoding or string handling make the behaviour hard
to see from the code, and proves what they keep.

* **The SPX multiplexer** (`Pipes`, `Mux`, `MuxInvariant`, `MuxProofs`,
  `MuxTheorems`, `MuxOrder`, `MuxEnds`, `BridgeObject`). Controller and remote form one transition
  system: a step is one lock section or one await point of one task, and any enabled
  step may come next, so the theorems are about every interleaving of callers, timers,
  both reader loops, both writer tasks, the spawned remote tasks and the shutdown
  clean-up, and about loss of the connection at any moment. `BridgeObject` is the
  controller's shared object. Its calls are written out lock section by lock section on
  the object's fields; between two sections any steps of other tasks may happen. Callers
  send data only on an id that a successful open returned, as `data_plane.rs` does,
  and at most 2^32 ids are allocated; `IdsDistinctIff` shows that this bound is exact.
* **The SPX wire layer** (`Bytes`, `Utf8Text`, `Frames`, `Streams`, `FrameCodec`,
  `FrameIO`, `Handshake`). `FrameCodec` is a plain codec on byte sequences; `FrameIO` is the
  code that reuses buffers, splits writes and reads, and batches, proved to refine it
  for every way a transport may split its work or fail. `Handshake` runs the peer
  handshake of both sides against each other.
* **The bridge pool** (`BridgePool`). Selection of the least loaded bridge with a
  rotating tie-break, and the stream counters that reconnects reset.
* **Text and policy** (`ActionArguments`, `Wildcard`, `ServerEnv`, `Redaction`,
  `RouteConflict`, `RouteDecision`, over `Characters`, `Json`, `Sequences`, `TextLines`
  and `ManagedBlocks`). Quoting against the parser that undoes it, a greedy matcher
  against the language of its patterns, an editor of a managed block against its own
  output, redaction as non-interference, admission of routes over whole runs, and the
  choice of a transport over any number of probes and fallbacks.

`dafny verify dfyconfig.toml` checks the project.

Some laws one would expect do not hold of the code as it is. For each there is a
concrete counterexample and a lemma that says exactly when the law holds:

* The host matcher takes the leftmost place for the last literal of a pattern. For a
  pattern that does not end in `*` it accepts a text of the language exactly when no
  proper prefix is in the language too (`StarSuffixIncomplete`, `MatcherIsExact`).
* A slot's stream counter equals its live streams exactly when the slot had no live
  stream at some moment since its last reset (`ResetUndercounts`, `CounterExactIff`).
* The rotating tie-break is fair exactly unless its 32-bit counter wraps inside a series
  and the number of tied slots does not divide 2^32 (`WrapRepeats`, `RotationIsFair`).
* Rewriting the environment file twice is the same as once exactly when no line outside
  the old blocks ends in a carriage return and no text of the first block lies outside
  its markers (`ReturnIsLost`, `BreakEscapes`, `RebuildReplaces`).
* Re-encoding a decoded payload gives the same bytes exactly when its flag byte is one
  that the encoder writes (`FlagRewritten`, `EgressByteAdded`, `DecodedReencodes`).

## Model

| member | source | states |
|---|---|---|
| `MuxProofs.StepKeepsInv` | crates/ssh-proxy/src/bridge.rs:166-448 | every step of every task of both ends keeps the system invariant |
| `MuxProofs.RunInv` | crates/ssh-proxy/src/remote.rs:158-363 | the invariant holds at every point of every run |
| `MuxTheorems.NoEarlyData` | crates/ssh-proxy/src/remote.rs:293-303 | a TCP data frame in flight to the remote belongs to a stream that the remote registered in an earlier step of the run |
| `MuxTheorems.StreamIsPrefix` | crates/ssh-proxy/src/bridge.rs:365-394 | in each direction, what a stream's receiver was handed is a prefix of what was enqueued for that stream: no gap, reordering, duplicate or mix-up, whatever closes, timeouts and other streams do |
| `MuxTheorems.DropIsNotified` | crates/ssh-proxy/src/bridge.rs:365-434 | a stream or UDP association that a reader drops for backpressure leaves its map, and before the reader does anything else a Close for it goes to its sender, queued unless that writer is gone |
| `MuxTheorems.FrameOrigin` | crates/ssh-proxy/src/bridge.rs:310-321 | every frame in flight was sent, as it is, by an earlier step of the run |
| `MuxTheorems.ConnectsAsAsked` | crates/ssh-proxy/src/remote.rs:184-196 | when a remote task connects, it is to the host and port of a request that a caller sent for that id, through the egress proxy asked for or else the remote's default |
| `MuxTheorems.ConnectsOnce` | crates/ssh-proxy/src/remote.rs:184-196 | the remote starts at most one task for an open |
| `MuxTheorems.AnswersAsSent` | crates/ssh-proxy/src/remote.rs:352-361 | the answer that resolves an open, with its outcome and message, is the one that the remote's task for that id sent |
| `MuxTheorems.NothingLost` | crates/ssh-proxy/src/remote.rs:197-225 | while a stream is routed and the sender's writer runs, chunks delivered and chunks in flight together are all the chunks enqueued |
| `MuxOrder.FramesInOrder` | crates/ssh-proxy/src/bridge.rs:310-321 | while the writer runs, the frames in flight in a direction are the last ones sent there, in the order they were sent |
| `MuxOrder.CloseComesLast` | crates/ssh-proxy/src/remote.rs:306-351 | when the reader gets to the Close that a remote task sent after its relay was over, every chunk enqueued for the stream has arrived, if the route still lives and the writer still runs |
| `MuxTheorems.History` | crates/ssh-proxy/src/bridge.rs:213-219 | the model's record of a stream equals the history of sends and receives read off the run's own actions |
| `MuxTheorems.OpenResolution` | crates/ssh-proxy/src/bridge.rs:172-211 | an open is replied to at most once; when it has returned its id is out of the pending map, and out of the stream map if it failed; it succeeded only on an ok result with its own id, after the remote had registered the stream |
| `MuxTheorems.SlotStaysOverRun` | crates/ssh-proxy/src/bridge.rs:360-364 | a reply once sent to an open is never replaced later in the run |
| `MuxTheorems.NoLostReply` | crates/ssh-proxy/src/bridge.rs:192-210 | a waiting open has its sender in the pending map or its reply in the slot, never both and never neither |
| `MuxTheorems.DrainAnswersAll` | crates/ssh-proxy/src/bridge.rs:331-342 | every open pending at the shutdown drain gets exactly that one error, keeps it, and never succeeds |
| `MuxTheorems.NoLateOpen` | crates/ssh-proxy/src/bridge.rs:331-342 | an open that was not accepted by the time the reader ended never succeeds |
| `MuxTheorems.MapsDrain` | crates/ssh-proxy/src/bridge.rs:331-342 | once no open is in progress the pending map is empty, and after the clean-up the stream map is too |
| `MuxTheorems.OpenIsBounded` | crates/ssh-proxy/src/bridge.rs:166-211 | an open takes at most six steps of its own whatever the rest of the system does |
| `MuxTheorems.OnlyBackpressureBlocks` | crates/ssh-proxy/src/bridge.rs:175-191 | an open in progress can take a step in every state except exactly while the writer's queue is full |
| `MuxTheorems.OpenEndsAfterCleanup` | crates/ssh-proxy/src/bridge.rs:331-342 | an open that races the clean-up can run to its end on its own steps alone |
| `MuxTheorems.IdsDistinctIff` | crates/ssh-proxy/src/bridge.rs:300-307 | the wrapping counter issues distinct ids for up to 2^32 allocations and not beyond |
| `MuxTheorems.IssuedIdsDistinct` | crates/ssh-proxy/src/bridge.rs:172-176 | no two allocations of a run issue the same id |
| `MuxTheorems.MapsHoldIssuedIds` | crates/ssh-proxy/src/bridge.rs:233-238 | every id in a map of either end was issued earlier in the run, and none is in both the TCP and the UDP map |
| `MuxEnds.StepKeepsEnds` | crates/ssh-proxy/src/remote.rs:158-363 | every step also keeps the second invariant, on what readers carry, what a Close in flight names and where a task stands |
| `MuxEnds.CloseEnds` | crates/ssh-proxy/src/bridge.rs:435-442 | once a reader of either end has handled a Close, the stream is out of its map for the rest of the run and no chunk enters its channel again |
| `MuxEnds.ClosedStaysOut` | crates/ssh-proxy/src/bridge.rs:221-231 | a stream that its caller has closed is out of the controller's map for the rest of the run |
| `MuxEnds.UdpEnds` | crates/ssh-proxy/src/bridge.rs:253-263 | a UDP stream that a Close, a drop or `unregister_udp` takes out of the controller's map is out for the rest of the run |
| `MuxEnds.RouteMapIs` | crates/ssh-proxy/src/bridge.rs:166-231 | at any point of a run the TCP stream map of either end holds exactly the streams put in by an open or a remote task and not taken out since by a failed open, their caller, their task, a Close, a failed delivery or the clean-up |
| `MuxEnds.UdpMapIs` | crates/ssh-proxy/src/remote.rs:226-248 | at any point of a run the UDP map of either end holds exactly the streams put in, by `register_udp` or by a datagram at the remote, and not taken out since by their caller, a Close, a failed delivery or the clean-up |
| `MuxEnds.DatagramHanded` | crates/ssh-proxy/src/bridge.rs:395-434 | a datagram for a registered stream, and at the remote every datagram, is handed over or its stream given up before the reader goes on |
| `MuxEnds.CloseFailsOpen` | crates/ssh-proxy/src/bridge.rs:435-442 | a Close for an open that still waits fails it with the Close's own reason before the reader goes on |
| `MuxEnds.GivenUpGoes` | crates/ssh-proxy/src/bridge.rs:365-434 | a stream or association whose receiver is gone or too slow is taken out of its map before the reader goes on |
| `MuxEnds.DroppedReceiver` | crates/ssh-proxy/src/bridge.rs:365-373 | after a receiver is dropped nothing is delivered to it |
| `MuxEnds.OpenedIsConnected` | crates/ssh-proxy/src/remote.rs:293-303 | an open succeeds only after the remote connected for that id in an earlier step of the run |
| `MuxEnds.FailedConnect` | crates/ssh-proxy/src/remote.rs:352-361 | after a failed connect the remote never registers the stream, sends an ok answer or data for it, and the open never succeeds |
| `MuxEnds.TaskInOrder` | crates/ssh-proxy/src/remote.rs:285-363 | the steps of a remote task are taken in the order of its code and none twice |
| `MuxEnds.StageReached` | crates/ssh-proxy/src/remote.rs:285-363 | a remote task is at a stage only after its step that leads there, so a finished one has sent its Close and a rejected one its refusal |
| `MuxEnds.FinishedLeft` | crates/ssh-proxy/src/remote.rs:344-351 | a remote task that goes on to send its Close has left the stream map |
| `MuxEnds.RelayStopped` | crates/ssh-proxy/src/remote.rs:335-343 | after the relay has stopped no data is sent for its stream |
| `MuxEnds.ReaderNeverStuck` | crates/ssh-proxy/src/bridge.rs:352-448 | in every state of every run a reader that has not ended can take a step, except exactly while it waits for room in the queue to send a Close |
| `MuxEnds.TaskNeverStuck` | crates/ssh-proxy/src/remote.rs:285-363 | a remote task that has not ended can take a step, except exactly while it waits for room in the queue |
| `Pipes.PushKeeps` | crates/ssh-proxy/src/bridge.rs:213-219 | enqueueing a frame keeps the flow invariant of its direction |
| `Pipes.PumpKeeps` | crates/ssh-proxy/src/bridge.rs:352-448 | every reader, writer and receiver step keeps the flow invariant of its direction |
| `BridgeObject.BridgeInner.constructor` | crates/ssh-proxy/src/bridge.rs:300-307 | a new bridge object holds the initial state, with the first id 1 |
| `BridgeObject.BridgeInner.OpenTcpStream` | crates/ssh-proxy/src/bridge.rs:166-211 | `open_tcp` on the object, with any steps of other tasks between its lock sections: what it does is a run of the system; on return its id is out of the pending map, on an error out of the stream map too, and it succeeds only on an accepting reply; otherwise it still waits at a full queue |
| `BridgeObject.BridgeInner.Abandon` | crates/ssh-proxy/src/bridge.rs:187-202 | the failed send and the timeout end the open with both removals, whatever happens between them |
| `BridgeObject.BridgeInner.Refuse` | crates/ssh-proxy/src/bridge.rs:203-210 | the refusal ends the open with both removals, in the other order |
| `BridgeObject.BridgeInner.AnswerOpen` | crates/ssh-proxy/src/bridge.rs:360-364 | the reader answers an open if and only if it is still pending, with the outcome of its frame, and takes it out of the map |
| `BridgeObject.BridgeInner.CloseStream` | crates/ssh-proxy/src/bridge.rs:221-231 | `close` sends its frame, or loses it if the writer is gone, and leaves the stream out of the map |
| `BridgeObject.BridgeInner.RegisterUdp` | crates/ssh-proxy/src/bridge.rs:233-238 | `register_udp` returns a fresh id that is in the UDP map and in neither TCP map |
| `BridgeObject.BridgeInner.UnregisterUdpStream` | crates/ssh-proxy/src/bridge.rs:253-263 | `unregister_udp` ends with its Close queued, lost only if the writer is gone, or waits at a full queue |
| `BridgeObject.BridgeInner.SendToAll` | crates/ssh-proxy/src/bridge.rs:334-338 | the drain loop sends the reply to every pending open exactly once and empties the map |
| `BridgeObject.BridgeInner.CleanUp` | crates/ssh-proxy/src/bridge.rs:331-342 | the clean-up, with any steps of other tasks in between, answers every open that was pending with the error, leaves nothing queued and no accepted stream in the map |
| `FrameCodec.DecodeEncoded` | crates/ssh-proxy-protocol/src/protocol.rs:123-258 | decoding the payload of any encodable frame gives the frame back |
| `FrameCodec.DecodedReencodes` | crates/ssh-proxy-protocol/src/protocol.rs:201-258 | whatever decodes is a frame of that type and id, and encodes back to the same payload if and only if its flag byte is one the encoder writes |
| `FrameCodec.DecodesExactly` | crates/ssh-proxy-protocol/src/protocol.rs:201-258 | a payload decodes to a frame if and only if the frame has that type and id and the payload is its encoding, up to the value of flag bytes and a missing egress byte; so no truncated, overlong or ill-formed payload is accepted |
| `FrameCodec.FlagRewritten` | crates/ssh-proxy-protocol/src/protocol.rs:222-227 | every result with a flag byte above 1 decodes as accepted and is written back differently |
| `FrameCodec.EgressByteAdded` | crates/ssh-proxy-protocol/src/protocol.rs:204-221 | every open request without an egress byte decodes and is written back with one |
| `FrameCodec.ReadEncoded` | crates/ssh-proxy-protocol/src/protocol.rs:276-300 | a reader at the start of a frame gets it and stops after its last byte |
| `FrameCodec.ReadExactly` | crates/ssh-proxy-protocol/src/protocol.rs:276-300 | a reader gets a frame if and only if the stream starts with a header of allowed length and a whole payload that decodes to it, and sees the end exactly on fewer than nine bytes |
| `FrameCodec.ReadTruncated` | crates/ssh-proxy-protocol/src/protocol.rs:276-300 | a reader cut off in a frame reports the end inside the header and an error after it |
| `FrameCodec.FramePrefix` | crates/ssh-proxy-protocol/src/protocol.rs:276-323 | any byte prefix of an encoded frame stream reads as exactly the frames that lie whole in it, then end or error, never another frame |
| `FrameCodec.FrameStreamRoundTrip` | crates/ssh-proxy-protocol/src/protocol.rs:276-323 | a whole encoded stream reads as its frames in order and ends cleanly |
| `Bytes.FromBeOfBe` | crates/ssh-proxy-protocol/src/protocol.rs:453-461 | big-endian integers of any width read back as written |
| `Bytes.BeOfFromBe` | crates/ssh-proxy-protocol/src/protocol.rs:453-461 | any bytes are the encoding of the integer they read as |
| `Utf8Text.Utf8Iff` | crates/ssh-proxy-protocol/src/protocol.rs:463-467 | the bytes accepted as a string are exactly the UTF-8 encodings of sequences of Unicode scalar values |
| `FrameCodec.WireLayout` | crates/ssh-proxy-protocol/src/protocol.rs:360-379 | byte for byte, a frame on the wire is its type number, its id and its length most significant byte first, and its payload of at most 16 MiB |
| `FrameCodec.StringLayout` | crates/ssh-proxy-protocol/src/protocol.rs:424-432 | a string in a payload is its length in two bytes, most significant first, and its bytes |
| `FrameIO.WriteAllVectored` | crates/ssh-proxy-protocol/src/protocol.rs:381-422 | header and payload go out whole and in order for every split of the writes, or a proper prefix and an error |
| `FrameIO.Scratch.WriteString` | crates/ssh-proxy-protocol/src/protocol.rs:424-432 | appends length and bytes, and refuses exactly the strings of 2^16 bytes and more |
| `FrameIO.Scratch.EncodeInto` | crates/ssh-proxy-protocol/src/protocol.rs:123-178 | the reused buffer ends up holding the frame's payload and nothing of its old contents, and fails exactly on a string that does not fit |
| `FrameIO.Scratch.WritePayload` | crates/ssh-proxy-protocol/src/protocol.rs:360-379 | an oversized payload writes nothing; otherwise header and payload, or a proper prefix and an error |
| `FrameIO.Scratch.WriteFrame` | crates/ssh-proxy-protocol/src/protocol.rs:104-121 | both the data path and the buffered path put exactly the frame's encoding on the wire, and a failure leaves a proper part of it |
| `FrameIO.WriteFrameBatch` | crates/ssh-proxy-protocol/src/protocol.rs:332-358 | a batch writes the first frame and what the queue has ready, at most 32 in queue order and fewer only when none was ready, takes exactly those off the queue, flushes once, and counts frames, data frames and data bytes exactly; it fails only if the transport failed or a frame cannot be encoded, and then leaves whole frames and perhaps part of the next |
| `FrameIO.RecordCounts` | crates/ssh-proxy-protocol/src/protocol.rs:21-38 | recording one more frame keeps the statistics those of the frames written |
| `FrameIO.WriterTask` | crates/ssh-proxy/src/bridge.rs:310-321 | repeated batches put the encoding of the whole queue on the wire, and each batch counts exactly its own stretch of the queue; it stops early only if the transport failed or a frame cannot be encoded, and then the batches before are so counted and the bytes out are the frames up to the failure and part of the next |
| `FrameIO.FailedWriteReads` | crates/ssh-proxy-protocol/src/protocol.rs:332-358 | from what a failed writer leaves, a reader gets exactly the frames before the failure |
| `FrameIO.FrameReader.ReadDataFrame` | crates/ssh-proxy-protocol/src/protocol.rs:302-323 | the data fast path gathers exactly the payload from any split of reads, or fails on a short stream |
| `FrameIO.FrameReader.ReadFrom` | crates/ssh-proxy-protocol/src/protocol.rs:276-300 | the buffered reader agrees with the plain decoder whatever its buffers held before |
| `FrameIO.FrameReader.ReadStream` | crates/ssh-proxy-protocol/src/protocol.rs:267-300 | one reused reader reads a stream as the plain reader loop does |
| `FrameIO.Transfer` | crates/ssh-proxy-protocol/src/protocol.rs:267-422 | writer task and reused reader end to end: the queued frames in order and a clean end if no write failed, else a prefix of them |
| `Handshake.TakeMessageOf` | crates/ssh-proxy-transport/src/peer_transport.rs:434-489 | a written handshake message is read back and nothing after it is consumed |
| `Handshake.TakenIsMessage` | crates/ssh-proxy-transport/src/peer_transport.rs:461-489 | only a whole message of allowed size is accepted, and exactly its bytes are consumed |
| `Handshake.WriteHandshake` | crates/ssh-proxy-transport/src/peer_transport.rs:434-450 | writes the message for every split of the writes; an oversized payload is refused before anything is written; a failed write or flush leaves a first part of the message |
| `Handshake.ReadHandshake` | crates/ssh-proxy-transport/src/peer_transport.rs:461-489 | accepts exactly what the message format accepts, and leaves unread what the format says for a message and for each kind of malformed input |
| `Handshake.SelectIsFirst` | crates/ssh-proxy-protocol/src/protocol_core/peer.rs:129-137 | the protocol selected is the earliest requested one that is supported, and none only when nothing is shared |
| `Handshake.RunServer` | crates/ssh-proxy-transport/src/peer_transport.rs:391-432 | unless a write fails, the server's result, output and consumption are those of its specification on every input |
| `Handshake.RunClient` | crates/ssh-proxy-transport/src/peer_transport.rs:356-389 | the same for the client |
| `Handshake.ServerAnswers` | crates/ssh-proxy-transport/src/peer_transport.rs:391-432 | the server answers every hello that it can read, also one that it refuses, with its own version and node and with the first protocol it shares if the versions are equal, and accepts exactly if there is one |
| `Handshake.HandshakesAgree` | crates/ssh-proxy-transport/src/peer_transport.rs:356-489 | client and server both succeed or both fail, and succeed if and only if the versions are equal, the server supports the offered protocol and both messages fit; then the accepted protocol is the offered one, each side holds the other's node and version as they were sent, and neither leaves a byte of the other unread |
| `BridgePool.SharedState.constructor` | crates/ssh-proxy/src/controller.rs:77-134 | a pool has at least one slot, none connected |
| `BridgePool.SharedState.SetBridge` | crates/ssh-proxy/src/controller.rs:187-194 | sets one slot, growing the pool with empty slots, and no other |
| `BridgePool.SharedState.RecordBridge` | crates/ssh-proxy/src/controller.rs:206-278 | connect, disconnect and failure set one worker's state and reset its counter |
| `BridgePool.SharedState.RecordWorkerTcpOpen` | crates/ssh-proxy/src/controller.rs:384-388 | adds one, modulo 2^64, to one slot's counter |
| `BridgePool.SharedState.RecordWorkerTcpClose` | crates/ssh-proxy/src/controller.rs:390-397 | takes one off one slot's counter, never below zero |
| `BridgePool.SharedState.LeastLoad` | crates/ssh-proxy/src/controller.rs:302-311 | the minimum of the candidates' loads |
| `BridgePool.SharedState.Bridge` | crates/ssh-proxy/src/controller.rs:288-320 | a bridge is returned if and only if a slot is eligible; it is of minimal load, and is the tied slot that the rotating counter points at |
| `BridgePool.PickServes` | crates/ssh-proxy/src/controller.rs:288-320 | exactly one slot is picked if some slot has a bridge and a connected worker, and none otherwise; the one picked has both and carries the fewest streams of those that do |
| `BridgePool.TiesFound` | crates/ssh-proxy/src/controller.rs:293-313 | filtering the candidates by the minimum gives exactly the eligible slots of minimal load |
| `BridgePool.TiesUnique` | crates/ssh-proxy/src/controller.rs:293-313 | the tied slots in order are determined by the pool alone |
| `BridgePool.CounterIs` | crates/ssh-proxy/src/controller.rs:384-397 | over every run of opens, paired closes, connects, losses and failures a counter misses exactly the streams of the slot's quietest moment since its last reset |
| `BridgePool.CounterExactIff` | crates/ssh-proxy/src/controller.rs:384-397 | it equals the live streams if and only if the slot had none at some moment since its last reset |
| `BridgePool.CounterTracksLive` | crates/ssh-proxy/src/controller.rs:241-257 | so it never exceeds the live streams, falls short by at most those live at the last reset, and is exact without one |
| `BridgePool.ResetUndercounts` | crates/ssh-proxy/src/controller.rs:241-243 | a run in which the counter of a slot is 0 while a stream lives |
| `BridgePool.SpreadStays` | crates/ssh-proxy/src/controller.rs:288-320 | over any run of select-then-open the load spread of the eligible slots never exceeds the larger of 1 and the initial spread |
| `BridgePool.LoadsEvenOut` | crates/ssh-proxy/src/controller.rs:288-320 | if every eligible slot has a counter, after as many placements as the initial deficit the spread is at most 1 and stays so |
| `BridgePool.UncountedNeverEvens` | crates/ssh-proxy/src/controller.rs:187-194 | with an eligible slot that has no counter, a load above 1 is never evened out |
| `BridgePool.SeriesPick` | crates/ssh-proxy/src/controller.rs:315-318 | while no load changes, the i-th of a series of selections returns the tied slot at the i-th place of the rotation |
| `BridgePool.RotationIsFair` | crates/ssh-proxy/src/controller.rs:315-318 | k consecutive selections among k tied slots return each of them once if and only if the counter does not wrap among them or k divides 2^32 |
| `BridgePool.WrapRepeats` | crates/ssh-proxy/src/controller.rs:315-318 | a pool of three tied slots whose first two selections at the wrap return the same slot |
| `ActionArguments.WindowsActionArg` | crates/ssh-proxy-platform/src/windows_tasks.rs:95-122 | the loop over characters computes the quoted argument |
| `ActionArguments.ReadQuoted` | crates/ssh-proxy-platform/src/windows_tasks.rs:95-122 | a quoted argument at the head of a command line is read back by the Windows rules and nothing after it is touched |
| `ActionArguments.SplitJoin` | crates/ssh-proxy-platform/src/windows_tasks.rs:36-42 | splitting the rendered arguments by the Windows rules gives back exactly the list, with empty arguments and backslashes before quotes and at the end, under both documented treatments of paired quotes |
| `ActionArguments.QuotesOnlyIfNeeded` | crates/ssh-proxy-platform/src/windows_tasks.rs:95-101 | an argument is left as it is if and only if it is not empty and holds no white space and no quote |
| `Wildcard.WildcardMatch` | crates/ssh-proxy-ssh/src/client.rs:645-669 | the loop computes the greedy match |
| `Wildcard.MatcherIsExact` | crates/ssh-proxy-ssh/src/client.rs:645-669 | a pattern with a star is matched if and only if the text is in its language and the pattern ends in a star or no proper prefix of the text is in the language; so the matcher never accepts wrongly |
| `Wildcard.LiteralIsExact` | crates/ssh-proxy-ssh/src/client.rs:645-648 | a pattern without a star matches exactly the texts of its own letters, upper or lower case |
| `Wildcard.ScanDecides` | crates/ssh-proxy-ssh/src/client.rs:649-662 | the greedy leftmost scan decides membership up to the last literal |
| `Wildcard.StarSuffixIncomplete` | crates/ssh-proxy-ssh/src/client.rs:645-669 | `*a` is not matched against `aa` although it is in the language |
| `Wildcard.HostPatternIs` | crates/ssh-proxy-ssh/src/client.rs:635-643 | a host pattern matches if and only if it is not negated and, with a star, the host is in its language and it ends in a star or no proper prefix of the host is in it, or, without one, the host is the pattern up to case |
| `ServerEnv.StripManagedServerEnvBlock` | crates/ssh-proxy-deploy/src/remote_setup_scripts.rs:190-208 | the loop computes the stripped text |
| `ServerEnv.BuildServerEnvSetupContent` | crates/ssh-proxy-deploy/src/remote_setup_scripts.rs:3-21 | the appends compute the built file |
| `ManagedBlocks.KeptAreOutside` | crates/ssh-proxy-deploy/src/remote_setup_scripts.rs:190-206 | the lines kept are exactly those outside managed blocks, in order: no marker, and no begin marker above left open |
| `ServerEnv.LinesSurvive` | crates/ssh-proxy-deploy/src/remote_setup_scripts.rs:3-21 | the lines of the built file are the lines outside old blocks, trailing empty ones dropped and one carriage return taken off, then the new block |
| `ServerEnv.RebuildReplaces` | crates/ssh-proxy-deploy/src/remote_setup_scripts.rs:3-21 | building with new entries over a built file equals building once if and only if no line outside the old blocks ends in a carriage return and no text of the first block lies outside its markers |
| `ServerEnv.RebuildReplacesPlain` | crates/ssh-proxy-deploy/src/remote_setup_scripts.rs:3-21 | so it does on text without carriage returns and entries without line breaks |
| `ServerEnv.ReturnIsLost` | crates/ssh-proxy-deploy/src/remote_setup_scripts.rs:193-207 | a text on which it does not |
| `ServerEnv.BreakEscapes` | crates/ssh-proxy-deploy/src/remote_setup_scripts.rs:193-207 | an entry with an end marker on a line of its value, on which it does not either, whatever the text |
| `ServerEnv.BlockIsLines` | crates/ssh-proxy-deploy/src/remote_setup_scripts.rs:4-13 | without line breaks in the entries the block is its markers around one line for each entry |
| `ServerEnv.BlockExports` | crates/ssh-proxy-deploy/src/remote_setup_scripts.rs:4-13 | its lines are the two markers around, for each entry in order, an export of its key to a word that the shell reads as its value |
| `ServerEnv.MarkIs` | crates/ssh-proxy-deploy/src/remote_setup_scripts.rs:194-199 | a line is a marker if and only if it is one between white space |
| `ServerEnv.BlockStrips` | crates/ssh-proxy-deploy/src/remote_setup_scripts.rs:190-208 | such a block is stripped whole |
| `ServerEnv.ShellQuoteRoundTrip` | crates/ssh-proxy-deploy/src/remote_setup_scripts.rs:210-212 | a POSIX shell reads the quoted value as one word, the value itself |
| `Redaction.RedactObject` | crates/ssh-proxy-core/src/redaction.rs:11-31 | the loop over the fields computes the redacted object |
| `Redaction.RedactionShows` | crates/ssh-proxy-core/src/redaction.rs:3-39 | at every place of every tree, redaction shows what the keys on the way there allow and nothing else |
| `Redaction.RedactsAlikeIff` | crates/ssh-proxy-core/src/redaction.rs:3-47 | two trees redact alike if and only if they are seen alike at every place |
| `Redaction.NonInterference` | crates/ssh-proxy-core/src/redaction.rs:11-31 | trees that differ only in what lies under sensitive keys redact to the same tree |
| `Redaction.RedactTwice` | crates/ssh-proxy-core/src/redaction.rs:3-47 | redaction is idempotent on every tree |
| `Redaction.DirectoryHidden` | crates/ssh-proxy-core/src/redaction.rs:41-47 | of a path only the file name is shown, whatever its directory |
| `Redaction.SensitiveIff` | crates/ssh-proxy-core/src/redaction.rs:14-20 | a key is sensitive if and only if one of the five words occurs in it, in any case |
| `Redaction.PathKeyIff` | crates/ssh-proxy-core/src/redaction.rs:24-27 | a key is a path key if and only if one of the two words occurs in it, in any case |
| `Redaction.FileNameIs` | crates/ssh-proxy-core/src/redaction.rs:41-45 | the file name of a path is the component before nothing but slashes and current-directory components, and not a parent |
| `Redaction.ShownPath` | crates/ssh-proxy-core/src/redaction.rs:41-47 | every path is shown as its file name, or as a fixed text if it has none |
| `RouteConflict.RunIsSound` | crates/ssh-proxy-route/src/conflict.rs:37-84 | after any run of submissions and stops, ids are distinct and no two routes compete for a listener |
| `RouteConflict.ReuseExactly` | crates/ssh-proxy-route/src/conflict.rs:41-75 | a candidate with the id of a running route reuses it if and only if direction, listener, peer if it names one, and specification up to a reverse identity agree, and is refused otherwise |
| `RouteConflict.ListenerExactly` | crates/ssh-proxy-route/src/conflict.rs:54-84 | any other candidate is available if and only if no route holds its listener, alone for a forward one and for the same peer otherwise, and is else refused for that route |
| `RouteConflict.AvailableRuns` | crates/ssh-proxy-route/src/conflict.rs:63-64 | an available candidate with an id runs, as it was submitted, from then on |
| `RouteConflict.RunsIff` | crates/ssh-proxy-route/src/conflict.rs:37-84 | after any run of submissions and stops, the routes running are exactly those submitted when available and not stopped since |
| `RouteConflict.SpecsMatchExactly` | crates/ssh-proxy-route/src/conflict.rs:86-102 | specifications match if and only if they are equal, or both are reverse ones, in any case, whose reverse sections are equal but for the identity, without naming the normalisation |
| `RouteConflict.OrderIrrelevant` | crates/ssh-proxy-route/src/conflict.rs:37-64 | the decision does not depend on the order of the routes |
| `RouteConflict.ResubmitReuses` | crates/ssh-proxy-route/src/conflict.rs:41-52 | submitting an admitted candidate again while its route runs reuses it |
| `RouteConflict.RunsUntilStopped` | crates/ssh-proxy-route/src/conflict.rs:37-64 | an admitted route runs until its own id is stopped |
| `RouteConflict.SpecsMatchIff` | crates/ssh-proxy-route/src/conflict.rs:86-102 | specifications match if and only if they are equal or are reverse specifications that differ in the identity alone |
| `RouteDecision.ParseModeIs` | crates/ssh-proxy-route/src/decision.rs:279-295 | a value is read as a mode if and only if it is one of the mode's names, in any case |
| `RouteDecision.SettingIs` | crates/ssh-proxy-route/src/decision.rs:99-100 | a setting that is left out is like auto, and one that is given is read by its names |
| `RouteDecision.SelectionIs` | crates/ssh-proxy-route/src/decision.rs:85-184 | selection fails exactly on an unparsable setting that it reads; otherwise mode and source are those of the first that applies of request, profile, topology, defaults, plain TCP and peer; it never yields auto, and names a source that may be overridden exactly when nobody chose the transport |
| `RouteDecision.PreflightRecommends` | crates/ssh-proxy-route/src/preflight.rs:172-208 | a fallback is recommended exactly when a direct probe failed and none was reachable |
| `RouteDecision.FailuresAre` | crates/ssh-proxy-route/src/preflight.rs:237-243 | the failures listed are the direct probes that were not reachable, all of them and in order |
| `RouteDecision.PlanHoldsAll` | crates/ssh-proxy-route/src/preflight.rs:172-208 | the plan's JSON holds all of a preflight decision: different decisions are written differently |
| `RouteDecision.ClassOfPreflight` | crates/ssh-proxy-route/src/plan.rs:328-367 | read back from the plan's JSON, the topology class is ssh-only exactly when a fallback was recommended, direct-reachable exactly when a direct probe was reached, and else mixed, unknown-direct or ssh-reachable as the topology has jump hosts and direct candidates, for any probes and any topology |
| `RouteDecision.AddLocalTransportProbeResults` | crates/ssh-proxy/src/route/preflight.rs:50-62 | puts the preflight decision for the probes into the plan |
| `RouteDecision.ApplyLocalForwardFallback` | crates/ssh-proxy/src/route/preflight.rs:65-89 | applies the fallback decision to the route's arguments and plan, or changes neither |
| `RouteDecision.FallbackIs` | crates/ssh-proxy-route/src/preflight.rs:210-235 | a fallback rewrites the mode, the source and exactly two fields of the plan if the transport may be overridden and a known fallback is recommended, and else changes nothing |
| `RouteDecision.FallbackTwice` | crates/ssh-proxy-route/src/preflight.rs:210-235 | a second fallback pass changes nothing |
| `RouteDecision.RunGivesWay` | crates/ssh-proxy-route/src/preflight.rs:172-235 | in any run of probes and fallbacks the transport gives way to native SSH exactly when it may be overridden and a fallback was tried while the last probes had all failed |
| `RouteDecision.FinalTransport` | crates/ssh-proxy-route/src/decision.rs:85-184 | from selection on, the transport in force is native SSH if nobody chose one and a fallback was so tried, and otherwise the first that applies of request, profile, topology, defaults, plain TCP and peer |

## Left out

- The VS Code extension, the command line, configuration loading, job, session and peer records, health reports and repair actions: field copying and input/output.
- Sockets, TLS, QUIC, SSH libraries: a transport is a byte stream that may split or fail any write and split any read; a read error is not distinguished from the end of the stream.
- The remote end's stream maps are changed on values in the transition system and not by methods of a class, so aliasing there is not modelled.
- UDP: registration, routing, backpressure and closing are modelled; the order and content of datagrams handed to a receiver are not.
- What the remote does with a stream whose open timed out locally: the timeout sends no Close frame, so only the local guarantees are stated.
- Dropping the future of an open or of a send before it returns.
- Fairness: an open can always take its next step and takes at most six, but that the scheduler and the timers let it is not modelled.
- `SharedState::bridge` waiting for a slot to connect; selection is modelled from the state it finds.
- The parts of `record_bridge_connected`, `record_bridge_disconnected` and `record_bridge_failed` that keep reports and error texts.
- The constant feature list, binary version, operating system and architecture in handshake messages; JSON coding of the messages is any coder and decoder that undo each other.
- Handshake timeouts.
- CounterIs: assumes fewer than 2^64 events, because the counter is 64 bits wide.
- SpreadStays: assumes loads that stay below 2^64, because the counters are 64 bits wide.
- MapsHoldIssuedIds: ids beyond the 2^32nd allocation repeat, so runs stop there.
- The shell, PowerShell and awk scripts, and environment files written by other programs.
- Windows path separators in redaction; paths are read as on Unix.
- Display texts of decisions, the SSH mode and session pool fields and the decision chain of a plan, which are functions of the fields that are modelled.
- `route_topology_class` on a plan that holds other JSON than preflight writes is modelled, but stated only for what preflight writes.
