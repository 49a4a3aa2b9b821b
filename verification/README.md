# Rustcomm in Dafny

Rustcomm is a layered message transport: typed messages become length-prefixed frames, frames wait in a send buffer
per connection, a poll loop writes them to non-blocking sockets as far as these accept, and on the other side chunks of
bytes are collected per connection until whole frames can be decoded. This project models that path, the life of
connections around it, and two programs on top of it, and proves what every run of them keeps.

Each stateful component comes twice: as a state machine on values, whose steps take the answers of the environment
(kernel, TLS library, scheduler) as data, and as a class whose methods update their fields in place, each proved equal
to a step of the machine. The theorems are about all runs of the machines: any calls, any answers, any order. What the
sockets and the TLS library did is computed from their answers alone (`Taken`, `Given`, `Ended`, `Broken` in the models)
and recorded as the history of each connection; conservation and delivery are stated against that side, not against
what the transport believes it sent or received.

| file | contents |
|---|---|
| `Bytes.dfy`, `TransportTypes.dfy` | bytes, little-endian lengths, transport events and streams of them |
| `Framing.dfy`, `ManualCodec.dfy` | the frame, printer and parser; the hand-written codec as an instance of the codec contract |
| `Reassembly.dfy`, `MessengerViews.dfy` | the receive side of the messenger: scanning, chunks, one buffer per connection, notices; any stream as seen from one connection |
| `Ids.dfy` | allocation of connection ids across the wrap-around |
| `TcpModel.dfy`, `TcpProofs.dfy`, `TcpTheorems.dfy` | the TCP transport as a machine, its invariant, the results |
| `TcpSockets.dfy`, `TcpOutcomes.dfy` | its loops against the sockets; what each polled token means |
| `TcpLives.dfy`, `TcpEndings.dfy`, `Bookkeeping.dfy` | lives of connection ids do not leak into each other; no connection vanishes in silence; the batch loop with and without its bookkeeping |
| `TcpSending.dfy`, `TcpTransport.dfy` | the TCP transport as an object |
| `Interface.dfy`, `InterfaceLoop.dfy` | requests from other threads, as a protocol and as objects |
| `EndToEnd.dfy`, `Shutdown.dfy` | from message to message; from `close_all` through the messenger to the end of the workers |
| `TlsModel.dfy`, `TlsProofs.dfy`, `TlsTheorems.dfy`, `TlsTransport.dfy` | the TLS transport, in the same four parts |
| `TlsLibrary.dfy`, `TlsOutcomes.dfy` | its loops against the TLS library; what each polled token and call means |
| `ChatModel.dfy`, `ChatObjects.dfy` | the chat server and its clients as a replicated map |
| `WorkerQueue.dfy` | the worker pool around a shared event queue |

## What was found

- Connection cleanup of the TCP transport is correct: the assertion "was it properly removed after disconnect?" never
  fires (`CleanupAssertNeverFires`). Whether the bookkeeping that src/transport/tcp.rs:413-416 says could then be removed
  is redundant depends on the ids: it matters in some batch exactly if the search for ids can come round to that of a
  live connection within the streams that the batch accepts (`BookkeepingMattersIff`). While ids are given out in
  ascending order it can go (`BookkeepingCanGo`); after a wrap-around it may not (`WrappedAroundDiffers`).
- The TLS transport's copy of that assertion can fire. A handshake that fails on the read side removes the connection
  without entering it in `disconnected_ids`; a second event for it in the batch, or the writable half of the same
  event, then panics. A poll of registered interest can cause it exactly if some connection is in its handshake
  (`CleanupCanFailIff`), with a single event exactly if that one also asks for WRITABLE (`SingleEventCanFailIff`).
  `CleanupFailsExactlyFor` locates it in the batch, and `CleanupAssertFires` is a run.
- The TCP event grammar has one exception: a connection with bytes queued before it was connected can report
  Disconnected without Connected (`LostBeforeConnectedIff`, `WaitingForConnectedIsSafe`, `LostBeforeConnectedHappens`).
- `queue_data` asks for READABLE on a TCP connection that is still connecting, so the assertion at
  src/transport/tcp.rs:628 can fail exactly there (`ReadBeforeConnectedIff`). The TLS transport only adds WRITABLE and
  is safe from it (`TlsTheorems.NoLostWakeup`).
- With TLS, data is reported before Connected exactly on connections in their handshake (`DataFirstIff`,
  `DataFirstHappens`), and ConnectionFailed also for accepted connections: exactly for those in their handshake that ask
  for WRITABLE (`ConnectionFailedIff`, `AcceptedConnectionFails`).
- A complete frame is decoded or rejected exactly unless its context decodes and its message id is cut short
  (`NeedMoreIff`). That one is reported as "need more data", contrary to the comment at src/messenger/message.rs:188,
  and the connection then stalls for good (`TruncatedStalls`, `ResidueIs`, `StallIsForever`).
- Framing round-trips if and only if the payload is shorter than 2^32 (`FramingRoundTrip`).
- In the chat server a client that sends a chat line and a login in one batch is removed and closed for the first and
  becomes a participant by the second, without a connection (`RemovedClientLogsIn`; exact condition `IntrusionIff`).
  The comment at examples/chat/server_single.rs:144 says other messages are ignored; the code disconnects. The comment
  at examples/chat/messages.rs:51 says SInit lists the other participants; the code includes the newcomer. Name
  lengths count bytes, where the error texts say characters.

## Model

| member | source | states |
|---|---|---|
| `Bytes.LittleEndianInverse` | src/messenger/message.rs:205 | reading back a little-endian 32-bit length gives the length |
| `Bytes.LowestByteFirst` | src/messenger/message.rs:174-176 | the lowest byte comes first: a number below 256 is its own first byte, and shifting by one byte moves all bytes one place back |
| `Framing.FrameLayout` | src/messenger/message.rs:146-179 | position by position, a frame is payload length modulo 2^32, context, id length, id, body, and nothing else |
| `Framing.SerializeMessage` | src/messenger/message.rs:146-179 | the appended parts with the prefix overwritten in place are the frame: length modulo 2^32, context, id length, id, body |
| `Framing.DeserializeMessage` | src/messenger/message.rs:192-258 | decides only on a complete frame, and a decoded message has consumed exactly the announced frame |
| `Framing.CompleteFrameIsFinal` | src/messenger/message.rs:207-222 | the verdict on a complete frame does not change with any bytes after it |
| `Framing.CompleteFrameDecodes` | src/messenger/message.rs:217-258 | for any complete frame, whoever made it: a wrong context, an id that is no UTF-8, an unknown id and a wrong body are each rejected with their own error, in this order; otherwise the body is decoded |
| `Framing.FramingRoundTrip` | src/messenger/message.rs:174-176 | for every registered message and context, decoding the frame followed by anything returns message, context and exact size, if and only if the payload is shorter than 2^32 |
| `Framing.StrictPrefixNeedsMore` | src/messenger/message.rs:197-215 | every strict prefix of such a frame answers need-more |
| `Framing.NeedMoreIff` | src/messenger/message.rs:197-232 | need-more is answered exactly if the frame is incomplete, or complete with a context that decodes and fewer than four bytes, or fewer than four and the announced id length, after it |
| `Framing.TruncatedStalls` | src/messenger/message.rs:223-232 | such a complete frame answers need-more whatever follows |
| `Framing.TruncatedIdStalls` | src/messenger/message.rs:223-232 | an example of eight bytes, with an empty context |
| `Utf8.AsciiIsValid` | src/messenger/message.rs:235 | ASCII ids pass the UTF-8 test |
| `ManualCodec.SerializeManualMessage` | examples/custom_serialization.rs:149-168 | only appends, and appends the message's bytes |
| `ManualCodec.ManualRoundTrip` | examples/custom_serialization.rs:171-212 | decoding undoes encoding, with anything after it, if and only if the name is valid UTF-8 of less than 2^32 bytes |
| `ManualCodec.ManualWireIsLawful` | examples/custom_serialization.rs:149-212 | the hand-written codec meets the contract that the framing and delivery results assume |
| `Reassembly.NoMessageLeftWaiting` | src/messenger/mod.rs:482-508 | what a scan keeps is empty or answers need-more: no decodable frame is left waiting |
| `Reassembly.ScanResumes` | src/messenger/mod.rs:470-508 | a scan of two chunks in turn equals one scan of both |
| `Reassembly.ChunkIndependence` | src/messenger/mod.rs:470-515 | however a stream is cut: same messages, same residue, same error as one pass |
| `Reassembly.ResidueIs` | src/messenger/mod.rs:482-508 | what a scan keeps is a complete frame exactly if that frame has its id cut short |
| `Reassembly.StallIsForever` | src/messenger/mod.rs:495-498 | and then no input makes the connection emit again |
| `Reassembly.PrefixDecodesToPrefix` | src/messenger/mod.rs:482-508 | any prefix of a stream of frames decodes without error to a prefix of its messages, the whole stream to all |
| `Reassembly.ErrorEndsTheStream` | src/messenger/mod.rs:499-515 | a rejected frame after any frames: their messages, then its error, and nothing after it is looked at or kept |
| `Reassembly.ConnectionsAreIndependent` | src/messenger/mod.rs:445-519 | within any interleaving of connections, each one's messages and residue are those of one pass over its own bytes; on an error it is closed after the messages before it |
| `Reassembly.NoticesArePassedOn` | src/messenger/mod.rs:446-466 | for every stream, what is dispatched and is no message is exactly the events without data, kind by kind and in order |
| `Reassembly.NoticeStandsInPlace` | src/messenger/mod.rs:445-519 | each of them after everything dispatched for the events before it |
| `Reassembly.NoticeAfterItsMessages` | src/messenger/mod.rs:445-519 | so after exactly the messages that one pass over the bytes its connection received before it decodes |
| `Reassembly.UpToInactiveIs` | src/messenger/mod.rs:447-452 | of a batch everything is looked at, or everything up to the first Inactive |
| `MessengerViews.EveryIdHasItsView` | src/messenger/mod.rs:445-519 | for every stream, across all lives of an id: its buffer, its messages and the errors it is closed for follow from its own data and ends and from Inactive alone |
| `MessengerViews.LivesAreDecodedApart` | src/messenger/mod.rs:447-465 | after an end or an Inactive an id is read as if the stream began there: no byte of one life enters a message of the next |
| `MessengerViews.OneLifeIsOnePass` | src/messenger/mod.rs:467-515 | within one life without an error the view is one pass over all bytes received |
| `Reassembly.Messenger.DecodeBuffer` | src/messenger/mod.rs:478-503 | the decode loop ends within the buffer, having emitted what the scan finds and stopped where its residue starts |
| `Reassembly.Messenger.HandleData` | src/messenger/mod.rs:467-515 | append, decode, drain and error handling change one connection's buffer as the machine says and no other |
| `Reassembly.Messenger.HandleEvent` | src/messenger/mod.rs:446-516 | each kind of event has exactly its effect on the buffers, and is passed on unless it carries data |
| `Reassembly.Messenger.HandleBatch` | src/messenger/mod.rs:445-519 | a batch is processed in order, up to an Inactive event, and all its connection events are passed on |
| `Reassembly.Messenger.FetchEvents` | src/messenger/mod.rs:439-522 | batches are taken until something can be dispatched, and no further; all connection events looked at are passed on |
| `Ids.FewerUsedThanRangeLeavesFree` | src/transport/tcp.rs:832-844 | while fewer ids are in use than the range holds, the search has an end |
| `Ids.AdvanceConnectionId` | src/transport/tcp.rs:832-844 | the search ends, across the wrap too, at the first free id in cyclic order |
| `Ids.NextFreeIsUnique` | src/transport/tcp.rs:832-844 | that id is unique, so that allocation is deterministic |
| `TcpSockets.SentIsTaken` | src/transport/tcp.rs:734-770 | for all answers: the write loop advances by exactly the bytes the socket takes out of the slices offered, the first of the pending ones, and fails exactly when the socket does |
| `TcpSockets.PartialWritesAddUp` | src/transport/tcp.rs:746-750 | those are as many of the pending bytes as the counts answered add up to |
| `TcpSockets.ReadIsGiven` | src/transport/tcp.rs:636-670 | for all answers: the read loop returns exactly the bytes the socket hands over, and reports the connection closed exactly when the socket has ended |
| `TcpProofs.ApplyInv` | src/transport/tcp.rs:129-387 | connect, listen, the close family and the sending family keep the invariant |
| `TcpProofs.AcceptPhaseInv` | src/transport/tcp.rs:552-618 | so does accepting any number of connections and announcing them |
| `TcpProofs.ReadPhaseInv` | src/transport/tcp.rs:621-688 | so does reading |
| `TcpProofs.WriteSurvives` | src/transport/tcp.rs:691-794 | after every write a connection survives it is connected, the bytes the socket took and those that remain make up its buffer, and WRITABLE is asked for if and only if bytes remain |
| `TcpProofs.WritePhaseInv` | src/transport/tcp.rs:691-794 | writing keeps the invariant, whichever way it ends |
| `TcpOutcomes.PolledConnection` | src/transport/tcp.rs:440-475 | for every polled connection: exactly the bytes handed over are told, then Disconnected if the socket ended or broke, ConnectionFailed if it was refused, Connected if it was connecting; it leaves exactly then; what the socket took leaves the buffer; the assertions that trip; and nothing else changes |
| `TcpOutcomes.PolledListener` | src/transport/tcp.rs:422-427 | a polled listener with n streams tells n Connected events, in order, of n new live connections under ids that were free, registered for READABLE, and leaves all others alone |
| `TcpOutcomes.StreamsAccepted` | src/transport/tcp.rs:564-587 | the streams accepted are the leading ones, and accepting fails exactly when an error comes next |
| `TcpOutcomes.PollHandlesInOrder` | src/transport/tcp.rs:418-475 | a poll round handles all its tokens, one after the other, each in the state the ones before it left |
| `TcpEndings.NoSilentEnd` | src/transport/mod.rs:97-108 | in every run that does not close it from this side, a connection goes on or its life ends with Disconnected or ConnectionFailed told |
| `TcpProofs.HandleTokenInv` | src/transport/tcp.rs:418-475 | a polled token keeps the invariant and the account of tokens, and meets no missing connection |
| `TcpProofs.ExecInv` | src/transport/tcp.rs:397-480 | every run keeps the invariant and never stops on a missing connection |
| `TcpTheorems.CleanupAssertNeverFires` | src/transport/tcp.rs:431-437 | in no run does the cleanup assertion fail |
| `TcpTheorems.CleanupAccount` | src/transport/tcp.rs:413-475 | poll knows exactly waker, listeners and connections, also in the middle of a batch, and every polled token that is none of these is in `disconnected_ids` |
| `Bookkeeping.PlainTokenAgrees` | src/transport/tcp.rs:418-475 | without the bookkeeping a token is handled alike, unless it is in `disconnected_ids` and a live connection at once |
| `Bookkeeping.BookkeepingMattersIff` | src/transport/tcp.rs:413-416 | with room for `a` more ids: the loops with and without the bookkeeping differ in some batch accepting at most `a` streams if and only if there is a listener and a connection with fewer than `a` unused ids between the next id and its own |
| `Bookkeeping.BookkeepingCanGo` | src/transport/tcp.rs:413-416 | so they agree on every batch while all live ids are below the next one and the range has room for the streams accepted |
| `Bookkeeping.WrappedAroundDiffers` | src/transport/tcp.rs:832-844 | and with a live connection right after the next id two accepted streams tell them apart |
| `TcpTheorems.EventGrammar` | src/transport/mod.rs:97-108 | per id the events are whole past lives followed by the current one; each, past or current, is a prefix of Connected, Data*, Disconnected, or ConnectionFailed if it began with connect, or the one exception, which needs a connect and queued bytes; and the current one is open exactly as the connection's state says |
| `TcpTheorems.LostBeforeConnectedIff` | src/transport/tcp.rs:699-770 | the exception arises exactly when the connection succeeds and the write of earlier queued bytes then fails |
| `TcpTheorems.WaitingForConnectedIsSafe` | src/transport/tcp.rs:734-770 | the kernel can force it exactly on a connecting connection with bytes pending |
| `TcpTheorems.LostBeforeConnectedHappens` | src/transport/tcp.rs:734-770 | a run of three steps that shows it |
| `TcpTheorems.ReadBeforeConnectedIff` | src/transport/tcp.rs:628 | the assertion on a readable connection can fail, under a poll of registered interest, exactly if it is still connecting and data was queued |
| `TcpTheorems.OutgoingByteConservation` | src/transport/tcp.rs:734-774 | the bytes the socket took followed by the bytes pending are all bytes queued; in every life, past or present, those taken are a prefix of those queued |
| `TcpTheorems.IncomingByteConservation` | src/transport/tcp.rs:440-466 | in every life, past or present, the Data events told carry exactly the bytes the socket handed over, also when the peer closes |
| `TcpTheorems.OpenExactness` | src/transport/tcp.rs:129-183 | a granted connect or listen registers the prepared id, free until then, for WRITABLE or READABLE, as a connecting connection or a listener, prepares the first free id after it, and changes nothing else; a refused one changes nothing |
| `TcpTheorems.NoLostWakeup` | src/transport/tcp.rs:771-782 | poll holds the stored interest, pending bytes imply WRITABLE, an established connection always asks for READABLE |
| `TcpTheorems.IdAllocation` | src/transport/tcp.rs:832-844 | the prepared id is at least 1000, free and not the waker's; connections and listeners never share one |
| `TcpTheorems.MulticastExactness` | src/transport/tcp.rs:315-387 | all five ways to send append the data once per occurrence to each addressed connection and change nothing else |
| `TcpTheorems.CloseExactness` | src/transport/tcp.rs:199-305 | the close family removes exactly what it names, from the transport and from poll, tells nothing and changes nothing else |
| `TcpLives.DeadStaysSilent` | src/transport/mod.rs:104-105 | however a run goes on, nothing is ever added to a life that is over, by an event or by a silent local close: either the id stays as it is, or all told so far is the past of a new life |
| `TcpTheorems.ClosedStaysClosed` | src/transport/tcp.rs:400-408 | while a transport has neither connections nor listeners and none is granted, sends, closes and refused connects change nothing and every poll round tells exactly one Inactive |
| `TcpTheorems.AfterCloseAllOnlyInactive` | src/transport/tcp.rs:302-305 | so it is after `close_all`, whatever is called but for a granted connect or listen |
| `TcpObject.ClosedFetch` | src/transport/tcp.rs:397-408 | a call of `fetch_events` on it returns in its first round with exactly one Inactive |
| `TcpObject.TcpTransport.constructor` | src/transport/tcp.rs:77-115 | a new transport is the machine's initial state |
| `TcpObject.TcpTransport.AdvanceConnectionId` | src/transport/tcp.rs:832-844 | the next id is the first free one after the current |
| `TcpObject.TcpTransport.TrackSpuriousWakeup` | src/transport/tcp.rs:846-857 | the counter and its assertion |
| `TcpObject.TcpTransport.QueueData` | src/transport/tcp.rs:803-830 | a send to one id: buffer, interest and registration as the machine says; unknown ids are ignored |
| `TcpObject.TcpTransport.Connect` | src/transport/tcp.rs:129-160 | registers under the prepared id, which is never registered already, and prepares the next |
| `TcpObject.TcpTransport.Listen` | src/transport/tcp.rs:164-183 | likewise for a listener |
| `TcpObject.TcpTransport.CloseConnection` | src/transport/tcp.rs:199-214 | removes and deregisters one connection |
| `TcpObject.TcpTransport.CloseAllConnections` | src/transport/tcp.rs:218-228 | the draining loop removes and deregisters exactly all connections |
| `TcpObject.TcpTransport.CloseListener` | src/transport/tcp.rs:271-285 | removes and deregisters one listener |
| `TcpObject.TcpTransport.CloseAllListeners` | src/transport/tcp.rs:289-298 | the draining loop removes and deregisters exactly all listeners |
| `TcpObject.TcpTransport.CloseAll` | src/transport/tcp.rs:302-305 | both |
| `TcpObject.TcpTransport.SendTo` | src/transport/tcp.rs:315-318 | a multicast to one |
| `TcpObject.TcpTransport.SendToMany` | src/transport/tcp.rs:322-334 | a multicast with the list's multiplicities, the last id taking the buffer itself |
| `TcpObject.TcpTransport.Broadcast` | src/transport/tcp.rs:338-347 | a multicast to all connections, in any order of the map |
| `TcpObject.TcpTransport.BroadcastExcept` | src/transport/tcp.rs:351-365 | to all but one |
| `TcpObject.TcpTransport.BroadcastExceptMany` | src/transport/tcp.rs:369-387 | to all but a list |
| `TcpObject.TcpTransport.AcceptConnections` | src/transport/tcp.rs:552-618 | accepts until the listener would block, then registers each stream under a fresh id |
| `TcpObject.TcpTransport.ReadLoop` | src/transport/tcp.rs:636-670 | the growing buffer ends as the bytes the socket handed over |
| `TcpObject.TcpTransport.ReadConnection` | src/transport/tcp.rs:621-688 | data, disconnect and spurious wakeup as the machine says |
| `TcpObject.TcpTransport.WriteLoop` | src/transport/tcp.rs:734-770 | the partial-write loop stands after exactly the bytes the socket took, and knows whether it broke and whether the buffer is drained |
| `TcpObject.TcpTransport.WriteConnection` | src/transport/tcp.rs:691-794 | completion of a connect, partial write, loss and interest as the machine says |
| `TcpObject.TcpTransport.HandleToken` | src/transport/tcp.rs:418-475 | the body of the batch loop, with no missing connection |
| `TcpObject.TcpTransport.HandlePoll` | src/transport/tcp.rs:403-476 | one poll round |
| `TcpObject.TcpTransport.ProcessInterfaceRequests` | src/transport/tcp.rs:502-543 | requests have the effect of the direct calls, in order |
| `TcpObject.TcpTransport.FetchEvents` | src/transport/tcp.rs:397-480 | rounds of requests and polls until one yields events, and no further; the events returned are all that was told; on a closed transport with nothing granted exactly one Inactive after one round |
| `InterfaceObjects.TransportInterface.Submit` | src/transport/interface.rs:261-266 | every method of the handle: it is the protocol's Send followed by its Wake |
| `InterfaceObjects.Channel.TryIter` | src/transport/tcp.rs:503 | it is the protocol's Collect, and yields what was pushed, in order |
| `InterfaceObjects.Turn` | src/transport/tcp.rs:397-476 | one turn of the loop, on the transport object, is a run of the protocol: collect, apply each request, poll |
| `Interface.Linearization` | src/transport/interface.rs:261-323 | under every interleaving: the transport is in the state of the direct calls in channel order, each thread's requests are there or on their way in program order, and no request waits behind a poll without a wake |
| `Interface.QueuesHoldWholeBuffers` | src/messenger/interface.rs:140-143 | if all data sent are whole frames, every connection's queue is a sequence of whole frames |
| `EndToEnd.FirstLifetimeOutput` | src/transport/tcp.rs:449-465 | what has been told of a connection so far carries a prefix of the bytes its socket handed over, in order, and in the end all of them |
| `EndToEnd.EndToEndDelivery` | src/messenger/mod.rs:439-522 | for all runs of sender and receiver: the messages dispatched are a prefix of those sent on the connection, without error, and all of them once nothing is pending and the receiving socket has handed over what the sending one took |
| `EndToEnd.SendingFramesCarriesMessages` | src/messenger/mod.rs:298-302 | a sender that sends only messages meets the assumption of that result |
| `EndToEnd.BatchesAreOneStream` | src/messenger/mod.rs:443-519 | batches up to an Inactive event add up to one stream of events |
| `EndToEnd.CallsAccumulate` | src/messenger/mod.rs:439-522 | the messenger's calls add up to one pass over the transport's events |
| `TlsTheorems.StatusMachine` | src/transport/tls.rs:842-899 | status only moves forward; Connected is told exactly on entering TlsConnected, by whichever side; a loss tells Disconnected after that and ConnectionFailed before; only a handshake failing on the read side is silent |
| `TlsTheorems.EventGrammar` | src/transport/tls.rs:558-597 | per id: whole past lives, then the current one; Connected at most once, Disconnected last and only after it, ConnectionFailed alone; and Connected was told exactly if the connection is TlsConnected |
| `TlsTheorems.PlaintextConservation` | src/transport/tls.rs:946-1061 | the plaintext the TLS library took followed by bytes pending are all bytes queued; none is taken before Connected |
| `TlsTheorems.IncomingConservation` | src/transport/tls.rs:558-570 | the Data events told of an id carry exactly the plaintext the TLS library handed over, in all its lives |
| `TlsLibrary.SentIsTaken` | src/transport/tls.rs:949-1021 | for all answers: the write loop advances by exactly the plaintext the library takes, fails exactly when library or socket do, and reports progress exactly when there was some |
| `TlsLibrary.TakenIsPrefix` | src/transport/tls.rs:950-958 | what the library takes is the first part of what is pending |
| `TlsLibrary.ReadIsGiven` | src/transport/tls.rs:770-838 | for all answers: the read loop returns exactly the plaintext the library hands over, and reports loss and progress exactly |
| `TlsOutcomes.PolledConnection` | src/transport/tls.rs:548-597 | for every polled connection: exactly what is told, whether it stays, leaves or vanishes, what leaves the buffer, its status and interest, the assertions that trip, and that nothing else changes |
| `TlsOutcomes.PolledListener` | src/transport/tls.rs:676-750 | n accepted streams become n connections in their handshake under ids that were free, unannounced; all others are left alone |
| `TlsOutcomes.PollHandlesInOrder` | src/transport/tls.rs:537-598 | a poll round handles all its tokens, one after the other |
| `TlsOutcomes.PollTellsInactiveIff` | src/transport/tls.rs:522-527 | a poll round tells Inactive if and only if there is neither a connection nor a listener, and then nothing else |
| `TlsOutcomes.OpenExactness` | src/transport/tls.rs:225-301 | a granted connect or listen registers the prepared id, free until then, and changes nothing else; a refused one changes nothing |
| `TlsOutcomes.QueueExactness` | src/transport/tls.rs:1075-1102 | a send appends to the one connection it names, which asks for WRITABLE from then on |
| `TlsOutcomes.CloseExactness` | src/transport/tls.rs:317-332 | a close takes the one connection it names out of the transport and out of poll |
| `TlsTheorems.NoLostWakeup` | src/transport/tls.rs:861-894 | poll holds the stored interest; established with plaintext pending implies WRITABLE, also if queued during the handshake; connecting asks for WRITABLE only |
| `TlsTheorems.WriteSurvives` | src/transport/tls.rs:1023-1061 | after a surviving write an established connection asks for WRITABLE if and only if plaintext remains or the TLS library has more to send; what the library took and what remains make up what was pending |
| `TlsTheorems.CleanupFailsExactlyFor` | src/transport/tls.rs:549-556 | at every position of every batch the cleanup assertion fails exactly for a connection whose handshake failed on the read side |
| `TlsTheorems.CleanupCanFailIff` | src/transport/tls.rs:848-856 | a poll of registered interest, any tokens any number of times, can do it if and only if some connection is in its handshake |
| `TlsTheorems.SingleEventCanFailIff` | src/transport/tls.rs:848-856 | a single event of registered interest can do it exactly on a connection in its handshake that asks for WRITABLE |
| `TlsTheorems.CleanupAssertFires` | src/transport/tls.rs:848-856 | a run of four steps that shows it |
| `TlsTheorems.DataFirstIff` | src/transport/tls.rs:565-569 | some event of registered interest reports Data before Connected exactly on a connection in its handshake, with a read size that is not zero |
| `TlsTheorems.DataFirstHappens` | src/transport/tls.rs:565-569 | a run of three steps that shows it |
| `TlsTheorems.ConnectionFailedIff` | src/transport/tls.rs:1012-1016 | some event of registered interest reports ConnectionFailed exactly on a connection that is not established and asks for WRITABLE; an accepted one is then in its handshake |
| `TlsTheorems.AcceptedConnectionFails` | src/transport/tls.rs:1012-1016 | a run of four steps that shows it for an accepted connection |
| `TlsTheorems.IdAllocation` | src/transport/tls.rs:1104-1116 | the prepared id is at least 1000, free and not the waker's; connections and listeners never share one |
| `TlsProofs.ReadPhaseInv` | src/transport/tls.rs:753-900 | reading keeps the TLS invariant |
| `TlsProofs.WritePhaseInv` | src/transport/tls.rs:903-1066 | writing keeps the TLS invariant |
| `TlsProofs.ExecInv` | src/transport/tls.rs:515-604 | every run keeps the TLS invariant |
| `TlsObject.TlsTransport.QueueData` | src/transport/tls.rs:1075-1102 | appends and adds WRITABLE to whatever the interest is |
| `TlsObject.TlsTransport.AdvanceConnectionId` | src/transport/tls.rs:1104-1116 | the next id is the first free one after the current |
| `TlsObject.TlsTransport.InsertConnection` | src/transport/tls.rs:245-270 | a new connection is registered under the prepared id, which was not, with the status and interest of its kind, and the next id is prepared |
| `TlsObject.TlsTransport.Connect` | src/transport/tls.rs:225-273 | a granted connect adds a connecting connection; any other changes nothing |
| `TlsObject.TlsTransport.Listen` | src/transport/tls.rs:277-301 | a granted listen registers a listener under the prepared id and prepares the next |
| `TlsObject.TlsTransport.CloseConnection` | src/transport/tls.rs:317-332 | removes and deregisters one connection |
| `TlsObject.TlsTransport.ReadLoop` | src/transport/tls.rs:770-838 | it ends with exactly the plaintext the library handed over, that before an error included |
| `TlsObject.TlsTransport.ReadConnection` | src/transport/tls.rs:753-900 | the read side of the status machine |
| `TlsObject.TlsTransport.SettleConnection` | src/transport/tls.rs:1029-1061 | buffer put back, status and interest recomputed, registration updated |
| `TlsObject.TlsTransport.WriteLoop` | src/transport/tls.rs:949-1021 | it stands after exactly the plaintext the library took, none of it before the handshake is complete |
| `TlsObject.TlsTransport.WriteConnection` | src/transport/tls.rs:903-1066 | the write side of the status machine, with the buffer taken and restored |
| `TlsObject.TlsTransport.AcceptConnections` | src/transport/tls.rs:676-750 | accepts until the listener would block or fails, then registers each stream under a fresh id, unannounced |
| `TlsObject.TlsTransport.HandleToken` | src/transport/tls.rs:537-598 | the body of the batch loop, with its assertions as halts |
| `TlsObject.TlsTransport.HandlePoll` | src/transport/tls.rs:522-600 | one poll round |
| `Shutdown.PollRoundsAreFair` | src/transport/tcp.rs:405-408 | every poll round tells Inactive alone or not at all |
| `Shutdown.PollTellsInactiveIff` | src/transport/tcp.rs:405-408 | a poll round tells Inactive if and only if there is neither a connection nor a listener, whatever was polled |
| `Shutdown.FetchTellsInactiveIff` | src/transport/tcp.rs:397-408 | a call of `fetch_events` returns Inactive if and only if its last poll found neither: never on a server that is listening |
| `Shutdown.FetchIsFair` | src/transport/tcp.rs:397-480 | so does every call of `fetch_events` |
| `Shutdown.CloseDuringFetch` | src/transport/tcp.rs:400-408 | the call in which a `close_all` request is processed, with nothing granted after it, returns exactly one Inactive and leaves the transport closed |
| `Shutdown.MessengerFetchesAreFair` | src/messenger/mod.rs:443-452 | over batches with Inactive alone or absent, so does every fetch of the messenger |
| `Shutdown.DeliveriesAreFair` | src/messenger/mod.rs:439-522 | a fetch of the messenger over the TCP transport, with its closes in between, returns such a batch |
| `Shutdown.ClosedDelivery` | src/messenger/mod.rs:439-522 | on a closed transport with nothing granted it returns exactly one Inactive |
| `Shutdown.ServedBatchesAreFair` | examples/thread_pool.rs:88-98 | what the worker queue relies on about its batches follows from the transport |
| `Shutdown.ServedAfterClose` | examples/thread_pool.rs:88-98 | after the close every fetch of every worker returns exactly one Inactive |
| `Shutdown.PoolShutsDown` | examples/thread_pool.rs:11-15 | workers over messenger over transport: once the transport is closed and nothing is granted, any schedule has boundedly many steps left, and when none is left every worker has ended after one Inactive and every event was handled |
| `Shutdown.ClosedMessengerFetches` | src/messenger/mod.rs:447-452 | on a closed transport a fetch returns exactly one Inactive |
| `ChatModel.Replication` | examples/chat/server_single.rs:232-357 | in every run, for each participant with an open connection, replaying what was sent over it gives exactly the server's participant map; all names have 2 to 50 bytes |
| `ChatModel.LoginReplicates` | examples/chat/server_single.rs:277-286 | greeting and login notice give the newcomer the whole map and everybody the new entry |
| `ChatModel.EventIsSent` | examples/chat/server_single.rs:216-357 | everything any event sends to anybody: its answer to the sender, then its notice |
| `ChatModel.NoticesReachParticipants` | examples/chat/server_single.rs:236-357 | each login, logoff, rename, removal and chat line reaches exactly the participants after the step whose connection is open, once, and nobody else |
| `ChatModel.WhoStays` | examples/chat/server_single.rs:226-357 | after every event, for every id: whose connection is closed (a stranger who does not log in under 2 to 50 bytes, a participant who repeats the login or sends something unknown, and one who is removed), who is client and participant, and under which name |
| `ChatModel.IntrusionIff` | examples/chat/server_single.rs:277 | a step breaks "participants are clients" exactly if it is an acceptable login under an id that is no client |
| `ChatModel.ParticipantsStayClients` | examples/chat/server_single.rs:165-173 | if messages only come from clients, participants are clients in every run |
| `ChatModel.RemovedClientLogsIn` | examples/chat/server_single.rs:287-291 | a run in which a removed client becomes a participant without a connection |
| `ChatModel.InitCopies` | examples/chat/client.rs:387-394 | inserting any listing of a map into an empty one copies it |
| `ChatObjects.Server.GetParticipantNames` | examples/chat/server_single.rs:195-200 | lists the map's entries, each once, in any order |
| `ChatObjects.Server.GetParticipantIds` | examples/chat/server_single.rs:202-204 | lists the map's keys, each once |
| `ChatObjects.Server.HandleDisconnect` | examples/chat/server_single.rs:236-244 | the machine's step |
| `ChatObjects.Server.HandleMessage` | examples/chat/server_single.rs:246-357 | the machine's step for every message, from strangers and participants |
| `ChatObjects.Server.DispatchEvent` | examples/chat/server_single.rs:216-224 | every event is a step that the replication result allows |
| `ChatObjects.Messenger.SendToMany` | src/messenger/mod.rs:324-332 | one append per occurrence to each open connection |
| `ChatObjects.Client.HandleMessage` | examples/chat/client.rs:381-426 | each message changes the replica as the replay says |
| `ChatObjects.Client.Follow` | examples/chat/client.rs:144-161 | a client that works off its messages in order ends with the replayed map |
| `WorkerQueue.EveryRunKeeps` | examples/thread_pool.rs:78-114 | every interleaving of any number of workers keeps locks, queue and exits in order |
| `WorkerQueue.QueueSafety` | examples/thread_pool.rs:85-107 | for any batches: events fetched are events taken, in order, followed by the queue; two workers are never inside together; the messenger lock is only held inside the queue lock |
| `WorkerQueue.FairRunsKeepTail` | examples/thread_pool.rs:83-113 | with Inactive alone in its batch, the queue is empty whenever every worker is exiting |
| `WorkerQueue.StepDecreases` | examples/thread_pool.rs:83-113 | after the close every step lowers the measure |
| `WorkerQueue.ShutdownTerminates` | examples/thread_pool.rs:116-122 | so no schedule takes more steps than the measure |
| `WorkerQueue.NoDeadlock` | examples/thread_pool.rs:83-113 | while a worker is left, some step is possible |
| `WorkerQueue.ShutdownIsClean` | examples/thread_pool.rs:11-15 | a schedule that cannot go on has every worker gone after exactly one Inactive, and every fetched event taken |
| `WorkerQueue.SharedQueue.Refill` | examples/thread_pool.rs:89-97 | the queue is replaced by what was fetched and the messenger lock released |
| `WorkerQueue.SharedQueue.TakeEvent` | examples/thread_pool.rs:84-107 | the critical section is a run of the machine; it refills only an empty queue and takes the front |
| `WorkerQueue.SharedQueue.DispatchEvent` | examples/thread_pool.rs:116-146 | a worker ends exactly on Inactive |

## Left out

- Sockets, poll, DNS, the TLS library, certificates, configuration and tracing: their answers are parameters of the steps.
- bincode, serde, JSON and MessagePack codecs: the codec contract stands for them; the hand-written codec is proved to meet it.
- Connection records are values in a map, not objects: Rust's ownership rules out the aliasing that objects would add.
- `get_listener_addresses`, the `shutdown_*` family and the addresses themselves: they change no modelled state.
- Runs end where `fetch_events` returns an error or an assertion fails: the collected batch is lost there.
- Ids.AdvanceConnectionId: requires a free id in the range; with none the source searches forever, which the machines report as a halt.
- An error while accepting is one outcome, whether it comes from `accept` or from `set_nodelay`; what it does to the listener is not followed, as the run ends.
- EndToEnd.EndToEndDelivery: is about a connection's first lifetime and assumes that the receiving socket hands over a prefix of the bytes the sending one took; ids given out again within a run, and buffers left behind by a close from another thread, are not covered.
- In the TLS transport the rest of the close family, the sending family and the outer loop of `fetch_events` repeat the TCP code and are not modelled again as methods; a send is one `Queue` per receiver.
- TlsTheorems.IncomingConservation: is about plaintext handed over to the transport; what the TLS library still holds when the peer closes is never asked for by the code, and is lost.
- InterfaceObjects.TransportInterface.Submit: stands for all methods of the handle; waiting for the response of connect and listen is not modelled.
- Bookkeeping.WrappedAroundDiffers: the state is one that the invariant allows; a run of about 2^64 steps that reaches it is not written out.
- Bookkeeping.BookkeepingMattersIff: asks for room for the ids given out, without which the source's search does not end.
- The wake-up of poll is consumed by one return of poll, the least that the kernel promises.
- In the chat, events that make the server panic (Inactive, ConnectionFailed), the registry that lists only one direction's messages, console output and the input thread; ids are not reused within a run.
- examples/chat/server_multi.rs: its handlers interleave between lock sections, and the replication result does not hold there.
- The worker's handling of an event is one step without effect on the queue; the messages it sends are covered by the interface results.
- minimal.rs, minimal_transport.rs, p2p_mesh.rs, command lines.
