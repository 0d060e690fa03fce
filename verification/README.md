# A verified model of webtransport-go's session machinery

webtransport-go implements WebTransport over HTTP/3 (draft-ietf-webtrans-http3-16) on
top of quic-go. This project models the part that is hard to get right: the
two-endpoint credit protocol for streams and data (section 5 of the draft), the
session's lifecycle (section 6), stream buffering and the stream error mapping
(section 4), and the codecs underneath. It proves what that part keeps in every
interleaving of its goroutines.

`dafny verify dfyconfig.toml` checks everything.

## How it is built

Code that works under a lock appears twice.

* A specification module has a value `State` (the lock-protected fields, the program
  counter of every call in progress, and a history of the run) and one function per
  critical section. The source is split wherever it unlocks. A run is any sequence of
  enabled steps; the theorems are about every state of every run.
* Beside it, a class has the source's own fields and one method per critical section,
  written the way the source does it. A ghost field `now` is the specification's
  state, `Valid()` ties the fields to it and includes the invariant, and every method
  is proved to take `now` to exactly what the specification's function says. Where no
  other goroutine matters (the data controllers, the parser, the counting reader, the
  settings), the contract gives the new fields as a function of the old ones instead.
  Loops of the source are loops here.

| module | models |
|---|---|
| `OutgoingStreams`, `OutgoingStreamsMap` | streams_map_outgoing.go |
| `IncomingStreams`, `IncomingStreamsMap`, `AcceptQueue` | streams_map_incoming.go, `registerClose` of stream.go |
| `Config` | config.go, the limits that `newSession` sets |
| `StreamCredit` | two endpoints: an outgoing map, an incoming map, capsules and streams in flight |
| `FlowControl`, `DataWriter`, `ReceiveStream` | flow_control.go, `writeData`, the accounting of receive_stream.go |
| `DataCredit` | two endpoints: both data controllers, all streams, capsules in flight |
| `SendStream`, `StreamHeader` | the stream header: sending it, and measuring it |
| `CapsuleWriter`, `Session` | the capsule queue, the writing goroutine, closing |
| `CapsuleStream`, `ConnectReader` | what the peer's parser and reading loop make of the bytes written |
| `LimitPath`, `DataPath` | two endpoints: a limit's whole way from publication over queue, writer and bytes to the reading loop, and data credit on top of it |
| `SessionClose`, `SessionLock` | the fan-out of a close to the four stream maps; the lock it takes |
| `SessionManager`, `SessionManagerState` | session_manager.go, the guard in `Upgrade` |
| `Varint`, `Utf8`, `Capsule`, `ErrorCodes` | the codecs and the error mapping |

## Main results

1. **Stream credit between peers** (`StreamCredit.PeersRespectStreamLimits`): two copies
   of this code with any two configurations never accuse each other of opening too many
   streams or of sending a limit that does not increase.
2. **The increment that does not look** (`OutgoingStreams.CreditIsSafe`): a woken
   waiter counts its stream without checking the limit, and the limit holds anyway;
   `NoLostWakeUp`, `NoOvertaking` and `AnnouncedOnce` say why and what else follows.
3. **Data credit between peers** (`DataCredit.PeersRespectDataLimits`,
   `SenderHasCredit`), through every stream's own accounting, with the stream header
   counted on neither side because both sides agree on its length.
4. **The CONNECT stream** (`CapsuleWriter.Framing`, `CapsuleStream.PeerReadsWhatWasQueued`):
   whatever interleaving of queueing, closing and failing writes put the bytes on the
   stream, the peer's parser gets whole capsules, in order.
5. **The whole way of a limit** (`LimitPath.PeersAgreeOverTheWire`, `LimitsArrive`,
   `DataPath.PeersAgreeOnData`): results 1 and 3 again, with the publishing locks, the
   bounded queue, the writer, its failures, the bytes, the parser and the reading loop in
   between instead of a channel, each a goroutine's step of its own; and the limits in use
   become the published ones.
6. **A close leaves no survivor** (`SessionClose.NoSurvivor`), and what becomes of the
   CONNECT stream (`CapsuleWriter.CloseOutcome`, `CloseCanEnd`).
7. **No stream gets lost between arrival and session** (`SessionManager.Conservation`).

## Where the code does less than one might expect

* The accept queue's one-slot channel preserves wake-ups exactly for one accepting
  goroutine at a time (`AcceptQueue.NoLostWakeUpIff`); `TwoAcceptorsLoseOne` is a run
  in which a second one sleeps beside a waiting stream.
* Credit granted to a write is not given back when the write fails, nor when a reset
  discards bytes. `DataCredit.CreditAtRest` says exactly when the sender still has
  credit; `FailedWriteStarves` is a run in which one failed write uses up a whole window,
  and `StarvedForever` says that such a session never sends again.
* `Session.OpenStream` holds the close lock while the map queues its WT_STREAMS_BLOCKED
  capsule. If the capsule queue is full, queueing it closes the session, which takes the
  same lock: `SessionLock.DeadlockIff` and `OpenDeadlocksIff` say exactly when,
  `FullQueueDeadlocks` is a run, and `DeadlockForever` says that the session can then
  never be closed.
* A close with a capsule can end with nobody sending the capsule or resetting the CONNECT
  stream: `CapsuleWriter.CloseOutcome` says exactly when, `WriterMissesClose` and
  `WriterStopsBeforeClose` are runs.
* A session's close between a stream header's write and the call that makes it reliable
  drops header bytes: `SendStream.ResetDropsHeaderIff` says exactly when,
  `CloseBeforeBoundary` is a run, and `ResetIsFinal` says that setting the boundary
  afterwards does not help.
* `AddBytesRead` does not cap the limit it publishes. `FlowControl.LimitTooLargeIff`
  says exactly when a limit is too large for a varint, `LargestWindowOverflows` is an
  instance, `DataCredit.LimitsFit` says how long every limit in flight fits.
* A stream that reaches the session manager between the manager's `Close` and the end
  of its session is buffered and later forgotten without being canceled
  (`SessionManager.DroppedAfterClose`); `DeletionDropsIff` says exactly when.
* A capsule queued while a close clears the queue may be popped without being written:
  after a close, what is written is an in-order subsequence of what was queued, and
  only until then a prefix (`CapsuleWriter.Framing`).

## Assumptions about the libraries

These are the enabling conditions of the steps. QUIC never hands out a stream ID
twice. `Write` takes at most what it is given, all of it if it reports no error, and
nothing after a reset. `WriteWithLimit` takes no more than it was granted and reports
the limit only after a short grant. `TryWriteAll` is all or nothing. `SetReliableBoundary` marks
what was written so far; a reset still delivers what is below the mark of that moment, and
marking afterwards changes nothing. The final size of
a stream is at least what was handed out and at most what was sent, less than that if
a reset discards bytes, and is reported as one value. Varints follow
section 16 of RFC 9000, capsules section 3.2 of RFC 9297, UTF-8 section 4 of RFC 3629,
and the reserved error codes are those of section 8.1 of RFC 9114.

## Model

| member | source | states |
|---|---|---|
| `OutgoingStreams.CreditIsSafe` | streams_map_outgoing.go:147-334 | in every state of every run `numStreams` is within `maxStreams`; while open it is streams opened plus reservations in flight, so a rollback never underflows; no send hits a closed channel and no empty queue is popped |
| `OutgoingStreams.NoLostWakeUp` | streams_map_outgoing.go:236-334 | while the map is open with callers queued and credit left, the head has a token or has taken it; nobody else ever has one, and nobody has one without credit |
| `OutgoingStreams.NoOvertaking` | streams_map_outgoing.go:155-158 | calls that took credit followed by those in line are the calls that asked, in order, without those that left |
| `OutgoingStreams.AnnouncedOnce` | streams_map_outgoing.go:160-171 | each limit is announced at most once, by one call; with callers queued and no credit the current limit was announced or is about to be |
| `OutgoingStreams.CloseLeavesNone` | streams_map_outgoing.go:336-357 | after the close every stream ever opened and not removed has the close error, calls still opening had their context cancelled, the queue is empty, later opens fail with the error |
| `OutgoingStreams.SyncOutcomes` | streams_map_outgoing.go:196-302 | over runs an OpenStreamSync call returns only a stream QUIC opened for it, the close error, its context's end, or QUIC's error: without credit it waits |
| `OutgoingStreams.NobodyStuck` | streams_map_outgoing.go:236-302 | every call under way can take its next step, unless it waits in the queue of an open map for credit or for the calls before it; a close lets all of them go on |
| `OutgoingStreams.WaiterOpens` | streams_map_outgoing.go:245-302 | a run in which a call without credit is queued, announces the limit, and opens after the next WT_MAX_STREAMS |
| `OutgoingStreams.UnlockedSteps` | streams_map_outgoing.go:251-272 | what an announcement, a receive and a context's end do to their call, and that they do nothing else |
| `OutgoingStreams.WokenIsHead` | streams_map_outgoing.go:273-286 | a woken waiter of an open map is the head of the queue and credit remains |
| `OutgoingStreams.TakeKeeps` | streams_map_outgoing.go:285-301 | taking credit without looking at the limit keeps the whole invariant |
| `OutgoingStreams.RollbackKeeps` | streams_map_outgoing.go:222-231 | returning a reservation and unblocking the next waiter keeps the invariant |
| `OutgoingStreams.CancelKeeps` | streams_map_outgoing.go:261-284 | a waiter leaving the queue, with or without a token, passes the credit on and keeps the invariant |
| `OutgoingStreams.StepKeeps` | streams_map_outgoing.go:141-357 | every critical section of every call keeps the invariant over queue, tokens, reservations, announcements and streams |
| `OutgoingStreams.RunKeeps` | streams_map_outgoing.go:141-357 | the invariant holds in every state of every run |
| `OutgoingStreamsMap.StreamsMap.MaybeUnblockOpenSync` | streams_map_outgoing.go:321-334 | the head's channel gets a token exactly if there is a head and credit; a full channel is left alone |
| `OutgoingStreamsMap.StreamsMap.OpenStream` | streams_map_outgoing.go:147-184 | in the fields, in all branches: the outcome, the limit to announce, the count and the registration |
| `OutgoingStreamsMap.StreamsMap.OpenStreamSync` | streams_map_outgoing.go:196-257 | in the fields: closed gives the close error, an ended context its error; an empty queue with credit counts, registers the context and opens; otherwise the call joins the end of the queue and announces exactly if there is no credit and the limit was not announced |
| `OutgoingStreamsMap.StreamsMap.ResumeQueued` | streams_map_outgoing.go:253-260 | after the announcement: the close error, or on to waiting |
| `OutgoingStreamsMap.StreamsMap.CancelWait` | streams_map_outgoing.go:261-269 | the waiter is removed wherever it stands and the next one unblocked |
| `OutgoingStreamsMap.StreamsMap.WakeUp` | streams_map_outgoing.go:273-302 | after the wake-up: closed, cancelled, or credit taken |
| `OutgoingStreamsMap.StreamsMap.LeaveClosed` | streams_map_outgoing.go:273-276 | a waiter of a closed map leaves with its error, and nothing else changes |
| `OutgoingStreamsMap.StreamsMap.TakeTurn` | streams_map_outgoing.go:285-301 | a waiter with a token takes credit, keeping the invariant |
| `OutgoingStreamsMap.StreamsMap.TakeCredit` | streams_map_outgoing.go:285-301 | count, queue, token, announcement and context after taking credit |
| `OutgoingStreamsMap.StreamsMap.ResumeReserved` | streams_map_outgoing.go:293-301 | after the announcement: the close error, or on to opening |
| `OutgoingStreamsMap.StreamsMap.FinishOpen` | streams_map_outgoing.go:214-233 | registered, closed with the session's error, or rolled back |
| `OutgoingStreamsMap.StreamsMap.RemoveStream` | streams_map_outgoing.go:141-145 | only the registration goes; credit is not returned |
| `OutgoingStreamsMap.StreamsMap.UpdateStreamLimit` | streams_map_outgoing.go:304-318 | accepted exactly if the map is closed or the limit increases; raises, re-arms the announcement, unblocks |
| `OutgoingStreamsMap.StreamsMap.CloseSession` | streams_map_outgoing.go:336-357 | only the first close acts; contexts, channels and streams |
| `OutgoingStreamsMap.StreamsMap.CancelContexts` | streams_map_outgoing.go:345-347 | the loop cancels every registered context and no other |
| `OutgoingStreamsMap.StreamsMap.CloseChannels` | streams_map_outgoing.go:348-351 | the loop closes every waiter's channel, each open until then, and empties the queue |
| `OutgoingStreamsMap.StreamsMap.CloseStreams` | streams_map_outgoing.go:353-356 | the loop closes every registered stream with the error and empties the map |
| `IncomingStreams.ExactCredit` | streams_map_incoming.go:75-131 | while open `maxStreams` is `min(numStreams + maxOpenStreams - len(m), 2^60)`, at most `maxOpenStreams` are open, each stream gives its credit back once, and exactly those have or are about to whose halves all closed; no sum reaches 2^62 |
| `IncomingStreams.RegisterCloseKeeps` | stream.go:77-90 | registering a half, any number of times, asks for a removal exactly if the stream is closed then |
| `IncomingStreams.RemoveKeepsHalves` | streams_map_incoming.go:115-121 | a removal that a close callback asked for releases the stream once; a repeated one finds nothing |
| `IncomingStreams.PublishedInOrder` | streams_map_incoming.go:115-142 | published limits strictly increase and never exceed the enforced one, which is the last published once no call is between its locks |
| `IncomingStreams.CloseLeavesNone` | streams_map_incoming.go:93-99 | after the close nothing is registered; every stream not removed before, or arriving late, is closed with the error |
| `IncomingStreams.RemoveRaisesByOne` | streams_map_incoming.go:121-131 | removing a stream raises the limit by exactly one, up to the cap |
| `IncomingStreams.StepKeeps` | streams_map_incoming.go:93-179 | every critical section keeps the invariant |
| `IncomingStreams.RunKeeps` | streams_map_incoming.go:75-179 | the invariant holds in every state of every run |
| `IncomingStreams.AccountedAdds` | streams_map_incoming.go:93-109 | a stream handed to AddStream is counted if it fits, and about to be closed if the map is closed |
| `IncomingStreams.AccountedStays` | streams_map_incoming.go:115-179 | no other step loses a stream: it stays counted while open, and released, closed or about to be closed afterwards |
| `IncomingStreamsMap.StreamsMap.AddStream` | streams_map_incoming.go:93-113 | in the fields: open with room counts and registers, open and full changes nothing and reports too many, closed hands the stream back with the close error |
| `IncomingStreamsMap.StreamsMap.RemoveStream` | streams_map_incoming.go:115-132 | in the fields: a registered stream goes and the limit rises by one, up to the cap, and is to be published exactly then; any other ID changes nothing |
| `IncomingStreamsMap.StreamsMap.PublishMaxStreams` | streams_map_incoming.go:133-141 | published exactly if above what was published |
| `IncomingStreamsMap.StreamsMap.CloseSession` | streams_map_incoming.go:166-179 | only the first close acts; the loop closes every registered stream |
| `IncomingStreamsMap.Stream.RegisterClose` | stream.go:77-85 | the callback is asked for exactly when both halves are closed, as a step of the map's run |
| `IncomingStreamsMap.Stream.Close` | stream.go:77-90 | with the callback run: the stream of an open map has given back its credit exactly if both halves are closed, and a limit is raised only when it does so |
| `AcceptQueue.Fifo` | streams_map_incoming.go:29-50 | in every run streams are accepted in the order they were added, each once |
| `AcceptQueue.OneAcceptor` | streams_map_incoming.go:144-164 | one sleeping caller always has a notification coming if a stream waits |
| `AcceptQueue.TwoAcceptorsLoseOne` | streams_map_incoming.go:34-37 | a run in which the second caller's wake-up is lost |
| `AcceptQueue.NoLostWakeUpIff` | streams_map_incoming.go:150-163 | no run with at most `k` callers loses a wake-up, if and only if `k <= 1` |
| `AcceptQueue.Queue.Add` | streams_map_incoming.go:29-32 | a step of the run; what was added stays what was accepted followed by what is queued |
| `AcceptQueue.Queue.Signal` | streams_map_incoming.go:34-37 | a step of the run: one notification less to come, and the channel holds one |
| `AcceptQueue.Queue.TakeNext` | streams_map_incoming.go:40-50 | a step of the run: the oldest item not accepted yet, or nothing exactly if all were |
| `AcceptQueue.Queue.Receive` | streams_map_incoming.go:156-161 | a step of the run: the sleeper checks again, the notification is used up |
| `AcceptQueue.Queue.AcceptStream` | streams_map_incoming.go:150-163 | the loop returns the oldest item not accepted yet, and sleeps exactly if there is none |
| `Config.SettingsMap.AddSettings` | config.go:54-67 | the settings map after the in-place update |
| `Config.SettingsReadBack` | config.go:43-67 | a peer reads back exactly the clamped limits, whatever was set before, and all other settings are untouched |
| `Config.EndpointsAgree` | config.go:69-90 | for any two configurations both endpoints agree on flow control and on every limit, within the protocol's caps |
| `Config.EnabledIff` | config.go:69-80 | flow control is used if and only if both endpoints ask for a positive limit of some kind |
| `Config.LimitsClamped` | config.go:43-67 | each limit is its configured value, zero if negative, the cap if above it; without flow control the cap alone; a limit is announced exactly if it is not zero |
| `StreamCredit.ArrivalFits` | streams_map_incoming.go:100-108 | a stream the sender opened always fits within the receiver's limit when it arrives |
| `StreamCredit.StepKeeps` | streams_map_incoming.go:93-142 | no step of either endpoint or of the network breaks the joint invariant or reports a violation |
| `StreamCredit.PeersRespectStreamLimits` | streams_map_outgoing.go:304-318 | for any two configurations and any run, `AddStream` never reports too many streams, `UpdateStreamLimit` never a non-increase; an open receiver counted exactly the streams that arrived, a closed one has released or closed each or is about to |
| `FlowControl.OutgoingController.AddBytesSent` | flow_control.go:27-37 | the grant and the new count |
| `FlowControl.OutgoingController.IsNewlyBlocked` | flow_control.go:39-48 | true once per limit, and only with all credit used |
| `FlowControl.OutgoingController.UpdateMaxData` | flow_control.go:50-61 | accepted exactly if it increases; a new channel generation |
| `FlowControl.GrantWithinLimit` | flow_control.go:27-37 | grants stay within the limit, and a short one has used it up |
| `FlowControl.IncomingController.AddBytesRead` | flow_control.go:88-107 | accepted exactly within the limit; count, limit and updates afterwards |
| `FlowControl.WindowKept` | flow_control.go:96-105 | after every read the credit left is between the window less a quarter and the window; an update is one more and larger |
| `FlowControl.LimitTooLargeIff` | flow_control.go:96-105 | exactly when the new limit is too large for a varint |
| `FlowControl.LargestWindowOverflows` | flow_control.go:100-105 | the largest window, a quarter read, asks for a limit no varint holds |
| `DataWriter.WritesAreExact` | send_stream.go:142-169 | in every run of concurrent writers each handed QUIC exactly the first `written` bytes of its data; handed over, held and lost together are what the controller counted; each limit is announced at most once |
| `DataWriter.NoUpdateMissed` | send_stream.go:161-202 | a writer waiting on the current channel waits with all credit used, this limit marked as blocking, and its announcement made or about to be; one waiting on an older channel can go on |
| `DataWriter.EndsComplete` | send_stream.go:148-169 | a call ends with all its data written, or because its write failed or it gave up waiting: a limit alone never ends it |
| `DataWriter.WriterGoesOn` | send_stream.go:148-167 | a call that does not wait for credit can always take its next step |
| `DataWriter.StepFacts` | send_stream.go:148-202 | what each step does to its call and to the controller; a higher limit lets every waiter go on |
| `DataWriter.StepKeeps` | send_stream.go:142-202 | every step keeps the writers' invariant |
| `DataWriter.WriteData` | send_stream.go:142-169 | the loop: bytes handed over are the first `written` of the input, within the credit; every limit met is announced unless marked before; it fails exactly if the last turn failed, waits only when blocked, and completes if limits keep coming |
| `DataWriter.WriteTurn` | send_stream.go:149-163 | one turn: the grant, what QUIC takes of it, whether to wait, and the limit to announce |
| `ReceiveStream.ChargedExactlyOnce` | receive_stream.go:76-116 | in every interleaving of reads and the final-size callback, charged plus owed is bytes read less the header; once the final size is settled, exactly that size less the header |
| `ReceiveStream.ReadsAreCharged` | receive_stream.go:76-87 | until the final size is known, everything Read calls got is charged, owed, or about to be accounted for |
| `ReceiveStream.FinalSizeSettles` | receive_stream.go:99-107 | once the final size was reported, charged plus owed is that size less the header in every later state |
| `ReceiveStream.StepKeeps` | receive_stream.go:76-107 | every critical section keeps the accounting |
| `ReceiveStream.Stream.Read` | receive_stream.go:79-87 | the amount to charge, nothing once the final size is known |
| `ReceiveStream.Stream.OnReceiveFinalSize` | receive_stream.go:99-107 | charges what was not accounted for yet |
| `DataCredit.ChargeFits` | receive_stream.go:109-116 | every charge that is due is within the limit the receiver gave |
| `DataCredit.MeasuredIsSent` | protocol.go:47-59 | the header length the receiver measures is the length the sender wrote |
| `DataCredit.PeersRespectDataLimits` | flow_control.go:27-107 | for any two configurations and any run: payload sent is within `bytesSent`, that within the sender's `maxData`, that within the receiver's; neither `AddBytesRead` nor `UpdateMaxData` ever fails; headers count on neither side |
| `DataCredit.StepCounts` | send_stream.go:148-159 | what each step counts: grants, bytes handed over, losses, charges, limits |
| `DataCredit.LimitsFit` | flow_control.go:100-105 | no limit in flight exceeds bytes read plus window, so all fit a varint while that sum does |
| `DataCredit.CreditIff` | flow_control.go:27-37 | with no capsule dropped or under way, the sender has credit if and only if what only it counted is less than the receiver's credit left |
| `DataCredit.CreditAtRest` | send_stream.go:150-159 | with everything read, the sender has credit if and only if what failed writes and resets lost is less than the receiver's credit left: surely below three quarters of the window, never at the window |
| `DataCredit.SenderHasCredit` | flow_control.go:79-107 | with everything the sender counted read, all capsules delivered and a positive window, the sender has credit |
| `DataCredit.FailedWriteStarves` | send_stream.go:150-159 | a run in which one failed write uses up the whole window |
| `DataCredit.StarvedForever` | flow_control.go:27-37 | a sender starved at rest stays so in every later state and sends no byte any more |
| `SendStream.HeaderBeforePayload` | send_stream.go:127-140 | over any sequence of writes, failed and partial header writes, Close, CancelWrite and session close, the last also between a header write and its boundary: header bytes in order, each once, no payload before all of them; the boundary never covers payload, is at the header's end before any, and leaves out header bytes sent if and only if a header write that took some has not set it yet |
| `SendStream.WritesGoOn` | send_stream.go:127-140 | nothing is held back: a Write that was not taken over goes on to its payload once the header is out and covered, its payload goes out, and a header taken over goes out, is covered, and ends the stream |
| `SendStream.ResetDropsHeaderIff` | send_stream.go:255-261 | the step that resets the stream drops header bytes that were sent if and only if it is the session's close and a header write that took some has not set the boundary yet; with payload sent the whole header is kept |
| `SendStream.ResetIsFinal` | send_stream.go:212-217 | what a reset keeps and what was sent is the same in every later state, wherever the boundary is set |
| `SendStream.CloseBeforeBoundary` | send_stream.go:208-212 | a run in which the session's close resets the stream with the whole header written and none of it kept, though the boundary is set afterwards |
| `SendStream.StepKeeps` | send_stream.go:204-294 | every step keeps the header's invariant |
| `SendStream.Stream.SendHeader` | send_stream.go:127-134 | in the fields: refused, on to the payload exactly if no error is set and no header pending, or the header's bytes go out and the boundary is next |
| `SendStream.Stream.MarkBoundary` | send_stream.go:212-217 | the boundary covers what was sent, and the call goes on to its payload exactly if QUIC reported no error |
| `SendStream.Stream.TakeOver` | send_stream.go:224-239 | a pending header is handed to one goroutine, once |
| `StreamHeader.HeaderReadBack` | streams_map_outgoing.go:135-139 | the receiver reads the sender's session and measures exactly the sender's header; an ID no request stream has closes the connection |
| `StreamHeader.OtherStreams` | server.go:244-263 | a stream of another type goes to HTTP/3, one that ends within its type is ignored, one that ends within its session ID is reset |
| `StreamHeader.CountingReader.ReadByte` | protocol.go:53-59 | counts exactly the bytes it returned |
| `StreamHeader.CountingReader.ReadVarint` | server.go:252-258 | reads one varint, counting its bytes |
| `StreamHeader.CountingReader.ReadHeader` | server.go:244-268 | what becomes of a stream, in every case, and the header length that goes with it |
| `CapsuleWriter.Framing` | session.go:189-264 | in every run: whole capsules in queue order, each at most once; only the last thing can be torn (then reset) or the close capsule; written plus queued is everything queued until a close; at most 4096 queued; a sleeping writer with work has a wake-up coming |
| `CapsuleWriter.NothingFollows` | session.go:201-221 | nothing follows a torn capsule or the close capsule |
| `CapsuleWriter.OrderedIsAll` | session.go:232-236 | before a close, written and unwritten capsules are all of them, in order |
| `CapsuleWriter.StepKeeps` | session.go:189-264 | every step of writer, queueing calls and closer keeps the invariant |
| `CapsuleWriter.RunKeeps` | session.go:189-264 | the invariant holds in every state of every run |
| `CapsuleWriter.CloseOutcome` | session.go:201-231 | with the first close through and the writer ended: the close capsule was sent or the stream reset, and reading canceled, if and only if not (a capsule is pending and the writer took the step that ends it on a done context, or on finding none pending after a failed write) |
| `CapsuleWriter.CloseCanEnd` | session.go:384-386 | with the close through and its capsule pending, CloseWithError's wait is over, or a step of the writer is enabled, or the notification that enables one |
| `CapsuleWriter.WriterComesToItsEnd` | session.go:199-237 | every step of the writer then brings it closer to its end, at most five, and no other step takes it back |
| `CapsuleWriter.WriterMissesClose` | session.go:222-231 | a run in which a failed write makes the writer end before the close capsule is pending |
| `CapsuleWriter.WriterStopsBeforeClose` | session.go:193-197 | a run in which the writer sees the context end before the notification |
| `CapsuleStream.PeerReadsWhatWasQueued` | session.go:214-231 | the peer's parser sees exactly the capsules written whole; before a close a prefix of those queued |
| `CapsuleStream.ParseLast` | session.go:214-221 | a torn capsule yields nothing, a complete one itself |
| `Session.Session.QueueCapsule` | session.go:248-258 | appended, or refused exactly if 4096 are queued |
| `Session.Session.QueueOrClose` | session.go:248-258 | a full queue closes the session with an excessive-load error, unless it is closed already |
| `Session.Session.Notify` | session.go:260-263 | the channel holds a notification |
| `Session.Session.CloseWithError` | session.go:407-415 | only the first error is kept |
| `Session.Session.ClearQueue` | session.go:422-439 | what was queued is dropped and the close capsule, if any, is pending |
| `Session.Session.EndClose` | session.go:428-449 | the writer is woken, or both sides of the stream are given up |
| `Session.Session.WriterLook` | session.go:200-212 | a pending close goes before anything queued |
| `Session.Session.WriterPop` | session.go:232-236 | removes the head, if a close has not |
| `Session.Session.WriteHead` | session.go:214-216 | the bytes the stream took are the encoding, a part of it, or nothing |
| `Session.Session.CloseSessionStream` | session.go:390-397 | the close capsule goes out as a whole or the stream is reset; reading is canceled and the stream closed |
| `Session.Session.CancelStream` | session.go:216-218 | after a torn capsule both sides of the stream are given up |
| `Session.Session.CloseAfterFailure` | session.go:219-222 | the writer closes the session, unless another close came first |
| `Session.Session.HasClose` | session.go:223-230 | the writer goes on exactly if a close capsule is pending, and ends otherwise |
| `Session.Session.WriteTurn` | session.go:199-237 | one turn writes the head and removes it, or ends the loop |
| `Session.Session.WriteQueue` | session.go:199-237 | the inner loop, undisturbed, puts the encodings of the queue on the stream in order and sleeps only with nothing left |
| `ConnectReader.Dispatch` | session.go:145-178 | each capsule raises its own limit and no other |
| `ConnectReader.ReadFromConnectStream` | session.go:137-180 | the loop acts on exactly the capsules in the bytes, until a close, a limit that does not increase, or the end, and closes with the peer's code and message, the flow-control error, or the datagram error |
| `ConnectReader.BytesAreCapsules` | session.go:138-144 | reading the bytes is acting on the parsed capsules one by one |
| `ConnectReader.ReadIffClimbing` | session.go:149-172 | the reader finds nothing wrong if and only if the limits of each kind strictly climb; the limits are then the last of each kind |
| `ConnectReader.QueuedLimitsArrive` | session.go:137-239 | limits queued in climbing order by the peer's writer arrive, from its queue over the bytes to this side's limits |
| `SessionClose.FirstErrorWins` | session.go:407-415 | once set, the close error is the same in every later state |
| `SessionClose.CloseTakesEffect` | session.go:407-420 | the first close sets its error, and its fan-out closes one map after the other with it |
| `SessionClose.NoSurvivor` | session.go:407-420 | once the fan-out is through, every stream of all four maps not removed before has the first error, those opened or arriving late included; every later open of both kinds, and every waiter that wakes up, fails with it |
| `SessionClose.StepKeeps` | session.go:414-420 | maps are closed in order, with the session's error, whatever calls race with it |
| `SessionLock.DeadlockIff` | session.go:241-256 | one step leads into the deadlock, exactly if the announcing OpenStream call finds the context alive and 4096 capsules queued |
| `SessionLock.OpenDeadlocksIff` | session.go:314-322 | before the call: OpenStream never returns if and only if the session is open, the map has no credit, no waiters and no announcement, and the queue of a live session is full |
| `SessionLock.HolderGoesOn` | session.go:314-322 | otherwise the call that holds the lock can always go on |
| `SessionLock.CloseTakesLock` | session.go:407-415 | a closeWithError call that gets the lock sets the error unless there is one, and an open then leaves the lock again |
| `SessionLock.DeadlockForever` | session.go:407-415 | the deadlock lasts, and the session has no close error in any later state |
| `SessionLock.FullQueueDeadlocks` | session.go:248-256 | a run into the deadlock |
| `LimitPath.PeersAgreeOverTheWire` | session.go:93-107 | for any two configurations and any interleaving of publication, queueing, closing, failing writes, parsing, opens and arrivals: no limit is found not to increase, no stream too many; limits are queued in increasing order; one can be encoded if and only if it counts streams, or bytes read and window fit a varint |
| `LimitPath.LimitsArrive` | streams_map_incoming.go:133-141 | with nothing dropped or closed and everything queued read, the limits in use are the last published |
| `LimitPath.TakeReads` | session.go:138-144 | the parser finds the next capsule on the stream exactly as it was queued |
| `LimitPath.StepKeeps` | session.go:137-264 | every step of either endpoint keeps the invariant and reports no violation |
| `DataPath.PeersAgreeOnData` | receive_stream.go:76-116 | with the streams, writes, resets and charges of both endpoints on top: no charge exceeds the receiver's limit, no limit is found not to increase, and payload sent, the sender's count, its limit and the receiver's are in this order |
| `DataPath.CreditIff` | flow_control.go:50-61 | with nothing dropped or closed and everything queued read, the sender has credit if and only if what only it counted is less than the receiver's credit left |
| `DataPath.StepKeeps` | flow_control.go:27-107 | every step on the data or on a limit's way keeps the invariants of both |
| `SessionManager.Conservation` | session_manager.go:51-190 | each stream that arrived is exactly one of buffered, delivered, rejected, dropped; delivery keeps arrival order per session and kind; nothing is dropped before the manager is closed |
| `SessionManager.FatesMove` | session_manager.go:51-190 | what each step does to each stream: the timer cancels exactly what is buffered for its session, establishing delivers exactly that, every other fate stays; an arriving stream is passed on, canceled if its session is unknown and among the last 16 closed, and else buffered |
| `SessionManager.SessionsAreKept` | session_manager.go:119-178 | a late timer leaves an established session alone; the closed list is exactly the last 16 closures; without flow control at most one session is established |
| `SessionManager.DroppedAfterClose` | session_manager.go:169-190 | a run in which a stream is forgotten without being canceled |
| `SessionManager.DeletionDropsIff` | session_manager.go:169-178 | handling a session's end forgets streams exactly if some are buffered under its ID, which takes a close of the manager |
| `SessionManager.StepKeeps` | session_manager.go:51-190 | every critical section keeps the invariant |
| `SessionManagerState.Manager.AddStream` | session_manager.go:51-108 | in the fields: passed on if established, canceled if unknown and recently closed, and else appended to the buffer of its kind |
| `SessionManagerState.Manager.OnTimer` | session_manager.go:119-138 | in the fields: an unestablished entry goes and exactly what it buffered is canceled; otherwise nothing changes |
| `SessionManagerState.Manager.AddSession` | session_manager.go:141-167 | hands out exactly what was buffered, of each kind, in order |
| `SessionManagerState.Manager.DeleteSession` | session_manager.go:169-178 | the entry goes, the ID joins the closed list, whose oldest goes beyond 16 |
| `SessionManagerState.Manager.Close` | session_manager.go:180-190 | everything is forgotten |
| `SessionManagerState.Manager.HasEstablished` | server.go:443-452 | the loop finds an established session exactly if there is one |
| `SessionManagerState.Manager.Upgrade` | server.go:441-465 | accepted exactly with flow control or no established session, and then registered |
| `Varint.RoundTrip` | capsule.go:146-150 | decoding an encoded integer gives it back, whatever follows |
| `Varint.CutOff` | capsule.go:202-206 | a cut-off encoding does not decode |
| `Capsule.Parser.ParseNextCapsule` | capsule.go:35-95 | the loop returns the next known capsule and leaves the reader after it |
| `Capsule.CapsuleReadBack` | capsule.go:120-200 | parsing an encoded capsule gives it back, and what follows |
| `Capsule.ParseWire` | capsule.go:35-95 | parsing encoded capsules interleaved with unknown ones yields exactly the known ones in order |
| `Capsule.ForeignIsUnknown` | capsule.go:41-93 | a capsule is skipped if and only if its type is not one of the nine |
| `Capsule.MalformedIsBad` | capsule.go:54-86 | what is refused: the two HTTP/2 capsules, a close without a whole code, a number cut off or with anything behind it, a stream count above 2^60 |
| `Capsule.CutOffYieldsNothing` | capsule.go:37-40 | a capsule cut off anywhere yields nothing |
| `Capsule.CloseMessageSurvives` | capsule.go:102-132 | a close message arrives as its longest character-aligned prefix of at most 1024 bytes, valid if it was, unchanged if it fits |
| `Capsule.LongCloseIsCut` | capsule.go:102-118 | a close message of any length is read up to 1024 bytes, the rest of it skipped, and what follows is intact |
| `Utf8.TruncateUTF8` | capsule.go:252-261 | the loop keeps everything up to the last position where a character may start |
| `Utf8.BoundaryIffRuneStart` | capsule.go:257-259 | in valid UTF-8 a prefix is valid if and only if the next byte can start a character |
| `Utf8.TruncatedIsLongest` | capsule.go:252-261 | the cut of a valid string is valid and the longest valid prefix that fits; at most three bytes are given up |
| `ErrorCodes.StrictlyMonotone` | errors.go:21-23 | the mapping is strictly increasing |
| `ErrorCodes.RoundTrip` | errors.go:21-34 | codes map into the range, from its first to its last code, never to a reserved one, and back to themselves |
| `ErrorCodes.Inverse` | errors.go:25-34 | exactly the codes of the range that are not reserved convert, each to the code it came from |
| `ErrorCodes.Bijection` | errors.go:16-34 | the images are exactly the codes of the range that are not reserved |
| `ErrorCodes.CancellationCodeSurvives` | stream.go:123-138 | a stream canceled with a code is reported with that code |
| `ErrorCodes.OtherErrorsPass` | stream.go:123-138 | a QUIC error is unconvertible exactly if its code is outside the range or reserved; any other error passes unchanged |

## Left out

- Dialing, listening, TLS, waiting for SETTINGS, start-up of goroutines (client_conn.go, transport.go, most of server.go): plumbing over libraries.
- Real time: deadlines, timer durations and `closeSessionTimeout`; a timeout is an event that may happen at any step, a timer may fire late.
- The internals of quic-go, http3 and httpsfv: replaced by the assumptions above.
- Datagrams, address accessors, `SessionState`, origin checking and protocol selection: pass-throughs or easy.
- The random key in `addStreamCtxCancel`: any key that is not in use.
- Error message texts, `Error()` and `Is()` methods; `handleSessionGoneError` and the reset code that `closeWithError` derives from the error.
- Heap identity of channels, contexts and streams: a waiter's channel is known by its call, an update channel by its generation, a stream by its ID; buffered streams are modelled without their header lengths.
- 64-bit wrap-around: integers are unbounded. `IncomingStreams.ExactCredit` and `OutgoingStreams.CreditIsSafe` keep the stream counters within limits that came in varints, so they cannot wrap; bytes counted by the data controllers are assumed to stay below 2^63.
- DataWriter.WriteData: QUIC calls back once a turn and other writers do not interfere, because the loop is one call; `DataWriter.StepKeeps` and the theorems about runs have both. Writes of a session without flow control go straight to QUIC and are not modelled.
- Session.Session.WriteQueue: models the inner loop without interference from other goroutines, which the runs of `CapsuleWriter` have, and stops before the writer handles a failed write, which `CancelStream`, `CloseAfterFailure` and `HasClose` do.
- ConnectReader.ReadFromConnectStream: no open or close comes between the turns of the loop, because the loop is one call; the runs of `LimitPath` have them.
- AcceptQueue.Queue.AcceptStream: no stream is added while the loop runs, which the runs of `AcceptQueue` have.
- LimitPath.PeersAgreeOverTheWire: a limit that no varint holds stays in hand, because encoding it ends the program; what other goroutines still do until then is not modelled. `FlowControl.LimitTooLargeIff` says when it comes to that.
- AcceptQueue.OneAcceptor: a caller that finds the session closed gives up like one whose context ends; the error it returns is not modelled.
- A stream refused by `AddStream` for exceeding the limit is closed by the session, together with the session; only the refusal is modelled.
