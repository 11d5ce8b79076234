# Verification of the heap-free MQTT 3.1.1 client

This project models the client library in Dafny and proves what it promises about the wire, about
its sessions and about message delivery. It has three layers.

**The wire** (`Packet`, `Utf8`, `Topic`, `TopicText`, `Codec`, `Encoder`, `ServerView`, `TxQueue`,
`Framing`). Every packet is a value (`Codec.Outgoing`) with an image in bytes (`Codec.Image`). The
encoders write exactly that image into a caller's buffer or fail, PUBLISH decoding is its inverse in
both directions, an independent reader recovers the arguments of CONNECT and SUBSCRIBE, and the
reassembler gives the same packets however the stream is cut up. The transmit queue is an array that
is compacted in place; its pending bytes are a FIFO.

**The session** (`Transport`, `IdAllocator`, `Subscriptions`, `Inflight`, `Inbound`, `Outbound`,
`Session`, `SessionSteps`, `ClientContracts`, `Client`). `Client.Client` is the client object with the
fields of the original. Its methods are the original's operations, one `step()` at a time, with
partial sends and receives, a wrapping clock, a transport that may do anything its interface allows,
and handlers that call back into the client in the middle of a packet. A ghost `log` records the
history: packets queued, bytes sent and received, packets handled, publications accepted,
acknowledgements handled, messages dispatched, rows added and removed, states passed through, sessions
ended, handlers called, `recv()` calls made. The methods that stand for the application's handlers
write the record of their call themselves. `SessionSteps.Sound` is the invariant that ties the fields
to the history; every method keeps it, so it holds between any two calls and whenever a handler runs.
No method drops or changes what has been recorded (`Session.Grown`), and everything but the handling
of packets leaves delivery, dispatch and the removal of rows alone (`Session.Quiet`). The lemmas named
`...History` spell out what that means, and `Client.Drive` runs a client through any sequence of
calls.

**The protocol** (`ExactlyOnce`, `AtLeastOnce`, `Halves`). The sending half and the receiving half of
QoS 1 and 2 are joined by two FIFO channels that a lost connection empties, and the theorems are about
every run. Both the client and the protocol are built from the same functions (`SenderSlots`,
`SenderCompletes`, `ReceiverTracks`, `ReceiverDispatches`, `ReceiverAnswers`), and both ends of every
run of the protocol are the same folds over histories of events that the client's invariant is about
(`Halves`). Conversely, every history that the client can record is what happens at one end of the
protocol in some surroundings (`SenderHistory`, `ReceiverHistory`).

`Witnesses` has states, written as the client's own steps, at which properties that one might expect
fail.

Integers are unbounded; where the original's width matters it is written out: the clock and the
timer fields are 32-bit with wrap-around subtraction, packet ids and subscription ids are 16-bit and
cycle through 1..65535.

## What the code does not give

These are results about the code as it is.

- **A closed transport is read once more.** A `disconnect()` that cannot queue its packet, because the
  session is not (or no longer) in state Connected or the transmit queue has no room for two bytes,
  closes the session at once with reason Ok (`Disconnect` says exactly when). If a handler does so,
  `drain_rx()` reports Ok, and `pump_rx()` calls `recv()` on the transport it has closed: the comment at
  include/mqtt/client.hpp:959-970 assumes that the reason was already returned. It happens in a step
  exactly if bytes had come in that round, no session was started instead, and it was not the eighth
  round (`ReadsClosed` in the contract of `Step`), so never without such a `disconnect()`.
  `ReadAfterClose` does it, from any state in which a handler may run, and `FullQueue` is such a state.
  `send()` is never called on a closed transport: `Link.Send` requires an open one.
- **`step()` can report another reason than `on_disconnect` did.** The documentation at
  include/mqtt/client.hpp:612-620 promises that they are the same. They differ exactly if a handler
  closed the session at once as above, and then `recv()` on the closed transport failed or the
  application called `abort()` as well (`StepOk` in the contract of `Step`, an equivalence).
  `ReadAfterClose` shows the first, `AbortAfterClose` the second.
- **QoS 1 under a reused packet id.** A PUBACK that answers an older publication completes a newer one
  under the same id, which then may never be delivered. `AnsweredTwice` and
  `SecondAnswerCompletesTheNext` give a run; `DeliveredMeansDispatched` proves that it happens exactly
  when a QoS 1 packet under that id was still under way when the id was taken.
- **A session lost at one end.** With CleanSession 0 the client keeps its inbound ids even if CONNACK
  reports no session. `SenderForgetsSafely` and `ReceiverForgetsSafely` say exactly when exactly-once
  survives such a loss.
- **An inner '#'.** The matcher differs from matching level by level for a '#' that is not the last
  level, and only for a topic that ends right above it. No valid filter has one.
- **UNSUBACK after a new subscribe.** A row that an UNSUBSCRIBE names is erased by its UNSUBACK even if
  the filter was subscribed again in between: a row survives exactly if it is not named
  (`SurvivesUnsuback`). `UnsubackForgets` gives a state.
- **A refused `connect()` can lose what is in flight.** It leaves everything as it was, except that for
  a clean session whose options are acceptable, and whose CONNECT does not fit the transmit buffer, it
  has already discarded what was in flight (include/mqtt/client.hpp:314-321). `Connect` says so for
  every input, and `RefusedConnectDiscards` gives one.
- **Three branches have no effect.** An unused packet id always exists, so the tests for id 0 after
  `alloc_packet_id()` never succeed (`AllocPacketId`). Outside an established session every row is
  already flagged, so the loop at include/mqtt/client.hpp:1093-1099 changes nothing (`FlaggedAgain`).
  A full receive buffer always holds a complete or an oversized packet, so the test at
  include/mqtt/client.hpp:971-974 never succeeds (`DrainRx`, `LeftoverFits`).

## Assumptions

- The configuration passes the compile-time checks (include/mqtt/config.hpp:119-132), stored packets
  are at most 65535 bytes long because their length is kept in 16 bits, there are fewer than 65535
  subscription rows, and fewer than 65535 slots and pending acknowledgements together
  (`Session.ConfigOk`).
- The transport keeps the contract at include/mqtt/transport.hpp:39-71: it never accepts or produces
  more bytes than offered, and none with an error. It is not connected when the client is built, and
  after `close()` it produces no bytes until the next successful `connect()`.
- The clock is monotonic in true time; the client sees its low 32 bits.
- A message handler publishes, disconnects, aborts, connects or calls `step()`, any number of times;
  the other handlers may also subscribe and unsubscribe. `on_disconnect` may connect again. A handler
  that is not set counts as one that does nothing when it is called.

## Model

| member | source | states |
|---|---|---|
| `Packet.VbiEncode` | src/packet.cpp:174-194 | writes the canonical encoding of the value at the front of the buffer and nothing behind it; fails exactly for a value out of range or a buffer too short |
| `Packet.VbiDecode` | src/packet.cpp:196-223 | the loop computes the decoding function, for input of any length |
| `Packet.DecodeVbiOfBytes` | src/packet.cpp:161-223 | an encoded value followed by anything decodes to that value and its length |
| `Packet.DecodeVbiResult` | src/packet.cpp:196-223 | whatever decodes is the one canonical encoding of its value: no second spelling is accepted |
| `Packet.DecodeVbiStable` | src/packet.cpp:196-223 | a decided answer does not change when more bytes arrive |
| `Packet.SpellingUnique` | src/packet.cpp:209-216 | a minimal encoding is determined by the value it spells |
| `Packet.HeaderByteBijection` | src/packet.cpp:91-149 | to_byte and from_byte are inverse between the accepted bytes and the headers with legal flags; every other byte is rejected |
| `Utf8.DecodeIffEncoded` | src/utf8.cpp:28-103 | a byte string decodes to a sequence of scalar values if and only if it is their RFC 3629 encoding, so the sequence is unique |
| `Utf8.WellFormedIffDecodes` | src/utf8.cpp:28-103 | decoding succeeds exactly on the strings of section 1.5.3 of MQTT 3.1.1: encodings of scalar values other than U+0000 |
| `Utf8.IsValidMqttString` | src/utf8.cpp:28-103 | the scanner accepts exactly those strings |
| `Topic.IsValidTopicName` | src/topic.cpp:9-25 | accepts exactly the nonempty well-formed strings of at most 65535 bytes without wildcards |
| `Topic.IsValidFilter` | src/topic.cpp:27-71 | accepts exactly the well-formed strings whose wildcards fill a level and whose '#' is the last level, as lists of levels |
| `Topic.TopicMatches` | src/topic.cpp:73-152 | the two-cursor loop is matching of level lists (section 4.7 of MQTT 3.1.1), except exactly for a topic that ends right above an inner '#' |
| `Topic.Round` | src/topic.cpp:99-151 | one pass of the loop reduces the question to the levels that are left |
| `Topic.ValidFilterMatchesExactly` | src/topic.cpp:58-65 | on valid filters the exception cannot occur |
| `Topic.HashInTheMiddle` | src/topic.cpp:141-147 | a filter and a topic on which the two definitions differ |
| `TopicText.LevelsEncoded` | src/topic.cpp:99-120 | splitting the bytes into levels is splitting the code points into levels |
| `TopicText.MatchesOverCodePoints` | src/topic.cpp:73-152 | matching the bytes of two strings is matching their code points |
| `Codec.PeekPacket` | src/codec.cpp:461-481 | a packet at the front of any input is recognised with its exact extent |
| `Codec.PeekedIsPacket` | src/codec.cpp:461-481 | whatever is recognised is the image of a packet with a legal header |
| `Codec.PeekStable` | src/codec.cpp:461-481 | a decided answer about the header does not change when more bytes arrive |
| `Codec.PublishRoundTrip` | src/codec.cpp:319-355 | an encoded PUBLISH, followed by anything, is framed and decoded to the same topic, payload, QoS, retain, DUP and id |
| `Codec.PublishReencodes` | src/codec.cpp:506-545 | every PUBLISH that decodes re-encodes to the identical bytes |
| `Codec.PublishImage` | src/codec.cpp:319-355 | the writes of encode_publish, in order, are the PUBLISH packet |
| `Codec.PublishRemainingIsBodyLength` | src/codec.cpp:177-202 | the length computed in advance is the length of the body, at every QoS |
| `Codec.ImageFrames` | src/codec.cpp:461-481 | every packet the client sends is framed exactly by peek_header |
| `Encoder.Writer.Write` | src/codec.cpp:65-85 | all of the data is written behind what was written before, or nothing |
| `Encoder.WriteFixedHeader` | src/codec.cpp:35-57 | type, flags and remaining length are written exactly when they fit and the length is in range; InvalidArgument exactly for one out of range with room for the first byte, BufferTooSmall otherwise |
| `Encoder.PublishRemainingLength` | src/codec.cpp:177-202 | the checks and the checked sum give the body length, InvalidArgument or PayloadTooLarge, each exactly in its case |
| `Encoder.SubscribeRemainingLength` | src/codec.cpp:204-222 | for any number of filters the loop computes the length of the body, or fails for exactly the bad arguments and the oversized ones |
| `Encoder.UnsubscribeRemainingLength` | src/codec.cpp:224-241 | likewise for UNSUBSCRIBE |
| `Encoder.ConnectRemainingLength` | src/codec.cpp:120-175 | the sum over whichever of will, user name and password are present, or InvalidArgument exactly for bad arguments |
| `Encoder.ConnectLengthIsBody` | src/codec.cpp:120-175 | that sum is the length of the CONNECT body that is written |
| `Encoder.RemainingLength` | src/codec.cpp:319-455 | every encoder's argument checks: the body length if the packet can be encoded, otherwise the error reported |
| `Encoder.Encode` | src/codec.cpp:247-455 | every encoder succeeds exactly when the packet is encodable and fits, writes exactly its image and nothing beyond, and the length in the header is that of what follows |
| `ServerView.SubscribeUnderstood` | src/codec.cpp:383-412 | an independent reader recovers the id and the filters with their QoS, in order |
| `ServerView.ConnectUnderstood` | src/codec.cpp:247-317 | an independent reader recovers every CONNECT option, for any mix of will, user name and password |
| `TxQueue.Queue.Reserve` | include/mqtt/tx_queue.hpp:35-45 | succeeds exactly when the bytes fit beside those pending, and never alters the pending bytes |
| `TxQueue.Queue.Compact` | include/mqtt/tx_queue.hpp:86-97 | the overlapping move keeps the pending bytes and frees the front |
| `TxQueue.Queue.Commit` | include/mqtt/tx_queue.hpp:54-58 | the pending bytes grow by what was written at the tail, never past the end |
| `TxQueue.Queue.Consume` | include/mqtt/tx_queue.hpp:67-77 | the pending bytes lose their front, and an empty queue is reset |
| `TxQueue.Queue.Enqueue` | include/mqtt/client.hpp:870-879 | the whole packet is queued behind what is pending, or nothing, exactly when it fits |
| `TxQueue.Queue.EnqueueSized` | include/mqtt/client.hpp:884-897 | encoding straight into the queue adds the packet's image or nothing, with the exact error |
| `Framing.ParseConserves` | include/mqtt/client.hpp:980-1039 | no byte is lost between the packets and the rest, and each packet takes at least two |
| `Framing.ParseExtends` | include/mqtt/client.hpp:980-1039 | parsing more input is resuming from what was left over |
| `Framing.FeedIsParse` | include/mqtt/client.hpp:929-1039 | for every stream and every way of cutting it up, the packets and the first framing error are those of one parse of the whole |
| `Framing.LeftoverFits` | include/mqtt/client.hpp:971-974 | what is left over always leaves room in the buffer, so the receiver never wedges |
| `Framing.PrefixDelivers` | include/mqtt/client.hpp:899-919 | from any prefix of the bytes of a sequence of packets a receiver recovers a prefix of that sequence, and all of it from all of them |
| `Transport.ElapsedIsTrueTime` | include/mqtt/transport.hpp:106-109 | the 32-bit difference is the true time modulo 2^32: never more than it, and equal to it for less than a full turn |
| `Transport.Link.Connect` | include/mqtt/transport.hpp:39-44 | any outcome the interface allows; the stream is open exactly after Ok |
| `Transport.Link.Send` | include/mqtt/transport.hpp:46-54 | only on an open stream; accepts at most what is offered, and nothing with an error |
| `Transport.Link.Recv` | include/mqtt/transport.hpp:56-65 | produces at most what there is room for, and nothing with an error or on a stream that was torn down |
| `IdAllocator.EveryIdIsTried` | include/mqtt/client.hpp:1636-1646 | from any counter value, across the wrap, 65535 tries meet every id |
| `IdAllocator.Alloc` | include/mqtt/client.hpp:1636-1646 | the first id in the cycle that is not in use; 0 only if every id is |
| `Subscriptions.SettleCommutes` | include/mqtt/client.hpp:1292-1304 | settling two different rows commutes although erasing one moves the other |
| `Subscriptions.SubacksConfluent` | include/mqtt/client.hpp:1275-1315 | two SUBACKs about disjoint rows give the same table in either order |
| `Subscriptions.SurvivorsConfluent` | include/mqtt/client.hpp:1275-1315 | so do the rows left by them |
| `Subscriptions.RetireCommutes` | include/mqtt/client.hpp:1614-1617 | and the requests they answer may be retired in either order |
| `Subscriptions.RetireIsErase` | include/mqtt/client.hpp:1614-1617 | erasing the request found is removing the request with its id |
| `ClientContracts.SubacksInEitherOrder` | include/mqtt/client.hpp:1275-1315 | two SUBACKs about different rows, handled in either order, leave the same rows, grants, requests and standing history |
| `Subscriptions.SubackExact` | include/mqtt/client.hpp:1292-1304 | a SUBACK erases exactly the rows it refuses and updates exactly those it grants; the others keep contents and place |
| `Subscriptions.SurvivesUnsuback` | include/mqtt/client.hpp:1327-1328 | a row survives an UNSUBACK if and only if its request does not name it |
| `Subscriptions.Find` | include/mqtt/client.hpp:1554-1563 | the row of a filter, or the end exactly if there is none |
| `Subscriptions.CountNew` | include/mqtt/client.hpp:487-492 | how many entries of a request name a filter without a row |
| `Subscriptions.AllocSubId` | include/mqtt/client.hpp:1592-1602 | a nonzero id that no row has, the first in the cycle |
| `Subscriptions.Register` | include/mqtt/client.hpp:515-537 | every filter of a request has its row, named in wire order, with the QoS last asked for; the rows there were keep id, filter, grant and place; distinctness, capacity and accounting are kept |
| `Subscriptions.Collect` | include/mqtt/client.hpp:583-588 | the rows named by an UNSUBSCRIBE are exactly those of its filters |
| `Subscriptions.Batch` | include/mqtt/client.hpp:1442-1456 | exactly the first flagged rows in table order, as many as one request takes |
| `Subscriptions.ClearFlags` | include/mqtt/client.hpp:1481-1486 | exactly the rows named are no longer flagged |
| `Subscriptions.Erase` | include/mqtt/client.hpp:1577-1587 | the row with this id goes and the rows behind it move up |
| `Subscriptions.SettleRows` | include/mqtt/client.hpp:1292-1304 | the loop over the return codes leaves exactly the surviving rows, and a sound table |
| `Subscriptions.SettledCovered` | include/mqtt/client.hpp:1292-1314 | after a SUBACK every row is flagged, named by an outstanding request, or was granted, where only rows that are left and whose code was not a failure count as granted |
| `Subscriptions.EraseRows` | include/mqtt/client.hpp:1327-1328 | the loop leaves exactly the rows that are not named, in their order, and a sound table |
| `Subscriptions.DroppedCovered` | include/mqtt/client.hpp:1317-1332 | after an UNSUBACK every row left is accounted for, and the grants of erased rows are gone |
| `Subscriptions.KeptOrRecorded` | include/mqtt/client.hpp:1275-1332 | between two moments of a history of rows, a row is still there or its removal was recorded in between |
| `Subscriptions.RowsSettled` | include/mqtt/client.hpp:1292-1304 | recording a removal for exactly the refused rows keeps the history in step with the table |
| `Subscriptions.RowsDropped` | include/mqtt/client.hpp:1327-1328 | so does recording a removal for exactly the rows an UNSUBACK names |
| `Subscriptions.RowsAdded` | include/mqtt/client.hpp:515-537 | so does recording the rows that a subscribe appended |
| `Inflight.TakeSlot` | include/mqtt/client.hpp:426-430 | taking a free slot keeps the table a bijection between live slots and publications under way |
| `Inflight.RewriteSlot` | include/mqtt/client.hpp:1203-1212 | so does rewriting a slot in place |
| `Inflight.ReleaseSlot` | include/mqtt/client.hpp:1514-1519 | so does releasing one |
| `Inflight.MarkDupPublish` | include/mqtt/client.hpp:1523-1530 | marking a stored PUBLISH, marked before or not, gives the same PUBLISH with DUP set |
| `Inflight.MarkedStores` | include/mqtt/client.hpp:1523-1530 | a marked slot still stores what has to be repeated; a PUBREL is left alone |
| `Inflight.FateComplete` | include/mqtt/client.hpp:1176-1189 | completing a publication keeps every publication in exactly one state and reported as often as it completed |
| `Inflight.FateDiscard` | include/mqtt/client.hpp:1685-1690 | so does a clean session that gives up what is in flight |
| `Inbound.NoDoubleDispatch` | include/mqtt/client.hpp:1136-1171 | in a disciplined history no QoS 2 id is dispatched twice without being released or forgotten in between |
| `Inbound.AcknowledgedFirst` | include/mqtt/client.hpp:1120-1171 | every QoS 1 or 2 dispatch comes after its acknowledgement was queued |
| `Inbound.Take` | include/mqtt/client.hpp:1168 | the id table stays duplicate-free, within capacity, and exactly what the history tracks |
| `Inbound.RemoveFirst` | include/mqtt/client.hpp:1542-1552 | the loop removes the first occurrence and keeps the order |
| `Inbound.Release` | include/mqtt/client.hpp:1542-1552 | so it does when an id is released |
| `Outbound.ReportedAfterAcknowledgement` | include/mqtt/client.hpp:1176-1273 | in every disciplined history a publication reported delivered was accepted, and after that its PUBACK was handled (QoS 1), or its PUBREC and then its PUBCOMP (QoS 2), under its id; the last of these is where it was reported |
| `Outbound.ReportsApart` | include/mqtt/client.hpp:1176-1273 | no two reports rest on the same acknowledgement |
| `Outbound.NoPublishAfterPubrec` | include/mqtt/client.hpp:1191-1238 | once a PUBREC was handled no PUBLISH is queued from its slot until its PUBCOMP or a clean session has released it |
| `Outbound.Accept` | include/mqtt/client.hpp:402-435 | accepting a publication under a free id, and queueing its PUBLISH, keeps the tables what the history makes of them |
| `Outbound.Hear` | include/mqtt/client.hpp:1176-1273 | so does handling any acknowledgement |
| `Outbound.Issue` | include/mqtt/client.hpp:1427-1431 | so does queueing what a live slot stores, which is the right packet for its stage |
| `ExactlyOnce.ExactlyOnceDelivery` | include/mqtt/client.hpp:1105-1273 | over every run with losses, repetitions, id reuse, full tables and full queues, a QoS 2 publication is dispatched at most once, and exactly once if it was reported delivered; completion is reported at most once at either QoS |
| `ExactlyOnce.SenderForgetsSafely` | include/mqtt/client.hpp:1079-1099 | if only the sender loses its session, exactly-once survives if and only if the receiver tracks no id |
| `ExactlyOnce.ReceiverForgetsSafely` | include/mqtt/client.hpp:1685-1690 | if only the receiver loses its ids, it survives if and only if no dispatched publication still awaits its PUBREC |
| `Halves.SendingHalf` | include/mqtt/client.hpp:1176-1273 | in every run of the protocol the sending end's table, and what it reported, are the replay of the events at that end, which are disciplined as the client's are |
| `Halves.ReceivingHalf` | include/mqtt/client.hpp:1105-1258 | in every run the ids tracked at the receiving end are what its events make of them, acknowledged before dispatched and never dispatched while tracked |
| `Halves.EverySenderIsHalf` | include/mqtt/client.hpp:1176-1273 | every disciplined outbound history is what happens at the sending end of the protocol, the channels bringing anything: same table, reports and events |
| `Halves.IssuedAgrees` | include/mqtt/client.hpp:1427-1431 | a slot packet queued is the one the protocol's sender repeats, the PUBREL exactly in the last stage |
| `Halves.EveryReceiverIsHalf` | include/mqtt/client.hpp:1105-1258 | every disciplined inbound history is what happens at the receiving end of the protocol, the channels bringing anything: same ids tracked, same acknowledgements, and dispatches only where that end dispatches |
| `AtLeastOnce.DeliveredMeansDispatched` | include/mqtt/client.hpp:1176-1189 | a QoS 1 publication is sure to be dispatched before it is reported delivered if and only if no QoS 1 packet under its id was still under way when it was accepted |
| `AtLeastOnce.AnsweredTwice` | include/mqtt/client.hpp:1409-1433 | a publication sent twice leaves a second PUBACK behind |
| `AtLeastOnce.SecondAnswerCompletesTheNext` | include/mqtt/client.hpp:1176-1189 | which completes the next publication under that id before it was dispatched |
| `Session.PeerReadsInOrder` | include/mqtt/client.hpp:899-919 | whatever part of the bytes sent has arrived, the peer reads from it the first packets queued, whole and in order |
| `Session.HandledIsParsed` | include/mqtt/client.hpp:980-1039 | when no complete packet is held, the packets handled and the rest are the one-shot parse of everything received |
| `Session.UnusedIsNew` | include/mqtt/client.hpp:1619-1632 | an id that is not in use belongs to no slot and no request |
| `Session.GrownTrans` | include/mqtt/client.hpp:635-725 | histories that only grow in each step only grow over any number of them |
| `Session.QuietTrans` | include/mqtt/client.hpp:207-226 | what everything but receiving leaves alone (deliveries, dispatches, acknowledgements, removal of rows, the packets read), any number of such steps leave alone |
| `SessionSteps.QueueSound` | include/mqtt/client.hpp:870-897 | queueing a complete packet keeps the invariant |
| `SessionSteps.SentSound` | include/mqtt/client.hpp:899-919 | so does a partial send |
| `SessionSteps.ReceiveSound` | include/mqtt/client.hpp:935-952 | so does a recv of any size |
| `SessionSteps.RestSound` | include/mqtt/client.hpp:980-1039 | so does recording that no complete packet is left |
| `SessionSteps.BeginSound` | include/mqtt/client.hpp:987-1008 | so does taking up a complete packet |
| `SessionSteps.ClosedSound` | include/mqtt/client.hpp:1668-1701 | so does the end of a session, at any point; a keep-alive timeout only when a PINGREQ has been outstanding for longer than the interval, in true time; a call of on_disconnect is then owed |
| `SessionSteps.ToldSound` | include/mqtt/client.hpp:1697-1698 | so does calling the handler that is owed a call |
| `SessionSteps.OpenedSound` | include/mqtt/client.hpp:308-336 | so does the start of one |
| `SessionSteps.TakenSound` | include/mqtt/client.hpp:402-430 | so does accepting a publication under an unused id |
| `SessionSteps.TurnedSound` | include/mqtt/client.hpp:1203-1212 | so does turning a slot to PUBREL on its PUBREC |
| `SessionSteps.HeardSound` | include/mqtt/client.hpp:1176-1273 | so does an acknowledgement that nothing waits for |
| `SessionSteps.FinishedSound` | include/mqtt/client.hpp:1176-1189 | so does completing one; a call of on_delivery is then owed |
| `SessionSteps.RequestedSound` | include/mqtt/client.hpp:515-545 | so does registering rows and awaiting their acknowledgement |
| `SessionSteps.AnsweredSound` | include/mqtt/client.hpp:1275-1332 | so does retiring a request whose rows are accounted for and whose removals are recorded |
| `SessionSteps.FlaggedAgain` | include/mqtt/client.hpp:1093-1099 | before CONNACK every row is already flagged, so flagging them again changes nothing |
| `SessionSteps.KeptTrans` | include/mqtt/client.hpp:207-226 | what one handler call may do to a session, any number of them may do |
| `ClientContracts.ArrivalIsReceipt` | include/mqtt/client.hpp:1105-1174 | acknowledging a PUBLISH and dispatching it exactly if it is to be delivered is the step of the protocol's receiver: same answer, same events |
| `ClientContracts.PumpStep` | include/mqtt/client.hpp:929-977 | one more round keeps the bounds on recv() calls and packets, whatever becomes of the session, and settles whether a closed transport was read and what is returned |
| `ClientContracts.WithoutHardClose` | include/mqtt/client.hpp:612-625 | without a disconnect() that closed at once, step() reports the reason notified and reads no closed transport |
| `Client.Client.constructor` | include/mqtt/client.hpp:241-243 | a new client is idle with an empty history, and sound |
| `Client.Client.Enqueue` | include/mqtt/client.hpp:870-879 | the packet joins the wire history, or nothing changes, exactly when it fits |
| `Client.Client.EnqueueSized` | include/mqtt/client.hpp:884-897 | the packet's image joins the wire history, or nothing changes |
| `Client.Client.QueueAck` | include/mqtt/client.hpp:1360-1365 | the acknowledgement is queued exactly when there are four bytes of room |
| `Client.Client.PumpTx` | include/mqtt/client.hpp:899-919 | moves bytes from pending to sent and changes nothing else, through any sequence of partial sends, never on a closed stream; the send timer is stamped exactly if bytes went out |
| `Client.Client.CheckOptions` | include/mqtt/client.hpp:289-302 | accepts exactly the options within the configured limits, with a valid will topic, and a client id unless the session is clean |
| `Client.Client.ResetSessionState` | include/mqtt/client.hpp:1648-1664 | discards what is in flight in both directions; the subscriptions stay |
| `Client.Client.Connect` | include/mqtt/client.hpp:284-336 | succeeds exactly when idle with acceptable options and a CONNECT that fits; then the CONNECT is alone in the queue, the parameters and timers are set, and what was in flight is discarded exactly for a clean session; refused when idle, it changes nothing, except that exactly for a clean session with acceptable options what was in flight is discarded; the subscriptions stay |
| `Client.Client.CloseSession` | include/mqtt/client.hpp:1670-1695 | the part of it that does not depend on the kind of session |
| `Client.Client.EndSession` | include/mqtt/client.hpp:1668-1695 | the session's buffers, requests and grants go, every row is flagged, what is in flight is discarded exactly for a clean session, and the reason is recorded |
| `Client.Client.Shutdown` | include/mqtt/client.hpp:1668-1701 | on_disconnect is called, once and with the reason, exactly if a session was under way, which is then over; the subscriptions stay; the handler may have started another session, and nothing more |
| `Client.Client.DisconnectHandler` | include/mqtt/client.hpp:1697-1698 | the call that is owed is made and recorded; sessions may be asked for meanwhile, and nothing else happens |
| `Client.Client.Disconnect` | include/mqtt/client.hpp:340-361 | queues a DISCONNECT and closes gracefully exactly when connected with two bytes of room; otherwise ends the session at once with one notification, Ok; refused when idle |
| `Client.Client.Abort` | include/mqtt/client.hpp:365 | ends the session with exactly one notification, TransportClosed, and none when idle |
| `Client.Client.FreeSlot` | include/mqtt/client.hpp:1494-1502 | a free slot, or none exactly if all are live |
| `Client.Client.AllocPacketId` | include/mqtt/client.hpp:1636-1646 | always finds an id; it is nonzero, in no slot and no request, and the first such in the cycle |
| `Client.Client.Publish` | include/mqtt/client.hpp:379-436 | succeeds exactly when connected with a valid topic that is short enough and a packet that can be encoded and fits the queue, and for QoS 1 and 2 a free slot and its storage; at QoS 0 exactly the PUBLISH is queued; at QoS 1 and 2 it is also stored in a free slot under a fresh id; otherwise nothing changes |
| `Client.Client.PublishTracked` | include/mqtt/client.hpp:402-435 | succeeds exactly when a slot is free and the packet can be encoded and fits slot and queue; NoInflightSlot if all slots are live; a refused publish leaves its slot free |
| `Client.Client.EncodePublish` | include/mqtt/client.hpp:413-420 | the stored packet is the PUBLISH for the arguments and the id, or it does not fit the slot |
| `Client.Client.CheckFilters` | include/mqtt/client.hpp:474-480 | accepts exactly requests of valid filters that can be stored |
| `Client.Client.Subscribe` | include/mqtt/client.hpp:465-545 | succeeds exactly when connected with a request of acceptable size and filters, a pending place, places for the new rows, and room for the packet; then one SUBSCRIBE under a fresh id is queued and awaited, naming in wire order a row for each filter; otherwise nothing changes |
| `Client.Client.Unsubscribe` | include/mqtt/client.hpp:554-596 | succeeds exactly when connected with a request of acceptable size and filters, a pending place and room for the packet; then one UNSUBSCRIBE is queued and awaited, naming exactly the rows of its filters, which stay; otherwise nothing changes |
| `Client.Client.PumpResubscribe` | include/mqtt/client.hpp:1437-1488 | exactly when some row is flagged, a pending place is free and the packet fits, one SUBSCRIBE is queued for the first flagged rows, which alone lose their flag; unless the request was full no row waits any more |
| `Client.Client.FindOutbound` | include/mqtt/client.hpp:1504-1512 | the live slot with this id, or the end if there is none |
| `Client.Client.CompleteSlot` | include/mqtt/client.hpp:1176-1189 | PUBACK and PUBCOMP complete exactly the publication that waits for them, once, and are recorded, and a call of on_delivery is owed exactly then; anything else is tolerated without effect |
| `Client.Client.TakePubrec` | include/mqtt/client.hpp:1191-1238 | PUBREC turns a waiting slot to PUBREL, exactly as the protocol's sender does; the PUBREL is queued exactly when there is room, also if it was before |
| `Client.Client.TurnToPubrel` | include/mqtt/client.hpp:1203-1212 | from here on the slot stores exactly the PUBREL for its id |
| `Client.Client.EncodePubrel` | include/mqtt/client.hpp:1205-1209 | the PUBREL always fits the slot |
| `Client.Client.AcknowledgeFirst` | include/mqtt/client.hpp:1120-1134 | QoS 1: to be delivered exactly if the PUBACK was queued; otherwise only the backpressure count changes |
| `Client.Client.ReceiveFirst` | include/mqtt/client.hpp:1136-1171 | QoS 2: to be delivered exactly if the id is new, can be tracked and its PUBREC was queued; a known id is only acknowledged again |
| `Client.Client.TakeUp` | include/mqtt/client.hpp:1147-1171 | an unknown QoS 2 id: counted as overflow when the table is full, as backpressure when there is no room, and tracked otherwise |
| `Client.Client.TakePublish` | include/mqtt/client.hpp:1105-1171 | the history, the id table and the decision to deliver are exactly those of the protocol's receiver |
| `Client.Client.TakePubrel` | include/mqtt/client.hpp:1240-1258 | the answer, the events and the id table are exactly those of the protocol's receiver: released exactly when the PUBCOMP was queued |
| `Client.Client.TakeSuback` | include/mqtt/client.hpp:1275-1315 | the request is settled exactly if one is awaited under its id with as many rows as codes: it is retired, the refused rows go and are recorded, the granted ones are updated; ProtocolViolation exactly if the number differs; otherwise no effect |
| `Client.Client.TakeUnsuback` | include/mqtt/client.hpp:1317-1332 | the request it answers is retired and exactly its rows are gone and recorded; an unknown one is ignored |
| `Client.Client.TakeConnack` | include/mqtt/client.hpp:1070-1103 | the session is established exactly by an accepting CONNACK while one is awaited; otherwise nothing moves |
| `Client.Client.Callback` | include/mqtt/client.hpp:207-226 | whatever a handler does, the session is untouched, closing gracefully, or over with its buffers empty; nothing completes, is dispatched or received meanwhile, no acknowledgement is handled and no row goes; a message handler leaves the rows alone; a nested step() is refused |
| `Client.Client.Dispatch` | include/mqtt/client.hpp:1334-1358 | the handlers called are exactly those of the matching rows, in table order, up to the one that ends the session; the fallback is called exactly if there is none; exactly one dispatch is recorded |
| `Client.Client.OfferToRow` | include/mqtt/client.hpp:1338-1351 | a row's handler is called, once and with the message, exactly if the row has one and its filter matches |
| `Client.Client.HandlePublish` | include/mqtt/client.hpp:1105-1174 | accepted exactly while connected and for a PUBLISH that decodes; then answered and dispatched, once, exactly as the protocol's receiver does, and heard by its audience up to a handler that ends the session; a refused one changes nothing; no row goes |
| `Client.Client.HandleConnack` | include/mqtt/client.hpp:1070-1103 | accepted exactly while one is awaited and it accepts; the session is then established and on_connect called, once, with what the CONNACK said; no row goes |
| `Client.Client.HandleById` | include/mqtt/client.hpp:1176-1332 | fails exactly for a malformed id, without effect; otherwise moves the tables as the protocol does, and on_delivery is called, once and with the id, exactly if a publication completes; rows go only through an UNSUBACK, and then exactly those of its request |
| `Client.Client.HandleLastAck` | include/mqtt/client.hpp:1176-1189 | on_delivery is called, once, exactly if a publication completes, before anything else happens |
| `Client.Client.HandleSuback` | include/mqtt/client.hpp:1275-1315 | the error of a SUBACK that does not decode, ProtocolViolation exactly for a wrong number of codes, without effect; otherwise exactly the refused rows of its request go, and on_suback is called, once and with the codes, exactly if there was a request; the handler keeps the other rows in place |
| `Client.Client.HandlePingresp` | include/mqtt/client.hpp:1053-1057 | a PINGRESP with a body is refused and changes no table; without one it answers the ping and touches nothing else |
| `Client.Client.HandlePacket` | include/mqtt/client.hpp:1041-1068 | each kind of packet has exactly its effect on history, rows, requests and handlers called; kinds a server may not send are refused; a refused packet changes nothing |
| `Client.Client.ShiftDown` | include/mqtt/client.hpp:1029-1034 | the packet handled leaves the buffer and the rest moves to the front |
| `Client.Client.DrainOne` | include/mqtt/client.hpp:1008-1037 | exactly one packet is handled, with the effect of its kind, and dropped; if a handler ended the session the buffer is empty, nothing is shifted and the reason is returned |
| `Client.Client.DrainRx` | include/mqtt/client.hpp:980-1039 | afterwards the packets handled are the one-shot parse of everything received in the session; an error is that of the first bytes that cannot become a packet, and then of the parse, or of the packet handled last, or the session is over; at least two bytes went per packet, and the buffer is not full |
| `Client.Client.ReceiveSome` | include/mqtt/client.hpp:933-953 | bytes received join the input in order, and the call is counted; called on an open stream, or after a handler ended the session with reason Ok |
| `Client.Client.ReceiveRound` | include/mqtt/client.hpp:931-969 | one recv() at most and at most half a buffer of packets; started without a session it reads the closed transport, once, and nothing follows |
| `Client.Client.PumpRx` | include/mqtt/client.hpp:929-977 | at most eight recv() calls and eight times half a buffer of packets, whatever the peer sends and whatever becomes of the session; the packets handled, and the framing error if there is one, are those of the one-shot parse; after Ok no complete packet is left; reads a closed transport exactly after a round with bytes in which a handler closed the session with reason Ok, if a round is left |
| `Client.Client.PumpKeepAlive` | include/mqtt/client.hpp:1371-1407 | times out exactly if a PINGREQ is outstanding for longer than the interval as the client sees it, so only after more than that of true time, and unless a full turn of the clock passed; queues a PINGREQ exactly if none is outstanding, three quarters of the interval have passed and there is room |
| `Client.Client.RetrySlot` | include/mqtt/client.hpp:1427-1431 | the marked packet is queued again or there was no room; an unforced repetition records the true time since the last one |
| `Client.Client.PumpRetransmit` | include/mqtt/client.hpp:1409-1433 | exactly the packets of slots that are due are queued, each unless there is no room for it: all live slots right after CONNACK, otherwise those that have waited for the interval |
| `Client.Client.OpenLink` | include/mqtt/client.hpp:652-666 | waits for CONNACK exactly once the transport is connected |
| `Client.Client.StepFlush` | include/mqtt/client.hpp:669-677 | flushes; a graceful disconnect completes exactly when its DISCONNECT has gone out |
| `Client.Client.StepOnce` | include/mqtt/client.hpp:647-725 | an error comes with the end of a session and is the reason notified, except exactly after a disconnect() in a handler that closed at once, if then recv() on the closed transport failed or abort() was called too; recv() calls and packets are bounded in every step; input that is not MQTT ends the session with the error of the one-shot parse |
| `Client.Client.Step` | include/mqtt/client.hpp:635-644 | refused inside a handler without effect; otherwise one turn as above, in which nothing recorded is lost and every row stays or goes through a recorded SUBACK or UNSUBACK; without a disconnect() that closed at once the error is always the reason notified and no closed transport is read |
| `Client.Client.LifecycleHistory` | include/mqtt/client.hpp:284-365 | only documented transitions are taken; on_disconnect was called once for every session that ended, with its reason, and accepted connects are those calls plus one while a session is under way |
| `Client.Client.TimeoutHistory` | include/mqtt/client.hpp:1371-1407 | whenever the keep-alive ended a session, its PINGREQ had gone unanswered for longer than the interval, in true time |
| `Client.Client.OutgoingHistory` | include/mqtt/client.hpp:870-919 | bytes sent followed by bytes pending are the packets queued, complete and in order, CONNECT first and once; a peer reads them in that order |
| `Client.Client.IncomingHistory` | include/mqtt/client.hpp:929-1039 | in this session and in every one before, the packets handled are the first packets of what was received; between steps they, and what is held, are the one-shot parse of all of it |
| `Client.Client.PublicationHistory` | include/mqtt/client.hpp:379-436 | every accepted publication is in flight, completed or discarded; on_delivery was called for it once if it completed and never otherwise; while in flight a slot stores its PUBLISH up to DUP, or its PUBREL |
| `Client.Client.DeliveryHistory` | include/mqtt/client.hpp:1176-1273 | the k-th publication reported delivered was accepted as that publication, and after that its PUBACK was handled (QoS 1), or its PUBREC and then its PUBCOMP (QoS 2); the last of these completed it |
| `Client.Client.DeliveriesApart` | include/mqtt/client.hpp:1176-1273 | no acknowledgement completes two publications |
| `Client.Client.RepetitionHistory` | include/mqtt/client.hpp:1191-1238 | after its PUBREC no PUBLISH is queued from a slot until its PUBCOMP or a clean session released it |
| `Client.Client.SenderHistory` | include/mqtt/client.hpp:1176-1273 | what is in flight and what was reported are what the protocol's sender makes of the acceptances and acknowledgements, and these are what happens at the protocol's sending end in some surroundings |
| `Client.Client.ReceiverHistory` | include/mqtt/client.hpp:1105-1258 | the inbound id table is what the protocol's receiver makes of the inbound history, which is what happens at the protocol's receiving end in some surroundings |
| `Client.Client.IdHistory` | include/mqtt/client.hpp:1619-1646 | ids under way are nonzero and pairwise distinct, across slots and requests |
| `Client.Client.AcknowledgementHistory` | include/mqtt/client.hpp:1105-1174 | every QoS 1 or 2 dispatch came after its acknowledgement was queued |
| `Client.Client.InboundHistory` | include/mqtt/client.hpp:1136-1171 | no QoS 2 id is dispatched twice without a release or a discarded session in between |
| `Client.Client.RowHistory` | include/mqtt/client.hpp:1437-1488 | every row is flagged, named by an outstanding SUBSCRIBE, or was granted a QoS in this session; outside a session it is flagged |
| `Client.Client.RegistrationHistory` | include/mqtt/client.hpp:1275-1332 | a row ever registered is in the table, or a SUBACK refused it or an UNSUBACK removed it since |
| `Client.Client.PingHistory` | include/mqtt/client.hpp:1371-1407 | between two PINGREQs there is a PINGRESP |
| `Client.Client.RetryHistory` | include/mqtt/client.hpp:1409-1433 | no unforced repetition came sooner than the retry interval, in true time |
| `Client.Drive` | include/mqtt/client.hpp:201-725 | after any sequence of calls on a new client the invariant holds, and with it everything above |
| `Client.Call` | include/mqtt/client.hpp:201-725 | no call loses a row except to a recorded SUBACK or UNSUBACK, and only step() reports deliveries, dispatches or removes rows |
| `Client.ReadAfterClose` | include/mqtt/client.hpp:340-361 | from any state in which a handler may run with no room for two bytes: disconnect() closes at once, and unless another session is started the next round reads the closed transport; if that fails, its error is returned although on_disconnect was called with Ok |
| `Client.AbortAfterClose` | include/mqtt/client.hpp:340-365 | likewise disconnect() and then abort(): the last error, which is reported, is TransportClosed although on_disconnect was called with Ok |
| `Witnesses.FullQueue` | include/mqtt/client.hpp:340-361 | the state that the steps of connecting and of three QoS 0 publications lead to is sound and has no room for a DISCONNECT |
| `Witnesses.RefusedConnectDiscards` | include/mqtt/client.hpp:308-321 | the state that the steps of connecting, of a QoS 1 publication and of losing the connection lead to is sound, idle and has it in flight; options with which connect() is refused and the publication discarded |
| `Witnesses.UnsubackForgets` | include/mqtt/client.hpp:1317-1332 | after subscribe(), unsubscribe() and subscribe() for one filter, the UNSUBACK erases the row that the last request asked for |

## Left out

- Example transports, clocks and demos, build tooling, name tables of enumerations, sizes of objects: not part of this model.
- Handler objects and their overload rules: a handler is any sequence of the calls it may make.
- `on_disconnect` calling anything but connect(), and step() called from it outside a step: the recursion is the application's.
- Subscribing from a message handler: documented as forbidden.
- inbound_overflow_count and tx_backpressure_count wrap at 2^32 in the original; here they are unbounded.
- The introspection accessors (inflight_count, ms_since_last_receive and the like): read-only views of fields.
- packet_id_in_use: its scan of the two tables is membership in `Session.UsedIds`.
- The zero-length tables rounded up to one slot: capacities are the configured ones, as the original's tests for a full table are.
- Slot storage: `Slot.packet` is the stored packet up to its recorded length; stale bytes behind it are not modelled.
- The decoders read a value, not a cursor: decode_publish, decode_suback and read_string are functions of the bytes.
- Retransmission order: slots are repeated in slot order, and no order of publication is claimed.
- DISCONNECT as the last packet: not claimed, since PUBREC and PUBREL are answered in every state.
- Client.Client.Callback: gives no bound on how many calls a handler makes, because the original has none.
