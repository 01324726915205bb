# Verified model of the MQTT client core and its bounded runtime

The project models the MQTT 3.1.1 and 5.0 client (`mqtt_client.c`, `mqtt5_client.c`,
`lib/`) and the single-owner runtime on top of it (`runtime/`), and proves what they keep
over whole runs.

- **Codecs** (`Bytes`, `Publish311`, `Properties5`, `Publish5`, `Connections`): variable byte integers, the
  PUBLISH encoders that append to and shift one buffer, the decoders, and fragmentation of
  packets larger than the buffer.
- **Outbox** (`Outbox`, `Requeue`): the linked tail queue as a FIFO sequence with byte
  accounting, and the requeue loop of an MQTT 5.0 reconnect.
- **Session** (`Session`, `SessionBase`, `SessionDup`, `SessionQuota`, `SessionLedger`,
  `SessionSubs`, `SessionReplay`, `SessionIds`, `SessionSteps`, `Clients`): outbox, connection
  and in-flight counter as a step machine with a log; `SessionSteps` says what each step does,
  and `Clients` has the imperative client, each of whose methods is one step.
- **Lifecycle** (`Lifecycle`, `LifecycleRuns`): start, stop and worker tasks, interleaved
  access by access, and the starts and stops that succeed.
- **Message path of the runtime** (`SlotPool`, `SlotBuffers`, `SlotOrder`, `SlotSteps`, `SlotRace`):
  the SDK callback and the owner interleaved over slots, notices, pointers and the overflow flag.
- **Desired subscriptions** (`Subscriptions`, `SubscriptionSteps`, `Owners`): the owner protocol, what
  every poll and request leads to, and the runtime structure that carries it out in place.
- **Inbound data and text** (`Reassembly`, `Fragments`, `TextRules`): fragment reassembly composed with
  `deliver_publish`, and the UTF-8 and topic filter checker.

Runs are sequences of steps. Results of the transport, of allocation, of the clock and of
the SDK are step parameters; events are entries of a log. A theorem over runs holds for
every number of reconnects and every choice of these parameters.

## What the proofs rest on

- Nonzero packet ids in the outbox are distinct, because lookups go by id only
  (`lib/mqtt_outbox.c:75-84`). The session requires it of each new id. A run that takes its
  ids from the counter is such a run if and only if no item is stored while another one, still
  stored, is a multiple of 65535 draws old (`SessionIds.CounterRunIff`); PUBRELs for id 0 and
  packets that could not be composed draw ids as well. The code has no such test;
  `SessionIds.IdComesRound` is the run in which an id comes round.
- Remaining length is below 2^28, and the whole PUBLISH header fits the buffer.
- Each API call, from where it takes the client lock, and each turn of the worker is one step
  of the session: the lock covers them. The connected test of the subscribe and unsubscribe
  calls comes before the lock (`mqtt_client.c:2421`, `mqtt_client.c:2501`) and is a step of its
  own. The code does not provide two things that are assumed all the same: the discard at the
  end of the task, which holds no lock (`mqtt_client.c:2225-2227`), does not overlap a locked
  part; and tests of the outbox limit before the lock are left out. The lock protocol itself is
  interleaved access by access in `Lifecycle`.
- What the session records as written is the stored copy of the item. For a PUBLISH written
  straight from the buffer that is so when the entry offset is not beyond its header
  (`PublishConnected`, `PublishConnected5`); so `DupDiscipline` rests on that.
- Writing on a closed transport fails; a read returns at least one byte.
- User handlers do not call back into the client, except in `ReentrantCallsFail`.
- `fragmented_msg_data_offset` is a mathematical integer.

## Where the code does less than its description

- **Write loop** (`mqtt_client.c:2713`). A publish that fits the buffer still subtracts the
  fragment offset left by an earlier call. The bytes on the wire are the packet if and only
  if the packet is fragmented or that offset is not beyond its header
  (`PublishConnected`, `PublishConnected5`); `LeftoverOffset` is a run that leaves a larger offset. The stored
  copy is always the packet.
- **Publish without data** (`lib/mqtt_msg.c:436-478`). Over MQTT 3.1.1 a null payload keeps the
  fragment total that an earlier call left, and the header counts it. The bytes are the packet
  if and only if that total is zero or happens to be the position where the header ends
  (`MsgPublish`). An enqueue at QoS 0 that is not stored leaves a total larger than the buffer;
  `LeftoverTotal` is the run. Every other packet that `fini_message` finishes before the next
  write counts the total too (`FiniMessage`): acknowledgements, DISCONNECT, and the PINGREQ of
  `lib/mqtt_msg.c:572-576` (`MsgPingreq`). And storing a null publish with such a total copies
  from the null pointer plus an offset, with a length that is negative unless the offset left
  behind is not below the header's end (`mqtt_client.c:2608-2616`); the model stores publishes
  with data only.
- **Subscribing while the connection is lost** (`mqtt_client.c:2421-2427`). The test is not
  repeated under the lock. In a clean session a SUBSCRIBE or UNSUBSCRIBE can be written in a
  later connection if and only if the client is offline when the locked part runs
  (`ReplayIff`): offline means neither connected nor being stopped. `ReplayRun` is a run for
  either protocol version. Stored online, it never is (`NoReplay`).
- **Acknowledgements for id 0** (`mqtt_client.c:1762-1777`). A repeated PUBACK or PUBCOMP only
  leaves a note unless the id is 0 and a QoS 0 publish is stored (`DuplicateAck`); those share
  the id, and each acknowledgement takes one away and reports it (`AckZeroTwice`). A PUBREC for
  id 0 marks one.
- **Send quota** (`mqtt_client.c:2161-2167`). The retransmission timer repeats a PUBLISH
  inside one MQTT 5.0 connection without counting it. The counter covers the quota of
  section 4.9 of MQTT 5.0 when each PUBLISH is counted once per connection
  (`CounterSimulatesQuota`); a step breaks an exact count if and only if it is such a repeat
  (`RepeatBreaksQuota`), and `RepeatExceedsReceiveMaximum` gives the run.
- **Overflow flag** (`runtime/emqtt.c:487-494`). The flag is tested before the notice is
  taken and is set some accesses after the drop. One message past the first dropped one can
  be returned, never more, and the session ends with it (`PolledInOrder`,
  `TakeBreaksOrderIff`, `MessageAfterGap`).
- **MQTT 5.0 property block** (`lib/mqtt5_msg.c:373-557`). The decoder refuses response topics
  and user property strings over 16384 bytes, and keeps the length of the block and the offset
  in it in 16 bits; the encoder does neither. The round trip holds if and only if all those
  strings are within the limit and the block is shorter than 65536 bytes (`Publish5RoundTrip`).
  `LongResponseRefused` and `LongBlockFails` are refused packets. The offset can also wrap to
  a property already read: on `LongBlockEndless` the loop never ends.
- **Requeue loop** (`mqtt_client.c:870-901`). With shared ids it would not end; it ends if and
  only if every transmitted item is the first with its id (`RequeueEndsIff`,
  `SharedIdNeverEnds`).

## Model

| member | source | states |
|---|---|---|
| Bytes.VarintAtMostFour | lib/mqtt5_msg.c:42-58 | below 2^28 the encoding has one to four bytes |
| Bytes.VariableLenOfVarint | lib/mqtt5_msg.c:42-84 | reading back any written value gives the value and its width, whatever bytes follow |
| Bytes.VarintTells | lib/mqtt5_msg.c:42-84 | two different lengths never give the same bytes, whatever follows |
| Bytes.GenerateVariableLen | lib/mqtt5_msg.c:42-58 | the loop writes the shortest encoding |
| Bytes.GetVariableLen | lib/mqtt5_msg.c:60-84 | the loop reads value and width from any offset |
| Publish311.PublishHeaderAccepted | lib/mqtt_msg.c:594-632 | every encoded PUBLISH header is accepted, and with DUP set exactly above QoS 0 |
| Publish311.HeaderAcceptedIff | lib/mqtt_msg.c:594-632 | the 23 first bytes that pass the header test, one by one |
| Publish311.OnTheWire | lib/mqtt_msg.c:436-478 | a QoS 2 PUBLISH byte by byte, and a length of two bytes |
| Publish311.CutHeader | lib/mqtt_msg.c:177-312 | a packet cut inside its variable header gives no payload and no id, and the topic only if it is whole and followed by something |
| Publish311.PublishRoundTrip | lib/mqtt_msg.c:120-334 | any prefix that holds the header decodes to total length, topic, id, flags and the payload part present; the whole packet is one case |
| Publish311.GetTotalLength | lib/mqtt_msg.c:120-141 | the scan loop returns the total length and fixed header size |
| Publish311.GetPublishTopic | lib/mqtt_msg.c:177-202 | the decoder loop returns the topic, none if cut off |
| Publish311.GetPublishData | lib/mqtt_msg.c:204-255 | the decoder loop returns the payload part in the buffer, and none for each malformed case |
| Publish311.GetPublishId | lib/mqtt_msg.c:270-312 | the decoder loop returns the id, 0 if absent or cut off |
| Properties5.BlockRoundTrip | lib/mqtt5_msg.c:373-557 | an encoded property block shorter than 65536 bytes decodes to the same properties, user properties in order, if and only if limited strings are short enough |
| Properties5.AnyBlockIsRead | lib/mqtt5_msg.c:405-547 | any sequence of properties, in any order and repeated, subscription identifier and reason string included, is read as written, and refused if and only if a limited string is too long |
| Properties5.CutRefused | lib/mqtt5_msg.c:86-89 | a property that the end of the block cuts is refused wherever bounds are checked |
| Properties5.UnknownRefused | lib/mqtt5_msg.c:543-546 | any other identifier is refused |
| Publish5.Publish5RoundTrip | lib/mqtt5_msg.c:1062-1172 | every packet the encoder can write decodes to its topic, properties and payload if and only if limited strings are short enough and the property block is shorter than 65536 bytes |
| Publish5.OnTheWire | lib/mqtt5_msg.c:1062-1172 | a PUBLISH with three properties byte by byte |
| Publish5.LongResponseRefused | lib/mqtt5_msg.c:373-557 | an encodable packet with a response topic of 16385 bytes that the decoder refuses |
| Publish5.LongBlockFails | lib/mqtt5_msg.c:400-403 | an encodable packet, all strings within the limit, whose block of 65546 bytes is read as one of 10 and refused |
| Publish5.LongBlockEndless | lib/mqtt5_msg.c:400-406 | an encodable packet on which the offset wraps to the start of the block and the loop never ends |
| Properties5.EnoughTurns | lib/mqtt5_msg.c:405-547 | for any bytes: a loop that ends at all ends within as many turns as the block has bytes, so whether it ends is decided by then |
| Publish5.Publish5Id | lib/mqtt5_msg.c:329-371 | the id read from an encoded packet is the id written |
| Properties5.GetProperties | lib/mqtt5_msg.c:373-557 | the property loop with its 16-bit offset, accumulating into one structure, when it ends |
| Publish5.GetPublishPropertyPayload | lib/mqtt5_msg.c:373-557 | the decoder with its advancing offset, when its loop ends: topic, properties and payload, or none, or the outcome that bytes outside the packet are read |
| Connections.NthIdClosedForm | lib/mqtt_msg.c:38-57 | the n-th assigned id in closed form, skipping 0 at the wrap |
| Connections.ConsecutiveIdsDistinct | lib/mqtt_msg.c:38-57 | any 65535 consecutive ids are nonzero and distinct |
| Connections.Connection.AppendString | lib/mqtt_msg.c:25-36 | length and bytes are appended, or nothing changes when they do not fit |
| Connections.Connection.AppendMessageId | lib/mqtt_msg.c:38-57 | the given id, or the next one, is appended |
| Connections.Connection.FiniMessage | lib/mqtt_msg.c:72-118 | first byte and shortest length stand right before the content, which is unchanged; the offset is reduced by the space left |
| Connections.Connection.MsgPublish | lib/mqtt_msg.c:436-478 | with data the buffer holds the packet, or its first part when it is too large; with a null payload it holds the packet if and only if the total left by an earlier call is zero or ends with the header |
| Connections.Connection.MsgPingreq | lib/mqtt_msg.c:572-576 | the bytes are a PINGREQ if and only if no total is left, or one that ends with the header |
| Connections.Connection.ShiftUp | lib/mqtt5_msg.c:91-115 | the backward copy moves the block up without losing a byte and touches no earlier one |
| Connections.Connection.UpdatePropertyLen | lib/mqtt5_msg.c:91-115 | placeholder and block become shortest length and the same block, within the buffer |
| Connections.Connection.AppendProperty | lib/mqtt5_msg.c:117-150 | one property is appended with its identifier, width and data |
| Connections.Connection.AppendProps | lib/mqtt5_msg.c:1062-1172 | the property block in the order of the encoder, when it fits |
| Connections.Connection.MsgPublish5 | lib/mqtt5_msg.c:1062-1172 | the buffer holds the MQTT 5.0 packet, or its first part |
| Connections.Connection.StoreComposed | mqtt_client.c:2587-2621 | the bytes stored in the outbox are the packet of an unbounded buffer |
| Connections.Connection.WriteLoop | mqtt_client.c:2701-2732 | the concatenation of all writes, as a function of message, payload and entry offset |
| Connections.Connection.SendComposed | mqtt_client.c:2555-2732 | stored bytes are the packet; the wire carries it if and only if the packet is fragmented or the entry offset is not beyond the header |
| Connections.PublishConnected | mqtt_client.c:2627-2759 | the same from arguments to wire, for every buffer that holds the header |
| Connections.PublishConnected5 | mqtt_client.c:2627-2759 | the same over MQTT 5.0, properties included |
| Connections.LeftoverOffset | mqtt_client.c:2761-2805 | a concrete enqueue leaves an offset that spoils a following publish |
| Connections.LeftoverTotal | mqtt_client.c:2587-2621 | a concrete enqueue at QoS 0 leaves a total that spoils a following publish without data |
| Outbox.FirstHitSplits | lib/mqtt_outbox.c:101-163 | removing the first hit leaves the rest of any filter as it was |
| Outbox.DrainIsDelete | lib/mqtt_outbox.c:198-231 | deleting expired items one by one removes what deleting them together removes, ids in queue order |
| Outbox.DrainLeavesFresh | lib/mqtt_outbox.c:198-231 | after the expiry loop exactly the items with `now - tick <= timeout` are left, in order, and the ids of the others were reported in order |
| Outbox.OutboxList.Enqueue | lib/mqtt_outbox.c:47-73 | the item goes to the tail, size grows by its length |
| Outbox.OutboxList.Find | lib/mqtt_outbox.c:75-99 | the first item that matches, or none |
| Outbox.OutboxList.Remove | lib/mqtt_outbox.c:101-145 | exactly the given node leaves the linked list |
| Outbox.OutboxList.Unlink | lib/mqtt_outbox.c:101-145 | item and its bytes leave; size stays the sum, so no subtraction underflows |
| Outbox.OutboxList.DeleteFirst | lib/mqtt_outbox.c:101-145 | search and removal of the first hit, order kept |
| Outbox.OutboxList.DeleteEvery | lib/mqtt_outbox.c:147-163 | all hits go in one traversal with saved successor, the others stay in order, and the count is right |
| Outbox.OutboxList.SetPending | lib/mqtt_outbox.c:165-175 | the first item with the id changes state, nothing else changes |
| Outbox.OutboxList.SetTick | lib/mqtt_outbox.c:186-196 | the first item with the id gets the tick, nothing else changes |
| Requeue.RequeueEndsIff | mqtt_client.c:870-901 | the loop ends if and only if each transmitted item is the first with its id, and then has the intended result |
| Requeue.SharedIdNeverEnds | mqtt_client.c:870-901 | two items under one id on which the loop never ends |
| Requeue.RequeueKeepsSize | mqtt_client.c:870-901 | requeueing keeps the byte count |
| Requeue.RequeueTransmitted | mqtt_client.c:870-901 | the loop over the linked outbox: DUP exactly on requeued PUBLISHes above QoS 0, none left transmitted, order kept |
| SessionBase.RunKeepsBase | mqtt_client.c:1470-1497 | in every reachable state handles grow along the queue, nonzero ids are distinct, id 0 means a QoS 0 publish, a connection has a worker |
| SessionDup.StepKeepsDup | mqtt_client.c:870-901 | every step keeps the agreement between outbox items and the log that DUP and PUBREC rest on |
| SessionDup.DupDiscipline | mqtt_client.c:1880-1905 | over every run: first write with DUP clear, every later one the same bytes with DUP set; a QoS 0 item is written at most once |
| SessionDup.NoPublishAfterPubrec | mqtt_client.c:1781-1801 | after a PUBREC for an item no write of it follows, across reconnects |
| SessionDup.PubrelAnswersPubrec | mqtt_client.c:1924-1950 | every PUBREL, first or repeated, carries the id of an earlier PUBREC |
| SessionQuota.StepKeepsQuota | mqtt_client.c:2119-2158 | no step other than a timed repeat lets the quota spent exceed the counter or the counter exceed Receive Maximum |
| SessionQuota.CounterSimulatesQuota | mqtt5_client.c:25-37 | in every reachable state quota spent <= counter <= Receive Maximum < 65536, equal when acknowledgements match, and repeats add at most one each |
| SessionQuota.RepeatBreaksQuota | mqtt_client.c:2161-2167 | a step breaks an exact count if and only if it is a timed repeat of a PUBLISH that is written |
| SessionQuota.RepeatExceedsReceiveMaximum | mqtt_client.c:2161-2167 | a run with Receive Maximum 1 and quota spent 2 |
| SessionLedger.Conservation | mqtt_client.c:1470-1497 | for every choice of items: stored = present + left by each cause, and each item counts once |
| SessionLedger.PublishConservation | mqtt_client.c:1018-1038 | a PUBLISH leaves only by acknowledgement, expiry, its QoS 0 write or task exit; no abort drops one |
| SessionLedger.EventsMatchItems | mqtt_client.c:1952-1972 | PUBLISHED events are the acknowledged ids and DELETED events the expired ids, in order, one each |
| SessionLedger.DuplicateAck | mqtt_client.c:1762-1777 | for every id: a repeated acknowledgement changes nothing and reports nothing if and only if it is not for id 0 with a QoS 0 publish stored |
| SessionLedger.AckZeroTwice | mqtt_client.c:1762-1777 | a run in which two acknowledgements for id 0 take two QoS 0 publishes away and report both |
| SessionSubs.AbortKeepsOthers | mqtt_client.c:1018-1038 | an abort drops exactly SUBSCRIBE and UNSUBSCRIBE in a clean session and nothing in a persistent one, the rest unchanged and in order |
| SessionSubs.StepKeepsSubs | mqtt_client.c:1018-1038 | every step keeps that what was stored online waits and was written only in its own connection |
| SessionReplay.NoReplay | mqtt_client.c:2409-2553 | clean session: every SUBSCRIBE and UNSUBSCRIBE stored while online is written, first or repeated, only in the connection that stored it |
| SessionReplay.OfflineReplays | mqtt_client.c:2119-2170 | stored while offline, whatever else is stored: acknowledgements for the rest and one more turn of the next connection write it there |
| SessionReplay.ReplayIff | mqtt_client.c:2421-2427 | over every run: what a subscribe or unsubscribe call stores can be written outside its connection if and only if the client is offline at the lock |
| SessionReplay.ReplayRun | mqtt_client.c:2421-2427 | the run from the start, for both protocol versions: the connection is lost between the test and the lock, and the next one gets the SUBSCRIBE |
| SessionIds.UnusedIff | lib/mqtt_msg.c:38-57 | over every run numbered by the counter: the id a step stores under is in use if and only if a stored item is a multiple of 65535 draws old |
| SessionIds.CounterRunIff | lib/mqtt_msg.c:38-57 | a run numbered by the counter meets the session's hypothesis at every store if and only if no item there is a multiple of 65535 draws old |
| SessionIds.RecentIdsRun | lib/mqtt_msg.c:38-57 | so it does while every stored item was given its id within the last 65534 draws |
| SessionIds.IdComesRound | lib/mqtt_msg.c:38-57 | a run in which the counter comes round to the id of a stored item |
| SessionSteps.PublishDoes | mqtt_client.c:2623-2759 | stored above QoS 0; written if and only if connected and the quota allows; a failed write loses the connection and keeps the item queued |
| SessionSteps.EnqueueDoes | mqtt_client.c:2761-2805 | only stored, above QoS 0 or on demand |
| SessionSteps.SubscribeDoes | mqtt_client.c:2426-2469 | stored last, marked as transmitted, written if and only if the write succeeds |
| SessionSteps.AckDoes | mqtt_client.c:1762-1777 | the first PUBLISH with the id goes, is reported and gives one unit of the quota back |
| SessionSteps.SubAckDoes | mqtt_client.c:1686-1720 | the first item of that kind with the id goes; an event that cannot be delivered loses the connection |
| SessionSteps.PubrecDoes | mqtt_client.c:1781-1801 | the first item with the id, of any kind, is marked, and a PUBREL follows if and only if the write succeeds |
| SessionSteps.PubrecIsAnswered | mqtt_client.c:1781-1801 | over every run: a PUBREC is answered in its connection by a PUBREL with its id, or a new one for id 0, and every item with the id waits for the PUBCOMP |
| SessionSteps.NextIs | mqtt_client.c:2119-2137 | at most one item goes next: the first queued one, or with the quota used up the first QoS 0 publish if that is queued |
| SessionSteps.SendDoes | mqtt_client.c:2119-2158 | that item is written and booked, or the connection is lost with all items there |
| SessionSteps.RepeatDoes | mqtt_client.c:2161-2167 | the first transmitted item is written again if and only if connected, nothing is queued to go, it is overdue and the write succeeds; DUP exactly in a PUBLISH above QoS 0 |
| SessionSteps.PubrelDoes | mqtt_client.c:1924-1950 | the PUBREL of the first acknowledged item is repeated if and only if connected, it is overdue and the write succeeds |
| SessionSteps.ExpireDoes | lib/mqtt_outbox.c:198-215 | the first item with `now - tick > timeout` goes and is reported; nothing changes if and only if there is none |
| SessionSteps.ConnectDoes | mqtt_client.c:870-901 | over MQTT 5.0 every transmitted item is queued again, DUP exactly in a PUBLISH above QoS 0, the counter restarts; nothing else changes |
| SessionSteps.AbortDoes | mqtt_client.c:1018-1038 | the client waits for the reconnect, with all items but the subscription packets of a clean session |
| SessionSteps.PhasesDo | mqtt_client.c:2300-2317 | when reconnect timer, stop, start and test change the phase, and what the end of the worker discards |
| Clients.ReachableAddressable | mqtt_client.c:968-971 | in every reachable state the requeue loop of a reconnect ends |
| Clients.Client.Store | mqtt_client.c:1483-1497 | the enqueue is the machine's |
| Clients.Client.AbortConnection | mqtt_client.c:1018-1038 | both deletions, the state change and the event are the machine's abort |
| Clients.Client.Written | mqtt_client.c:2139-2158 | deletion of a QoS 0 item, or tick, state and the 16-bit counter, are the machine's bookkeeping |
| Clients.Client.Publish | mqtt_client.c:2623-2759 | storing, in-flight check, write, abort and bookkeeping together are one step |
| Clients.Client.Enqueue | mqtt_client.c:2761-2805 | stored only above QoS 0 or on demand |
| Clients.Client.TestConnected | mqtt_client.c:2421-2424 | the test before the lock |
| Clients.Client.Subscribe | mqtt_client.c:2426-2469 | the locked part: stored, marked, then written, without another test; stays stored when the write fails |
| Clients.Client.ReceiveAck | mqtt_client.c:1762-1777 | PUBACK and PUBCOMP are the machine's step, and report whether an item matched |
| Clients.Client.ReceiveSubAck | mqtt_client.c:1686-1720 | SUBACK and UNSUBACK are the machine's step |
| Clients.Client.ReceivePubrec | mqtt_client.c:1781-1801 | PUBREC marks the first item with the id and answers PUBREL |
| Clients.Client.PickQueued | mqtt_client.c:2119-2137 | which queued item goes next when the quota is used up |
| Clients.Client.SendQueued | mqtt_client.c:2139-2158 | one queued item is sent and booked, or the connection aborted |
| Clients.Client.ResendTransmitted | mqtt_client.c:2161-2167 | DUP goes into the stored copy, then one timed write or an abort |
| Clients.Client.ResendRelease | mqtt_client.c:2169-2173 | one timed PUBREL or an abort |
| Clients.Client.ExpireOne | mqtt_client.c:1952-1972 | one turn of the expiry loop, -1 exactly when nothing is expired |
| Clients.Client.ConnectionAccepted | mqtt_client.c:968-971 | over MQTT 5.0 counter reset and requeue, then connected |
| Clients.Client.Exit | mqtt_client.c:2225-2228 | the worker's end discards everything |
| Lifecycle.StepKeeps | mqtt_client.c:2236-2389 | every access by a starter, stopper, worker or publisher keeps the lock and lifetime invariant |
| Lifecycle.AtMostOneWorker | mqtt_client.c:2236-2286 | in every interleaving at most one worker lives, the one in `task_handle` |
| Lifecycle.BitIsOfJoinedWorker | mqtt_client.c:2349-2389 | a STOPPED_BIT seen by a stop was set by the worker it joins; `run` stays false while it waits |
| Lifecycle.StopAfterLastAccess | mqtt_client.c:2225-2233 | when a stop returns ESP_OK its worker makes no further access |
| Lifecycle.StopsMatchStarts | mqtt_client.c:2349-2389 | each stop that returned ESP_OK joined a worker of its own, so there are no more of them than successful starts |
| Lifecycle.RefusedIffUnjoined | mqtt_client.c:2244-2249 | a start is refused at its test exactly while a worker is not joined |
| Lifecycle.ReentrantCallsFail | mqtt_client.c:2357-2367 | start and stop called from a worker's own event handler both fail |
| LifecycleRuns.StopRefusedIff | mqtt_client.c:2357-2383 | in every interleaving a stop goes on to join the worker in the handle if and only if there is one and no other stop joins it; without one all workers are dead |
| LifecycleRuns.StopSucceeds | mqtt_client.c:2349-2389 | from every reachable state with a worker, no other stop and the lock free, a stop run to its end joins that worker and returns ESP_OK, by steps of the two alone |
| LifecycleRuns.StartSucceeds | mqtt_client.c:2236-2286 | from every reachable state without a worker and with the lock free, a start run to its end leaves a new worker in its loop with `run` set and the bit clear |
| LifecycleRuns.StartFails | mqtt_client.c:2236-2286 | if the task cannot be created, the client is stopped again |
| LifecycleRuns.StartReturnsRunning | mqtt_client.c:2236-2286 | in every interleaving, when a start returns ESP_OK its worker is in the handle at the head of its loop, with nothing left of an earlier session |
| LifecycleRuns.StartStop | mqtt_client.c:2236-2389 | a client can be started and stopped: one worker, one stop |
| LifecycleRuns.WorkerLeavesIff | mqtt_client.c:2013-2233 | a worker leaves its loop at the test of `run`, if and only if that is false |
| LifecycleRuns.LostConnectionAborts | mqtt_client.c:2013-2233 | a worker that polls a lost connection waits for the reconnect and stays in its loop |
| SlotPool.DrainRestores | runtime/emqtt.c:324-337 | drain puts all slots back and clears everything, from any state |
| SlotBuffers.SlotsPartitioned | runtime/emqtt.c:162-215 | in every interleaving each slot is in exactly one place, and a pointer is set exactly while its slot is in a message notice |
| SlotBuffers.ReturnsNeverFail | runtime/emqtt.c:171-215 | a slot that goes back finds room |
| SlotBuffers.AtMostFourBuffers | runtime/emqtt.c:262-318 | at most four message buffers live, each in one place, none lost |
| SlotBuffers.FreedOnce | runtime/emqtt.c:548-558 | what is freed was live once; what poll copies out is live and is the notice's message |
| SlotBuffers.DrainFreesAll | runtime/emqtt.c:324-337 | after a successful stop no buffer is left |
| SlotOrder.PolledInOrder | runtime/emqtt.c:484-566 | returned messages are a prefix of the completed ones, byte for byte and in order, except at most one past the first dropped, and then the session is ending |
| SlotOrder.LossIsReported | runtime/emqtt.c:484-492 | once the callback has stored the flag, the next poll after a drop returns ERROR_QUEUE and faults the runtime |
| SlotOrder.TakeBreaksOrderIff | runtime/emqtt.c:487-494 | a take returns the next message unless all before the first dropped one are returned, and then overflow was set after the test |
| SlotSteps.ReceiverGivenUp | runtime/emqtt.c:203-298 | in every interleaving, after a link event or a rejected fragment the receiver is empty, its buffer freed and its slot back in the pool |
| SlotSteps.NextDataStartsAfresh | runtime/emqtt.c:262-286 | after that the next DATA event, however late, asks for a new buffer |
| SlotSteps.EventIsPosted | runtime/emqtt.c:217-322 | in every interleaving the callback of an event without a message does not return without posting its notice |
| SlotSteps.PartialIsKept | runtime/emqtt.c:262-294 | in every interleaving a message received in part stays, and the next DATA event goes on in its buffer and slot unless a link event or a drain comes between |
| SlotSteps.TakenIsReturned | runtime/emqtt.c:548-558 | a message that a poll takes in time is returned by it; then its slot is in the pool and its buffer freed |
| SlotSteps.NothingLost | runtime/emqtt.c:291-317 | while no completed message was dropped, those returned and those under way are all that completed, in order |
| SlotSteps.DropsIff | runtime/emqtt.c:178-306 | something is dropped exactly when memory is refused, a complete message finds no slot, or the notice queue is full |
| SlotSteps.PostDoes | runtime/emqtt.c:178-192 | a notice is refused exactly when sixteen are queued |
| SlotSteps.ErrorIffLoss | runtime/emqtt.c:484-492 | once the flag is stored, a poll ends with ERROR_QUEUE if and only if something was dropped |
| SlotSteps.TakeDoes | runtime/emqtt.c:493-563 | which notice a poll takes and what it leads to |
| SlotSteps.StopDoes | runtime/emqtt.c:427-438 | a stop that succeeds drains; one that fails leaves everything; both fault unless asked for |
| SlotSteps.StartDoes | runtime/emqtt.c:415-425 | a start drains, and runs if and only if the SDK starts |
| SlotSteps.DataDoes | runtime/emqtt.c:262-286 | a first fragment reserves the head of the pool, a later one goes on |
| SlotRace.MessageAfterGap | runtime/emqtt.c:178-192 | a run in which a message after a dropped one is returned |
| Subscriptions.ReadyMeansGranted | runtime/emqtt.c:458-566 | over every run the list is the configured one changed only by matching, granted, in-time acknowledgements, stays distinct and within eight, is what each reconnect submits, and READY means nothing pending and exactly the list granted |
| SubscriptionSteps.ReadyIffAnswered | runtime/emqtt.c:518-529 | in every reachable state a SUBACK makes the runtime READY, all of its list granted, if and only if it answers the request in flight in time and grants it; any other closes the session |
| SubscriptionSteps.RemovedIffAnswered | runtime/emqtt.c:532-543 | the same for UNSUBACK, with the filter removed |
| SubscriptionSteps.ConnectedAsks | runtime/emqtt.c:512-517 | CONNECTED makes an empty list READY and otherwise asks for exactly the list, with ten seconds; it closes the session if and only if asking fails or the notice is late |
| SubscriptionSteps.TimeoutCloses | runtime/emqtt.c:494-500 | without a notice the session is closed if and only if the request in flight has run out |
| SubscriptionSteps.LostOrLateCloses | runtime/emqtt.c:484-506 | after an overflow or past the deadline every notice closes it |
| SubscriptionSteps.OtherNoticesDo | runtime/emqtt.c:544-563 | what DISCONNECTED and each kind of error lead to |
| SubscriptionSteps.SubscribeDoes | runtime/emqtt.c:594-607 | a new filter is asked for if and only if READY, valid, new, QoS 0 or 1 and room |
| SubscriptionSteps.UnsubscribeDoes | runtime/emqtt.c:609-623 | a removal is asked for if and only if READY and the filter is in the list |
| SubscriptionSteps.StartStopDo | runtime/emqtt.c:415-442 | when start and stop succeed, and that they keep the list and drop the request in flight |
| SubscriptionSteps.BecomesReady | runtime/emqtt.c:512-529 | from every reachable state without a session: start, CONNECTED and the granting SUBACK give READY with the list |
| Subscriptions.CutIsWithout | runtime/emqtt.c:532-543 | removing the recorded position is removing the filter asked for |
| Subscriptions.LateKeeps | runtime/emqtt.c:501-506 | a late notice closes the session and changes neither the list nor what the protocol says is desired |
| Owners.SubackValid | runtime/emqtt_contract.c:114-120 | accepts exactly one code per filter, each granting QoS 0 or 1 not above the one asked |
| Owners.Runtime.StartSdk | runtime/emqtt.c:415-425 | a start is the protocol's: refused, failed after the drain, or connecting |
| Owners.Runtime.SubmitList | runtime/emqtt.c:458-475 | the request and its pending fields, or READY for an empty list |
| Owners.Runtime.HandleSuback | runtime/emqtt.c:518-531 | a SUBACK commits in place or closes the session |
| Owners.Runtime.CloseGap | runtime/emqtt.c:536-539 | the memmove removes exactly the entry |
| Owners.Runtime.HandleUnsuback | runtime/emqtt.c:532-543 | an UNSUBACK commits in place or closes the session |
| Owners.Runtime.PollOnce | runtime/emqtt.c:484-566 | one poll is one step of the protocol, every branch |
| Owners.Runtime.SubscribeTo | runtime/emqtt.c:594-607 | refusals and the dynamic request are the protocol's |
| Owners.Runtime.UnsubscribeFrom | runtime/emqtt.c:609-623 | refusals and the request by position are the protocol's |
| Reassembly.Receiver.ReceiveInto | runtime/emqtt_receive_internal.h:29-67 | the in-place receiver is the fragment rule, rejections included |
| Reassembly.ReassemblyExact | runtime/emqtt_receive_internal.h:29-67 | a receiver at rest completes exactly on the complete cuttings of one message and hands over their content |
| Fragments.CuttingIsOneMessage | runtime/emqtt_receive_internal.h:29-67 | the fragment rule, field by field: ranges, order, offsets and equality with the first fragment |
| Fragments.CompletesIff | runtime/emqtt_receive_internal.h:29-67 | a receiver at rest completes exactly on the fragments of one message that fill it, and hands over the fields of the first and the bytes of all |
| Reassembly.DeliverPublish | mqtt_client.c:1322-1423 | the loop emits events that start where the ones before end, all name the whole length and together carry the payload, for every sequence of reads |
| Reassembly.DeliveryIsCutting | mqtt_client.c:1322-1423 | those events form a complete cutting |
| Reassembly.InboundIdentity | mqtt_client.c:1322-1423 | delivered and reassembled, every PUBLISH up to QoS 1 comes out with its payload and metadata, MORE until the last event, then COMPLETE |
| TextRules.AllowedMeans | runtime/emqtt_contract.c:28-31 | allowed code points are all but controls, surrogates and noncharacters |
| TextRules.EncodingDecodes | runtime/emqtt_contract.c:13-34 | every allowed code point is read back from its shortest encoding |
| TextRules.DecodingEncodes | runtime/emqtt_contract.c:13-34 | what is accepted is the shortest encoding of an allowed code point |
| TextRules.AcceptedIffText | runtime/emqtt_contract.c:13-34 | the check accepts exactly the encodings of allowed code points |
| TextRules.IsUtf8 | runtime/emqtt_contract.c:13-34 | the loop with its running code decides that |
| TextRules.LevelsPartition | runtime/emqtt_contract.c:36-45 | joining the levels with slashes gives the topic back |
| TextRules.CharsOkIffLevelsOk | runtime/emqtt_contract.c:39-43 | the character test holds exactly when each level is free of wildcards or, in filters, is "+" or a final "#" |
| TextRules.TopicMeans | runtime/emqtt_contract.c:36-45 | one to 256 bytes of text; no wildcard in a name; in a filter "+" as a whole level and "#" as the whole last one |
| TextRules.TopicValid | runtime/emqtt_contract.c:36-45 | accepts exactly the well-formed topic names, or filters |

## Left out

- Transport creation, TLS, URI parsing, configuration copying, keepalive and reconnect timing:
  foreign calls, or steps that may be taken at any time.
- Framing of received packets and resuming a partly read header: the model starts from a
  framed packet.
- Publish5.GetPublishPropertyPayload: bytes read or pointed at outside the packet are one
  outcome, not values; and, like `Properties5.GetProperties`, it is stated for the inputs on which
  the loop ends, since a method has to end.
- Properties5.GetProperties: see the line above; `EnoughTurns` says which inputs these are.
- Response topics joined with response information (`lib/mqtt5_msg.c:1107-1124`).
- Topic aliases as a list, server property checks, incoming QoS 2 bookkeeping.
- Allocation failure inside the client core; that of a message buffer in the runtime is
  modelled.
- The outbox size limit and the checks before a publish is composed; they only refuse.
- The packet bytes of SUBSCRIBE, UNSUBSCRIBE, PUBREL and the acknowledgements: the session
  records their type and id.
- Connections.Connection.AppendMessageId: the build that draws ids at random is not modelled;
  ids count upward.
- Connections.Connection.AppendProperty: the zero-width length mode is not modelled; only the
  subscription identifier of a SUBSCRIBE uses it (`lib/mqtt5_msg.c:1247`).
- Byte wiping, capacity statistics, logging and error-code naming.
- esp_mqtt_client_destroy beside other calls.
- Progress: that a start, a stop, a poll or a handshake can be run to its end is proved; that
  the scheduler does run it, and how long that takes, is not.
