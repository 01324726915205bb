/** The QoS session of mqtt_client.c as a step machine: the outbox, the connection and
    the MQTT 5.0 in-flight counter under API calls, received packets, retransmission,
    expiry, lost connections and stop. A log records what was written, received and
    reported, so that properties speak of whole runs. */
module Session {
  import opened Bytes
  import opened Publish311
  import opened Outbox

  datatype Phase = Init | Disconnected | Connected | WaitReconnect

  datatype Config = Config(v5: bool, clean: bool)

  /** Why an item left the outbox. */
  datatype Cause = Acked | SubAcked | Expired | SentQos0 | DroppedOnAbort | DiscardedOnStop

  datatype Entry =
    | Enqueued(item: Item, epoch: nat, online: bool) // `online`: stored while Online
    | Wrote(item: Item, epoch: nat, resend: bool)   // all bytes of the item, as they were written
    | WroteDirect(data: seq<Byte>, epoch: nat)      // a QoS 0 publish that bypasses the outbox
    | WrotePubrel(id: nat, given: nat, epoch: nat)  // `given`: the id it answers, 0 if none
    | GotAck(id: nat, matched: bool)                // PUBACK or PUBCOMP
    | GotPubrec(id: nat, error: bool, hit: Option<nat>)
    | Left(item: Item, cause: Cause)
    | Swept(items: seq<Item>, cause: Cause)
    | PublishedEvent(id: nat)
    | DeletedEvent(id: nat)
    | SubAckEvent(id: nat)
    | DisconnectedEvent
    | Accepted(epoch: nat, recvMax: nat)            // CONNACK

  datatype Log = Empty | Snoc(past: Log, last: Entry)

  function Length(log: Log): (n: nat) {
    if log.Empty? then 0 else Length(log.past) + 1
  }

  /** Entry `i` of a log, oldest first. */
  function At(log: Log, i: nat): (e: Entry)
    requires i < Length(log)
  {
    if i == Length(log) - 1 then log.last else At(log.past, i)
  }

  datatype State = State(
    cfg: Config,
    phase: Phase,
    running: bool,          // a worker task exists
    epoch: nat,             // number of accepted connections
    outbox: seq<Item>,
    nextHandle: nat,
    calls: nat,             // subscribe and unsubscribe calls past their test, waiting for the lock
    count: nat,             // send_publish_packet_count
    recvMax: nat,           // server Receive Maximum
    log: Log)

  function Start0(cfg: Config): (s: State) {
    State(cfg, Init, false, 0, [], 0, 0, 0, 65535, Empty)
  }

  function Note(s: State, e: Entry): (r: State) {
    s.(log := Snoc(s.log, e))
  }

  /** A connection is up, or is being ended by a stop that has not been joined: the only
      phases in which a write can succeed. */
  predicate Online(s: State) {
    s.phase == Connected || (s.phase == Disconnected && s.running)
  }

  predicate Counted(x: Item) {
    x.msgType == PUBLISH_TYPE && x.qos > 0
  }

  // ---------------------------------------------------------------- building blocks

  /** mqtt_enqueue. */
  function Add(s: State, id: nat, msgType: nat, qos: nat, data: seq<Byte>, tick: int): (r: State) {
    var x := Item(s.nextHandle, id, msgType, qos, tick, Queued, data);
    Note(s.(outbox := s.outbox + [x], nextHandle := s.nextHandle + 1), Enqueued(x, s.epoch, Online(s)))
  }

  /** esp_mqtt_abort_connection. */
  function Abort(s: State): (r: State) {
    var subs := Hits(s.outbox, ByType(SUBSCRIBE_TYPE));
    var left := Without(s.outbox, ByType(SUBSCRIBE_TYPE));
    var unsubs := Hits(left, ByType(UNSUBSCRIBE_TYPE));
    var s1 := if s.cfg.clean
              then Note(Note(s.(outbox := Without(left, ByType(UNSUBSCRIBE_TYPE))), Swept(subs, DroppedOnAbort)),
                  Swept(unsubs, DroppedOnAbort))
              else s;
    Note(s1.(phase := WaitReconnect), DisconnectedEvent)
  }

  /** Bookkeeping after an item was written completely: QoS 0 items go, the others are
      marked by their id and, if PUBLISH, counted. */
  function AfterWrite(s: State, x: Item, now: int): (r: State) {
    var s1 := Note(s, Wrote(x, s.epoch, false));
    if x.msgType == PUBLISH_TYPE && x.qos == 0 then
      var k := First(s.outbox, ByHandle(x.handle));
      if k < |s.outbox| then Note(s1.(outbox := RemoveAt(s.outbox, k)), Left(s.outbox[k], SentQos0)) else s1
    else
      s1.(outbox := SetPendingAt(SetTickAt(s.outbox, x.id, now), x.id, Transmitted),
          count := if s.cfg.v5 && x.msgType == PUBLISH_TYPE then s.count + 1 else s.count)
  }

  // ---------------------------------------------------------------- API calls

  /** esp_mqtt_client_publish with a composed packet; `ok`: every write succeeded. */
  function Publish(s: State, id: nat, qos: nat, data: seq<Byte>, now: int, ok: bool): (r: State) {
    var s1 := if qos > 0 then Add(s, id, PUBLISH_TYPE, qos, data, now) else s;
    if s.phase != Connected then s1
    else if s.cfg.v5 && qos > 0 && s.count >= s.recvMax then s1
    else if !ok then Abort(s1)
    else if qos == 0 then Note(s1, WroteDirect(data, s.epoch))
    else AfterWrite(s1, s1.outbox[|s1.outbox| - 1], now)
  }

  /** esp_mqtt_client_enqueue. */
  function Enqueue(s: State, id: nat, qos: nat, data: seq<Byte>, now: int, store: bool): (r: State) {
    if qos > 0 || store then Add(s, id, PUBLISH_TYPE, qos, data, now) else s
  }

  /** The test of esp_mqtt_client_subscribe_multiple and esp_mqtt_client_unsubscribe,
      which comes before the lock. */
  function TestConnected(s: State): (r: State) {
    if s.phase == Connected then s.(calls := s.calls + 1) else s
  }

  /** The rest of these calls, under the lock and without another test: stored, marked as
      transmitted, then written. */
  function Subscribe(s: State, id: nat, msgType: nat, data: seq<Byte>, now: int, ok: bool): (r: State) {
    var s1 := Add(s, id, msgType, 0, data, now);
    var s2 := s1.(outbox := SetPendingAt(s1.outbox, id, Transmitted), calls := Less(s1.calls));
    if ok then Note(s2, Wrote(s2.outbox[|s2.outbox| - 1], s.epoch, false)) else s2
  }

  function Less(n: nat): (m: nat) { if n > 0 then n - 1 else 0 }

  // ---------------------------------------------------------------- received packets

  /** PUBACK and PUBCOMP: the PUBLISH with that id goes, the counter is released. */
  function ReceiveAck(s: State, id: nat): (r: State) {
    var k := First(s.outbox, ByMessage(id, PUBLISH_TYPE));
    var s1 := Note(s, GotAck(id, k < |s.outbox|));
    if k == |s.outbox| then s1
    else Note(Note(s1.(outbox := RemoveAt(s.outbox, k),
                       count := if s.cfg.v5 && s.count > 0 then s.count - 1 else s.count),
                   Left(s.outbox[k], Acked)), PublishedEvent(id))
  }

  /** SUBACK and UNSUBACK; `ok`: the event could be delivered. */
  function ReceiveSubAck(s: State, id: nat, msgType: nat, ok: bool): (r: State) {
    var k := First(s.outbox, ByMessage(id, msgType));
    if k == |s.outbox| then s
    else
      var s1 := Note(s.(outbox := RemoveAt(s.outbox, k)), Left(s.outbox[k], SubAcked));
      if ok then Note(s1, SubAckEvent(id)) else Abort(s1)
  }

  /** PUBREC: the item with that id waits for PUBCOMP, a PUBREL is written. A PUBREL for
      id 0 gets an id of its own. */
  function ReceivePubrec(s: State, id: nat, error: bool, newId: nat, ok: bool): (r: State) {
    var k := First(s.outbox, ById(id));
    var s1 := Note(s.(outbox := SetPendingAt(s.outbox, id, Acknowledged)),
                   GotPubrec(id, error, if k < |s.outbox| then Some(s.outbox[k].handle) else None));
    if ok then Note(s1, WrotePubrel(if id == 0 then newId else id, id, s.epoch)) else s1
  }

  // ---------------------------------------------------------------- the worker's own steps

  /** mqtt_get_queued_qos0. */
  function QueuedQos0(items: seq<Item>): (k: nat)
    ensures k <= |items|
  {
    var k := First(items, ById(0));
    if k < |items| && items[k].pending == Queued && items[k].msgType == PUBLISH_TYPE && items[k].qos == 0
    then k else |items|
  }

  /** The queued item to send next: with the quota used up, a QoS 0 item or nothing in
      place of a PUBLISH above QoS 0. */
  function NextQueued(s: State): (k: nat)
    ensures k <= |s.outbox|
  {
    var k := First(s.outbox, ByPending(Queued));
    if k < |s.outbox| && s.cfg.v5 && s.count >= s.recvMax && Counted(s.outbox[k]) then QueuedQos0(s.outbox) else k
  }

  function SendQueued(s: State, now: int, ok: bool): (r: State) {
    var k := NextQueued(s);
    if s.phase != Connected || k == |s.outbox| then s
    else if !ok then Abort(s)
    else AfterWrite(s, s.outbox[k], now)
  }

  function Dup(x: Item): (r: Item) {
    if Counted(x) then x.(data := SetDup(x.data)) else x
  }

  /** Timed retransmission of the first transmitted item; DUP is set in the stored copy
      before the write. */
  function Resend(s: State, now: int, timeout: int, ok: bool): (r: State) {
    var k := First(s.outbox, ByPending(Transmitted));
    if s.phase != Connected || NextQueued(s) < |s.outbox| || k == |s.outbox| || now - s.outbox[k].tick <= timeout then s
    else
      var s1 := s.(outbox := s.outbox[k := Dup(s.outbox[k])]);
      if ok then Note(s1, Wrote(s1.outbox[k], s.epoch, true)) else Abort(s1)
  }

  /** Timed retransmission of the first PUBREL. */
  function ResendPubrel(s: State, now: int, timeout: int, newId: nat, ok: bool): (r: State) {
    var k := First(s.outbox, ByPending(Acknowledged));
    if s.phase != Connected || k == |s.outbox| || now - s.outbox[k].tick <= timeout then s
    else if !ok then Abort(s)
    else
      var id := s.outbox[k].id;
      Note(s, WrotePubrel(if id == 0 then newId else id, id, s.epoch))
  }

  /** One turn of the expiry loop. */
  function Expire(s: State, now: int, timeout: int): (r: State) {
    var k := First(s.outbox, ByExpiry(now, timeout));
    if k == |s.outbox| then s
    else Note(Note(s.(outbox := RemoveAt(s.outbox, k)), Left(s.outbox[k], Expired)), DeletedEvent(s.outbox[k].id))
  }

  /** mqtt_requeue_transmitted_messages as it is meant. */
  function Requeued(x: Item): (r: Item) {
    if x.pending == Transmitted then Dup(x).(pending := Queued) else x
  }

  function RequeueAll(items: seq<Item>): (r: seq<Item>)
    ensures |r| == |items|
    ensures forall i :: 0 <= i < |items| ==> r[i] == Requeued(items[i])
  {
    if items == [] then [] else [Requeued(items[0])] + RequeueAll(items[1..])
  }

  /** A CONNACK that accepts the connection. */
  function Connect(s: State, recvMax: nat): (r: State) {
    if s.phase != Init || !s.running then s
    else
      var s1 := if s.cfg.v5 then s.(outbox := RequeueAll(s.outbox), count := 0, recvMax := recvMax) else s;
      Note(s1.(phase := Connected, epoch := s.epoch + 1), Accepted(s.epoch + 1, recvMax))
  }

  /** The reconnect timer, or a refresh. */
  function Reconnect(s: State): (r: State) {
    if s.phase == WaitReconnect then s.(phase := Init) else s
  }

  function StopRequest(s: State): (r: State) {
    if s.running then s.(phase := Disconnected) else s
  }

  /** The end of esp_mqtt_task: everything is discarded. */
  function WorkerExit(s: State): (r: State) {
    if s.running
    then Note(s.(outbox := [], phase := Disconnected, running := false), Swept(s.outbox, DiscardedOnStop))
    else s
  }

  function StartWorker(s: State): (r: State) {
    if !s.running && (s.phase == Init || s.phase == Disconnected) then s.(phase := Init, running := true) else s
  }

  // ---------------------------------------------------------------- runs

  datatype Step =
    | DoPublish(id: nat, qos: nat, data: seq<Byte>, now: int, ok: bool)
    | DoEnqueue(id: nat, qos: nat, data: seq<Byte>, now: int, store: bool)
    | DoTestConnected
    | DoSubscribe(id: nat, msgType: nat, data: seq<Byte>, now: int, ok: bool)
    | DoReceiveAck(id: nat)
    | DoReceiveSubAck(id: nat, msgType: nat, ok: bool)
    | DoReceivePubrec(id: nat, error: bool, newId: nat, ok: bool)
    | DoSendQueued(now: int, ok: bool)
    | DoResend(now: int, timeout: int, ok: bool)
    | DoResendPubrel(now: int, timeout: int, newId: nat, ok: bool)
    | DoExpire(now: int, timeout: int)
    | DoConnect(recvMax: nat)
    | DoAbort
    | DoReconnect
    | DoStopRequest
    | DoWorkerExit
    | DoStart

  function Apply(s: State, a: Step): (r: State) {
    match a
    case DoPublish(id, qos, data, now, ok) => Publish(s, id, qos, data, now, ok)
    case DoEnqueue(id, qos, data, now, store) => Enqueue(s, id, qos, data, now, store)
    case DoTestConnected => TestConnected(s)
    case DoSubscribe(id, msgType, data, now, ok) => Subscribe(s, id, msgType, data, now, ok)
    case DoReceiveAck(id) => ReceiveAck(s, id)
    case DoReceiveSubAck(id, msgType, ok) => ReceiveSubAck(s, id, msgType, ok)
    case DoReceivePubrec(id, error, newId, ok) => ReceivePubrec(s, id, error, newId, ok)
    case DoSendQueued(now, ok) => SendQueued(s, now, ok)
    case DoResend(now, timeout, ok) => Resend(s, now, timeout, ok)
    case DoResendPubrel(now, timeout, newId, ok) => ResendPubrel(s, now, timeout, newId, ok)
    case DoExpire(now, timeout) => Expire(s, now, timeout)
    case DoConnect(recvMax) => Connect(s, recvMax)
    case DoAbort => Abort(s)
    case DoReconnect => Reconnect(s)
    case DoStopRequest => StopRequest(s)
    case DoWorkerExit => WorkerExit(s)
    case DoStart => StartWorker(s)
  }

  /** No item of the outbox carries `id`. */
  predicate Unused(s: State, id: nat) {
    id != 0 && First(s.outbox, ById(id)) == |s.outbox|
  }

  predicate FreshPublish(s: State, id: nat, qos: nat, data: seq<Byte>) {
    && (if qos > 0 then Unused(s, id) else id == 0)
    && data != [] && DupOf(data[0]) == 0
  }

  /** What a step may assume: new identifiers are not in use (lookups are by id only),
      the encoder leaves DUP clear, packets arrive only while connected, no write succeeds
      while offline, and Receive Maximum is a 16-bit number. */
  predicate Enabled(s: State, a: Step) {
    match a
    case DoPublish(id, qos, data, _, _) => FreshPublish(s, id, qos, data)
    case DoEnqueue(id, qos, data, _, _) => FreshPublish(s, id, qos, data)
    case DoSubscribe(id, msgType, _, _, ok) =>
      s.calls > 0 && Unused(s, id) && (msgType == SUBSCRIBE_TYPE || msgType == UNSUBSCRIBE_TYPE) && (ok ==> Online(s))
    case DoReceiveAck(_) => s.phase == Connected
    case DoReceiveSubAck(_, msgType, _) =>
      s.phase == Connected && (msgType == SUBSCRIBE_TYPE || msgType == UNSUBSCRIBE_TYPE)
    case DoReceivePubrec(_, _, _, _) => s.phase == Connected
    case DoConnect(recvMax) => recvMax < 65536
    case DoAbort => s.running
    case _ => true
  }

  ghost predicate Takes(trace: seq<State>, steps: seq<Step>, i: nat)
    requires |trace| == |steps| + 1 && i < |steps|
  {
    Enabled(trace[i], steps[i]) && trace[i + 1] == Apply(trace[i], steps[i])
  }

  /** A run from `s`: `trace[i]` is the state before `steps[i]`. */
  ghost predicate IsRun(s: State, trace: seq<State>, steps: seq<Step>) {
    && |trace| == |steps| + 1 && trace[0] == s
    && forall i :: 0 <= i < |steps| ==> Takes(trace, steps, i)
  }

  /** A run told step by step, with its last state. */
  datatype Story = Story(trace: seq<State>, steps: seq<Step>, now: State)

  ghost predicate Told(s: State, r: Story) {
    IsRun(s, r.trace, r.steps) && r.trace[|r.steps|] == r.now
  }

  lemma Next(s: State, r: Story, a: Step) returns (q: Story)
    requires Told(s, r) && Enabled(r.now, a)
    ensures Told(s, q) && q.now == Apply(r.now, a) && q.steps == r.steps + [a]
  {
    hide Apply, Enabled;
    q := Story(r.trace + [Apply(r.now, a)], r.steps + [a], Apply(r.now, a));
    forall i | 0 <= i < |q.steps| ensures Takes(q.trace, q.steps, i) {
      if i < |r.steps| { assert Takes(r.trace, r.steps, i); }
    }
  }
}
