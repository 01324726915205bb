/** What every step of the session keeps: handles grow along the queue, nonzero ids are
    distinct, id 0 marks exactly the QoS 0 publishes, and a connection needs a worker. */
module SessionBase {
  import opened Bytes
  import opened Outbox
  import opened Session

  predicate Shape(x: Item) {
    && (x.msgType == PUBLISH_TYPE || x.msgType == SUBSCRIBE_TYPE || x.msgType == UNSUBSCRIBE_TYPE)
    && (x.id == 0 <==> x.msgType == PUBLISH_TYPE && x.qos == 0)
    && (x.msgType == PUBLISH_TYPE ==> x.data != [])
  }

  /** Two items in queue order. */
  predicate Ordered(a: Item, b: Item) {
    a.handle < b.handle && (a.id == b.id ==> a.id == 0)
  }

  ghost predicate Queue(items: seq<Item>, next: nat) {
    && (forall i :: 0 <= i < |items| ==> Shape(items[i]) && items[i].handle < next)
    && (forall i, j :: 0 <= i < j < |items| ==> Ordered(items[i], items[j]))
  }

  ghost predicate Base(s: State) {
    && Queue(s.outbox, s.nextHandle)
    && (s.phase == Connected || s.phase == WaitReconnect ==> s.running)
  }

  // ---------------------------------------------------------------- queue operations

  lemma FirstById(items: seq<Item>, next: nat, k: nat)
    requires Queue(items, next) && k < |items| && items[k].id != 0
    ensures First(items, ById(items[k].id)) == k
  {
    FirstIs(items, ById(items[k].id), k);
  }

  lemma FirstByHandle(items: seq<Item>, next: nat, k: nat)
    requires Queue(items, next) && k < |items|
    ensures First(items, ByHandle(items[k].handle)) == k
  {
    FirstIs(items, ByHandle(items[k].handle), k);
  }

  lemma QueueAppend(items: seq<Item>, next: nat, x: Item)
    requires Queue(items, next) && Shape(x) && x.handle == next
    requires x.id == 0 || First(items, ById(x.id)) == |items|
    ensures Queue(items + [x], next + 1)
  {
    assert forall i :: 0 <= i < |items| ==> x.id != 0 ==> !Hit(ById(x.id), items[i]);
  }

  /** Same handle, id, type, QoS. */
  predicate SameKey(a: Item, b: Item) {
    a.handle == b.handle && a.id == b.id && a.msgType == b.msgType && a.qos == b.qos && |a.data| == |b.data|
  }

  lemma QueueUpdate(items: seq<Item>, next: nat, k: nat, x: Item)
    requires Queue(items, next) && k < |items| && SameKey(x, items[k])
    ensures Queue(items[k := x], next)
  {
    assert Shape(items[k]);
    var u := items[k := x];
    forall i, j | 0 <= i < j < |u| ensures Ordered(u[i], u[j]) {
      assert Ordered(items[i], items[j]);
    }
  }

  lemma QueueRemove(items: seq<Item>, next: nat, k: nat)
    requires Queue(items, next) && k < |items|
    ensures Queue(RemoveAt(items, k), next)
  {
    var r := RemoveAt(items, k);
    forall i | 0 <= i < |r| ensures Shape(r[i]) && r[i].handle < next {
      assert r[i] == items[if i < k then i else i + 1];
    }
    forall i, j | 0 <= i < j < |r| ensures Ordered(r[i], r[j]) {
      assert Ordered(items[if i < k then i else i + 1], items[if j < k then j else j + 1]);
    }
  }

  lemma {:induction false} QueueWithout(items: seq<Item>, next: nat, q: Query)
    requires Queue(items, next)
    ensures Queue(Without(items, q), next)
    ensures forall x :: x in Without(items, q) <==> x in items && !Hit(q, x)
  {
    if items != [] {
      var n := |items| - 1;
      var w := Without(items[..n], q);
      QueueWithout(items[..n], next, q);
      assert items == items[..n] + [items[n]];
      forall i | 0 <= i < |w| ensures Ordered(w[i], items[n]) {
        assert w[i] in items[..n];
      }
    }
  }

  lemma QueueRequeue(items: seq<Item>, next: nat)
    requires Queue(items, next)
    ensures Queue(RequeueAll(items), next)
  {
    var r := RequeueAll(items);
    assert forall i :: 0 <= i < |r| ==> SameKey(r[i], items[i]);
    forall i, j | 0 <= i < j < |r| ensures Ordered(r[i], r[j]) {
      assert Ordered(items[i], items[j]);
    }
  }

  /** Marking by id reaches exactly the item meant. */
  lemma MarkHits(items: seq<Item>, next: nat, k: nat, now: int)
    requires Queue(items, next) && k < |items| && items[k].id != 0
    ensures SetPendingAt(SetTickAt(items, items[k].id, now), items[k].id, Transmitted)
            == items[k := items[k].(tick := now, pending := Transmitted)]
  {
    FirstById(items, next, k);
    var t := items[k := items[k].(tick := now)];
    QueueUpdate(items, next, k, t[k]);
    FirstById(t, next, k);
  }

  // ---------------------------------------------------------------- steps

  lemma AddKeeps(s: State, id: nat, msgType: nat, qos: nat, data: seq<Byte>, tick: int)
    requires Base(s) && Shape(Item(s.nextHandle, id, msgType, qos, tick, Queued, data))
    requires id == 0 || Unused(s, id)
    ensures Base(Add(s, id, msgType, qos, data, tick))
  {
    QueueAppend(s.outbox, s.nextHandle, Item(s.nextHandle, id, msgType, qos, tick, Queued, data));
  }

  lemma AbortKeeps(s: State)
    requires Base(s) && s.running
    ensures Base(Abort(s))
  {
    QueueWithout(s.outbox, s.nextHandle, ByType(SUBSCRIBE_TYPE));
    QueueWithout(Without(s.outbox, ByType(SUBSCRIBE_TYPE)), s.nextHandle, ByType(UNSUBSCRIBE_TYPE));
  }

  lemma AfterWriteKeeps(s: State, k: nat, now: int)
    requires Base(s) && k < |s.outbox|
    ensures Base(AfterWrite(s, s.outbox[k], now))
  {
    if s.outbox[k].id == 0 {
      FirstByHandle(s.outbox, s.nextHandle, k);
      QueueRemove(s.outbox, s.nextHandle, k);
    } else {
      MarkHits(s.outbox, s.nextHandle, k, now);
      QueueUpdate(s.outbox, s.nextHandle, k, s.outbox[k].(tick := now, pending := Transmitted));
    }
  }

  lemma PublishKeeps(s: State, id: nat, qos: nat, data: seq<Byte>, now: int, ok: bool)
    requires Base(s) && FreshPublish(s, id, qos, data)
    ensures Base(Publish(s, id, qos, data, now, ok))
  {
    hide Add, Abort, AfterWrite;
    if qos > 0 {
      AddKeeps(s, id, PUBLISH_TYPE, qos, data, now);
      AddView(s, id, PUBLISH_TYPE, qos, data, now);
    }
    var s1 := if qos > 0 then Add(s, id, PUBLISH_TYPE, qos, data, now) else s;
    if s.phase == Connected { AbortKeeps(s1); }
    if qos > 0 { AfterWriteKeeps(s1, |s1.outbox| - 1, now); }
  }

  lemma AddView(s: State, id: nat, msgType: nat, qos: nat, data: seq<Byte>, tick: int)
    ensures var r := Add(s, id, msgType, qos, data, tick);
            && |r.outbox| == |s.outbox| + 1 && r.running == s.running && r.phase == s.phase && r.epoch == s.epoch
            && r.outbox[|s.outbox|] == Item(s.nextHandle, id, msgType, qos, tick, Queued, data)
  {
  }

  lemma SubscribeKeeps(s: State, id: nat, msgType: nat, data: seq<Byte>, now: int, ok: bool)
    requires Base(s) && Unused(s, id) && (msgType == SUBSCRIBE_TYPE || msgType == UNSUBSCRIBE_TYPE)
    ensures Base(Subscribe(s, id, msgType, data, now, ok))
  {
    AddKeeps(s, id, msgType, 0, data, now);
    var s1 := Add(s, id, msgType, 0, data, now);
    MarkKeeps(s1.outbox, s1.nextHandle, id, Transmitted);
  }

  lemma MarkKeeps(items: seq<Item>, next: nat, id: nat, p: Pending)
    requires Queue(items, next)
    ensures Queue(SetPendingAt(items, id, p), next)
  {
    var k := First(items, ById(id));
    if k < |items| { QueueUpdate(items, next, k, items[k].(pending := p)); }
  }

  lemma RemovalKeeps(s: State, k: nat, r: State)
    requires Base(s) && k < |s.outbox| && r.outbox == RemoveAt(s.outbox, k)
    requires r.nextHandle == s.nextHandle && r.phase == s.phase && r.running == s.running
    ensures Base(r)
  {
    QueueRemove(s.outbox, s.nextHandle, k);
  }

  lemma ReceiveKeeps(s: State, a: Step)
    requires Base(s) && Enabled(s, a)
    requires a.DoReceiveAck? || a.DoReceiveSubAck? || a.DoReceivePubrec? || a.DoExpire?
    ensures Base(Apply(s, a))
  {
    match a
    case DoReceiveAck(id) =>
      var k := First(s.outbox, ByMessage(id, PUBLISH_TYPE));
      if k < |s.outbox| { RemovalKeeps(s, k, Apply(s, a)); }
    case DoReceiveSubAck(id, msgType, ok) =>
      var k := First(s.outbox, ByMessage(id, msgType));
      if k < |s.outbox| {
        var s1 := Note(s.(outbox := RemoveAt(s.outbox, k)), Left(s.outbox[k], SubAcked));
        RemovalKeeps(s, k, s1);
        if !ok { AbortKeeps(s1); }
      }
    case DoReceivePubrec(id, error, newId, ok) =>
      MarkKeeps(s.outbox, s.nextHandle, id, Acknowledged);
    case DoExpire(now, timeout) =>
      var k := First(s.outbox, ByExpiry(now, timeout));
      if k < |s.outbox| { RemovalKeeps(s, k, Apply(s, a)); }
  }

  lemma WorkerKeeps(s: State, a: Step)
    requires Base(s) && Enabled(s, a)
    requires a.DoSendQueued? || a.DoResend? || a.DoResendPubrel? || a.DoConnect?
    ensures Base(Apply(s, a))
  {
    hide Abort, AfterWrite;
    match a
    case DoSendQueued(now, ok) =>
      var k := NextQueued(s);
      if s.phase == Connected && k < |s.outbox| {
        AbortKeeps(s);
        AfterWriteKeeps(s, k, now);
      }
    case DoResend(now, timeout, ok) =>
      var k := First(s.outbox, ByPending(Transmitted));
      if s.phase == Connected && k < |s.outbox| {
        var s1 := s.(outbox := s.outbox[k := Dup(s.outbox[k])]);
        QueueUpdate(s.outbox, s.nextHandle, k, Dup(s.outbox[k]));
        AbortKeeps(s1);
      }
    case DoResendPubrel(now, timeout, newId, ok) =>
      if s.phase == Connected { AbortKeeps(s); }
    case DoConnect(recvMax) =>
      QueueRequeue(s.outbox, s.nextHandle);
  }

  lemma StepKeepsBase(s: State, a: Step)
    requires Base(s) && Enabled(s, a)
    ensures Base(Apply(s, a))
  {
    hide Queue, Publish, Subscribe, ReceiveAck, ReceiveSubAck, ReceivePubrec, SendQueued, Resend, ResendPubrel,
        Expire, Connect, Abort;
    match a
    case DoPublish(id, qos, data, now, ok) => PublishKeeps(s, id, qos, data, now, ok);
    case DoEnqueue(id, qos, data, now, store) =>
      if qos > 0 || store { AddKeeps(s, id, PUBLISH_TYPE, qos, data, now); }
    case DoTestConnected =>
    case DoSubscribe(id, msgType, data, now, ok) => SubscribeKeeps(s, id, msgType, data, now, ok);
    case DoReceiveAck(_) => ReceiveKeeps(s, a);
    case DoReceiveSubAck(_, _, _) => ReceiveKeeps(s, a);
    case DoReceivePubrec(_, _, _, _) => ReceiveKeeps(s, a);
    case DoExpire(_, _) => ReceiveKeeps(s, a);
    case DoSendQueued(_, _) => WorkerKeeps(s, a);
    case DoResend(_, _, _) => WorkerKeeps(s, a);
    case DoResendPubrel(_, _, _, _) => WorkerKeeps(s, a);
    case DoConnect(_) => WorkerKeeps(s, a);
    case DoAbort => AbortKeeps(s);
    case DoReconnect =>
    case DoStopRequest =>
    case DoWorkerExit => EmptyQueue(s.nextHandle);
    case DoStart =>
  }

  lemma CfgKept(s: State, a: Step)
    ensures Apply(s, a).cfg == s.cfg
  {
  }

  lemma EmptyQueue(next: nat)
    ensures Queue([], next)
  {
  }

  lemma {:induction false} RunFromBase(s: State, trace: seq<State>, steps: seq<Step>, t: nat)
    requires Base(s) && IsRun(s, trace, steps) && t < |trace|
    ensures Base(trace[t])
  {
    hide Base, Apply, Enabled;
    if t > 0 {
      RunFromBase(s, trace, steps, t - 1);
      assert Takes(trace, steps, t - 1);
      StepKeepsBase(trace[t - 1], steps[t - 1]);
    }
  }

  /** Every reachable state of a legal run. */
  lemma RunKeepsBase(cfg: Config, trace: seq<State>, steps: seq<Step>, t: nat)
    requires IsRun(Start0(cfg), trace, steps) && t < |trace|
    ensures Base(trace[t])
  {
    EmptyQueue(0);
    RunFromBase(Start0(cfg), trace, steps, t);
  }
}
