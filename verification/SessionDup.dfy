/** DUP and PUBREC over whole runs (sections 3.3.1.1 and 4.3.3 of MQTT 3.1.1): the first
    complete write of a PUBLISH above QoS 0 has DUP clear, every later one differs only
    in DUP, and after a PUBREC the PUBLISH is never written again. */
module SessionDup {
  import opened Bytes
  import opened Publish311
  import opened Outbox
  import opened Session
  import opened SessionBase

  // ---------------------------------------------------------------- reading the log

  /** The item as it was enqueued under this handle. */
  function Original(log: Log, h: nat): (x: Option<Item>) {
    match log
    case Empty => None
    case Snoc(past, e) => if e.Enqueued? && e.item.handle == h then Some(e.item) else Original(past, h)
  }

  /** The bytes of every complete write of the item, oldest first. */
  function Writes(log: Log, h: nat): (ws: seq<seq<Byte>>) {
    match log
    case Empty => []
    case Snoc(past, e) =>
      if e.Wrote? && e.item.handle == h then Writes(past, h) + [e.item.data] else Writes(past, h)
  }

  /** A PUBREC for the item has been processed. */
  predicate Received(log: Log, h: nat) {
    match log
    case Empty => false
    case Snoc(past, e) => (e.GotPubrec? && e.hit == Some(h)) || Received(past, h)
  }

  predicate ReceivedId(log: Log, id: nat) {
    match log
    case Empty => false
    case Snoc(past, e) => (e.GotPubrec? && e.id == id) || ReceivedId(past, id)
  }

  /** No write of an item follows a PUBREC for it, and every PUBREL answers a PUBREC. */
  predicate Settled(log: Log) {
    match log
    case Empty => true
    case Snoc(past, e) =>
      && Settled(past)
      && (e.Wrote? ==> !Received(past, e.item.handle))
      && (e.WrotePubrel? ==> ReceivedId(past, e.given) && (e.given != 0 ==> e.id == e.given))
  }

  /** The discipline for one handle. */
  predicate WritesOk(ws: seq<seq<Byte>>, x: Item) {
    if Counted(x) then forall k :: 0 <= k < |ws| ==> ws[k] == if k == 0 then x.data else SetDup(x.data)
    else if x.msgType == PUBLISH_TYPE then |ws| <= 1
    else true
  }

  ghost predicate HandleOk(log: Log, h: nat) {
    match Original(log, h)
    case None => Writes(log, h) == []
    case Some(x) =>
      (x.msgType == PUBLISH_TYPE ==> x.data != [] && DupOf(x.data[0]) == 0) && WritesOk(Writes(log, h), x)
  }

  /** What the outbox remembers of an item agrees with the log. */
  ghost predicate ItemOk(log: Log, x: Item) {
    && Original(log, x.handle).Some? && SameKey(x, Original(log, x.handle).value)
    && (Received(log, x.handle) ==> x.pending == Acknowledged)
    && (x.pending == Acknowledged ==> ReceivedId(log, x.id))
    && (x.id == 0 ==> Writes(log, x.handle) == [])
    && (Counted(x) ==>
          var o := Original(log, x.handle).value.data;
          && (x.data == o || x.data == SetDup(o))
          && (x.pending == Queued ==> x.data == if Writes(log, x.handle) == [] then o else SetDup(o))
          && (x.pending == Transmitted ==> Writes(log, x.handle) != []))
    && (x.pending == Transmitted ==> x.id != 0)
    && x.pending != Confirmed
  }

  ghost predicate AllOk(log: Log, items: seq<Item>) {
    forall i :: 0 <= i < |items| ==> ItemOk(log, items[i])
  }

  ghost predicate LogOk(log: Log, next: nat) {
    && (forall h :: HandleOk(log, h))
    && (forall h :: h >= next ==> Original(log, h) == None && !Received(log, h))
    && Settled(log)
  }

  ghost predicate DupInv(s: State) {
    Base(s) && AllOk(s.log, s.outbox) && LogOk(s.log, s.nextHandle)
  }

  // ---------------------------------------------------------------- entries that change nothing

  predicate Neutral(log: Log, e: Entry) {
    && !e.Enqueued? && !e.Wrote? && !e.GotPubrec?
    && (e.WrotePubrel? ==> ReceivedId(log, e.given) && (e.given != 0 ==> e.id == e.given))
  }

  lemma NeutralEntry(log: Log, e: Entry, items: seq<Item>, next: nat)
    requires Neutral(log, e) && AllOk(log, items) && LogOk(log, next)
    ensures AllOk(Snoc(log, e), items) && LogOk(Snoc(log, e), next)
  {
    var l := Snoc(log, e);
    forall i | 0 <= i < |items| ensures ItemOk(l, items[i]) {
      assert ItemOk(log, items[i]);
    }
    forall h ensures HandleOk(l, h) {
      assert HandleOk(log, h);
    }
    assert forall h :: Original(l, h) == Original(log, h) && Received(l, h) == Received(log, h);
  }

  lemma AllOkRemove(log: Log, items: seq<Item>, k: nat)
    requires AllOk(log, items) && k < |items|
    ensures AllOk(log, RemoveAt(items, k))
  {
    var r := RemoveAt(items, k);
    forall i | 0 <= i < |r| ensures ItemOk(log, r[i]) {
      assert r[i] == items[if i < k then i else i + 1];
    }
  }

  lemma AllOkWithout(log: Log, items: seq<Item>, next: nat, q: Query)
    requires AllOk(log, items) && Queue(items, next)
    ensures AllOk(log, Without(items, q))
  {
    var w := Without(items, q);
    QueueWithout(items, next, q);
    forall i | 0 <= i < |w| ensures ItemOk(log, w[i]) {
      assert w[i] in items;
    }
  }

  lemma AbortOk(s: State)
    requires DupInv(s) && s.running
    ensures DupInv(Abort(s))
  {
    hide AllOk, LogOk, Queue;
    AbortKeeps(s);
    var st, ut := ByType(SUBSCRIBE_TYPE), ByType(UNSUBSCRIBE_TYPE);
    var left := Without(s.outbox, st);
    if s.cfg.clean {
      var r := Without(left, ut);
      QueueWithout(s.outbox, s.nextHandle, st);
      AllOkWithout(s.log, s.outbox, s.nextHandle, st);
      AllOkWithout(s.log, left, s.nextHandle, ut);
      var e1, e2 := Swept(Hits(s.outbox, st), DroppedOnAbort), Swept(Hits(left, ut), DroppedOnAbort);
      NeutralEntry(s.log, e1, r, s.nextHandle);
      NeutralEntry(Snoc(s.log, e1), e2, r, s.nextHandle);
      NeutralEntry(Snoc(Snoc(s.log, e1), e2), DisconnectedEvent, r, s.nextHandle);
    } else {
      NeutralEntry(s.log, DisconnectedEvent, s.outbox, s.nextHandle);
    }
  }

  // ---------------------------------------------------------------- enqueue

  lemma AddOk(s: State, id: nat, msgType: nat, qos: nat, data: seq<Byte>, tick: int)
    requires DupInv(s) && Shape(Item(s.nextHandle, id, msgType, qos, tick, Queued, data))
    requires id == 0 || Unused(s, id)
    requires msgType == PUBLISH_TYPE ==> DupOf(data[0]) == 0
    ensures DupInv(Add(s, id, msgType, qos, data, tick))
  {
    var x := Item(s.nextHandle, id, msgType, qos, tick, Queued, data);
    var l := Snoc(s.log, Enqueued(x, s.epoch, Online(s)));
    var items := s.outbox + [x];
    AddKeeps(s, id, msgType, qos, data, tick);
    assert HandleOk(s.log, x.handle);
    forall h ensures HandleOk(l, h) {
      assert HandleOk(s.log, h);
    }
    forall i | 0 <= i < |items| ensures ItemOk(l, items[i]) {
      if i < |s.outbox| { assert ItemOk(s.log, s.outbox[i]); }
    }
    assert forall h :: Received(l, h) == Received(s.log, h);
    assert forall h :: h != x.handle ==> Original(l, h) == Original(s.log, h);
  }

  // ---------------------------------------------------------------- writes

  /** Writing `x` keeps the log in order when the bytes are the expected ones. */
  lemma WriteLogOk(log: Log, next: nat, x: Item, e: Entry)
    requires LogOk(log, next) && e.Wrote? && e.item == x
    requires !Received(log, x.handle) && Original(log, x.handle).Some?
    requires WritesOk(Writes(log, x.handle) + [x.data], Original(log, x.handle).value)
    ensures LogOk(Snoc(log, e), next)
  {
    var l := Snoc(log, e);
    forall h ensures HandleOk(l, h) {
      assert HandleOk(log, h);
    }
    assert forall h :: Original(l, h) == Original(log, h) && Received(l, h) == Received(log, h);
  }

  /** Items with other handles do not notice. */
  lemma OthersOk(log: Log, e: Entry, x: Item)
    requires ItemOk(log, x)
    requires e.Wrote? ==> e.item.handle != x.handle
    requires e.GotPubrec? ==> e.hit != Some(x.handle)
    requires e.Enqueued? ==> e.item.handle != x.handle
    ensures ItemOk(Snoc(log, e), x)
  {
  }

  /** The write of a queued item, and its new record. */
  lemma QueuedWriteOk(log: Log, next: nat, x: Item, e: Entry, now: int)
    requires LogOk(log, next) && ItemOk(log, x) && Shape(x) && x.pending == Queued && e.Wrote? && e.item == x
    ensures LogOk(Snoc(log, e), next)
    ensures x.id != 0 ==> ItemOk(Snoc(log, e), x.(tick := now, pending := Transmitted))
  {
    var ws := Writes(log, x.handle);
    assert HandleOk(log, x.handle);
    var o := Original(log, x.handle).value;
    assert WritesOk(ws + [x.data], o);
    WriteLogOk(log, next, x, e);
  }

  /** The timed write of a transmitted item. */
  lemma ResendWriteOk(log: Log, next: nat, x: Item, e: Entry)
    requires LogOk(log, next) && ItemOk(log, x) && Shape(x) && x.pending == Transmitted
    requires x.id != 0 && e.Wrote? && e.item == Dup(x)
    ensures LogOk(Snoc(log, e), next) && ItemOk(Snoc(log, e), Dup(x))
  {
    var ws := Writes(log, x.handle);
    assert HandleOk(log, x.handle);
    var o := Original(log, x.handle).value;
    SetDupIdempotent(o.data);
    assert WritesOk(ws + [Dup(x).data], o);
    WriteLogOk(log, next, Dup(x), e);
  }

  lemma AllOkUpdate(log: Log, e: Entry, items: seq<Item>, next: nat, k: nat, x: Item)
    requires AllOk(log, items) && Queue(items, next) && k < |items|
    requires e.Wrote? ==> e.item.handle == items[k].handle
    requires e.GotPubrec? ==> e.hit == Some(items[k].handle)
    requires !e.Enqueued? && ItemOk(Snoc(log, e), x)
    ensures AllOk(Snoc(log, e), items[k := x])
  {
    var u := items[k := x];
    forall i | 0 <= i < |u| ensures ItemOk(Snoc(log, e), u[i]) {
      if i != k {
        assert Ordered(items[if i < k then i else k], items[if i < k then k else i]);
        OthersOk(log, e, items[i]);
      }
    }
  }

  lemma AllOkDrop(log: Log, e: Entry, items: seq<Item>, next: nat, k: nat)
    requires AllOk(log, items) && Queue(items, next) && k < |items|
    requires e.Wrote? && e.item.handle == items[k].handle
    ensures AllOk(Snoc(log, e), RemoveAt(items, k))
  {
    var r := RemoveAt(items, k);
    forall i | 0 <= i < |r| ensures ItemOk(Snoc(log, e), r[i]) {
      var j := if i < k then i else i + 1;
      assert r[i] == items[j];
      assert Ordered(items[if j < k then j else k], items[if j < k then k else j]);
      OthersOk(log, e, items[j]);
    }
  }

  lemma AfterWriteOk(s: State, k: nat, now: int)
    requires DupInv(s) && k < |s.outbox| && s.outbox[k].pending == Queued
    ensures DupInv(AfterWrite(s, s.outbox[k], now))
  {
    hide LogOk;
    var x := s.outbox[k];
    var e := Wrote(x, s.epoch, false);
    AfterWriteKeeps(s, k, now);
    QueuedWriteOk(s.log, s.nextHandle, x, e, now);
    if x.id == 0 {
      FirstByHandle(s.outbox, s.nextHandle, k);
      AllOkDrop(s.log, e, s.outbox, s.nextHandle, k);
      NeutralEntry(Snoc(s.log, e), Left(x, SentQos0), RemoveAt(s.outbox, k), s.nextHandle);
    } else {
      MarkHits(s.outbox, s.nextHandle, k, now);
      AllOkUpdate(s.log, e, s.outbox, s.nextHandle, k, x.(tick := now, pending := Transmitted));
    }
  }

  // ---------------------------------------------------------------- steps

  lemma PublishOk(s: State, id: nat, qos: nat, data: seq<Byte>, now: int, ok: bool)
    requires DupInv(s) && FreshPublish(s, id, qos, data)
    ensures DupInv(Session.Publish(s, id, qos, data, now, ok))
  {
    hide Add, Abort, AfterWrite, AllOk, LogOk, Queue, DupOf;
    var s1 := if qos > 0 then Add(s, id, PUBLISH_TYPE, qos, data, now) else s;
    if qos > 0 {
      AddOk(s, id, PUBLISH_TYPE, qos, data, now);
      AddView(s, id, PUBLISH_TYPE, qos, data, now);
      AfterWriteOk(s1, |s1.outbox| - 1, now);
    } else {
      NeutralEntry(s.log, WroteDirect(data, s.epoch), s.outbox, s.nextHandle);
    }
    if s.phase == Connected { AbortOk(s1); }
  }

  lemma MarkLast(items: seq<Item>, next: nat, log: Log, id: nat)
    requires Queue(items, next) && AllOk(log, items) && items != []
    requires var x := items[|items| - 1]; x.id == id != 0 && x.pending == Queued && !Counted(x)
    ensures var r := SetPendingAt(items, id, Transmitted);
            && r == items[|items| - 1 := items[|items| - 1].(pending := Transmitted)]
            && AllOk(log, r) && Queue(r, next)
  {
    var k := |items| - 1;
    FirstById(items, next, k);
    QueueUpdate(items, next, k, items[k].(pending := Transmitted));
    var r := items[k := items[k].(pending := Transmitted)];
    forall i | 0 <= i < |r| ensures ItemOk(log, r[i]) {
      assert ItemOk(log, items[i]);
    }
  }

  lemma SubscribeOk(s: State, id: nat, msgType: nat, data: seq<Byte>, now: int, ok: bool)
    requires DupInv(s) && Unused(s, id) && (msgType == SUBSCRIBE_TYPE || msgType == UNSUBSCRIBE_TYPE)
    ensures DupInv(Subscribe(s, id, msgType, data, now, ok))
  {
    hide Add, LogOk, Queue, AllOk, SetPendingAt;
    AddOk(s, id, msgType, 0, data, now);
    AddView(s, id, msgType, 0, data, now);
    var s1 := Add(s, id, msgType, 0, data, now);
    MarkLast(s1.outbox, s1.nextHandle, s1.log, id);
    var s2 := s1.(outbox := SetPendingAt(s1.outbox, id, Transmitted), calls := Less(s1.calls));
    assert DupInv(s2);
    if ok {
      var k := |s2.outbox| - 1;
      RewriteOk(s2, k, Wrote(s2.outbox[k], s.epoch, false));
      assert s2.outbox[k := Dup(s2.outbox[k])] == s2.outbox;
    }
  }

  /** A transmitted item is written as it will stay in the outbox. */
  lemma RewriteOk(s: State, k: nat, e: Entry)
    requires DupInv(s) && k < |s.outbox| && s.outbox[k].pending == Transmitted
    requires e.Wrote? && e.item == Dup(s.outbox[k])
    ensures DupInv(Note(s.(outbox := s.outbox[k := Dup(s.outbox[k])]), e))
  {
    hide LogOk;
    var x := s.outbox[k];
    ResendWriteOk(s.log, s.nextHandle, x, e);
    AllOkUpdate(s.log, e, s.outbox, s.nextHandle, k, Dup(x));
    QueueUpdate(s.outbox, s.nextHandle, k, Dup(x));
  }

  lemma DupInPlace(s: State, k: nat)
    requires DupInv(s) && k < |s.outbox| && s.outbox[k].pending == Transmitted
    ensures DupInv(s.(outbox := s.outbox[k := Dup(s.outbox[k])]))
  {
    hide LogOk;
    var x := s.outbox[k];
    var r := s.outbox[k := Dup(x)];
    SetDupIdempotent(Original(s.log, x.handle).value.data);
    forall i | 0 <= i < |r| ensures ItemOk(s.log, r[i]) {
      assert ItemOk(s.log, s.outbox[i]);
    }
    QueueUpdate(s.outbox, s.nextHandle, k, Dup(x));
  }

  lemma ResendOk(s: State, now: int, timeout: int, ok: bool)
    requires DupInv(s)
    ensures DupInv(Resend(s, now, timeout, ok))
  {
    hide LogOk, AllOk, Queue, Abort, Dup, NextQueued;
    var k := First(s.outbox, ByPending(Transmitted));
    if s.phase == Connected && k < |s.outbox| {
      if ok {
        RewriteOk(s, k, Wrote(Dup(s.outbox[k]), s.epoch, true));
      } else {
        DupInPlace(s, k);
        AbortOk(s.(outbox := s.outbox[k := Dup(s.outbox[k])]));
      }
    }
  }

  lemma RemovalOk(s: State, k: nat, e: Entry)
    requires DupInv(s) && k < |s.outbox| && Neutral(s.log, e)
    ensures DupInv(Note(s.(outbox := RemoveAt(s.outbox, k)), e))
  {
    hide LogOk, AllOk, Queue;
    QueueRemove(s.outbox, s.nextHandle, k);
    AllOkRemove(s.log, s.outbox, k);
    NeutralEntry(s.log, e, RemoveAt(s.outbox, k), s.nextHandle);
  }

  lemma NoteOk(s: State, e: Entry)
    requires DupInv(s) && Neutral(s.log, e)
    ensures DupInv(Note(s, e))
  {
    hide LogOk, AllOk, Queue;
    NeutralEntry(s.log, e, s.outbox, s.nextHandle);
  }

  lemma PubrecEntry(log: Log, e: Entry, items: seq<Item>, next: nat)
    requires AllOk(log, items) && LogOk(log, next) && Queue(items, next) && e.GotPubrec?
    requires var k := First(items, ById(e.id)); e.hit == if k < |items| then Some(items[k].handle) else None
    ensures AllOk(Snoc(log, e), SetPendingAt(items, e.id, Acknowledged)) && LogOk(Snoc(log, e), next)
  {
    var l := Snoc(log, e);
    var k := First(items, ById(e.id));
    forall h ensures HandleOk(l, h) {
      assert HandleOk(log, h);
    }
    assert forall h :: Original(l, h) == Original(log, h);
    if k < |items| {
      var x := items[k].(pending := Acknowledged);
      assert ItemOk(log, items[k]) && ItemOk(l, x);
      AllOkUpdate(log, e, items, next, k, x);
    } else {
      forall i | 0 <= i < |items| ensures ItemOk(l, items[i]) {
        OthersOk(log, e, items[i]);
      }
    }
  }

  lemma PubrecOk(s: State, id: nat, error: bool, newId: nat, ok: bool)
    requires DupInv(s)
    ensures DupInv(ReceivePubrec(s, id, error, newId, ok))
  {
    hide LogOk, AllOk, Queue;
    var k := First(s.outbox, ById(id));
    var e := GotPubrec(id, error, if k < |s.outbox| then Some(s.outbox[k].handle) else None);
    MarkKeeps(s.outbox, s.nextHandle, id, Acknowledged);
    PubrecEntry(s.log, e, s.outbox, s.nextHandle);
    var s1 := Note(s.(outbox := SetPendingAt(s.outbox, id, Acknowledged)), e);
    assert DupInv(s1);
    if ok { NoteOk(s1, WrotePubrel(if id == 0 then newId else id, id, s.epoch)); }
  }

  lemma PubrelOk(s: State, now: int, timeout: int, newId: nat, ok: bool)
    requires DupInv(s)
    ensures DupInv(ResendPubrel(s, now, timeout, newId, ok))
  {
    hide LogOk, Queue, Abort;
    var k := First(s.outbox, ByPending(Acknowledged));
    if s.phase == Connected && k < |s.outbox| {
      var id := s.outbox[k].id;
      assert ItemOk(s.log, s.outbox[k]);
      NoteOk(s, WrotePubrel(if id == 0 then newId else id, id, s.epoch));
      AbortOk(s);
    }
  }

  lemma RequeueOk(log: Log, items: seq<Item>)
    requires AllOk(log, items)
    ensures AllOk(log, RequeueAll(items))
  {
    var r := RequeueAll(items);
    forall i | 0 <= i < |r| ensures ItemOk(log, r[i]) {
      assert ItemOk(log, items[i]);
      SetDupIdempotent(Original(log, items[i].handle).value.data);
    }
  }

  lemma ConnectOk(s: State, recvMax: nat)
    requires DupInv(s)
    ensures DupInv(Connect(s, recvMax))
  {
    hide LogOk, AllOk, Queue;
    if s.phase == Init && s.running {
      QueueRequeue(s.outbox, s.nextHandle);
      RequeueOk(s.log, s.outbox);
      var s1 := s.(outbox := if s.cfg.v5 then RequeueAll(s.outbox) else s.outbox);
      NeutralEntry(s1.log, Accepted(s.epoch + 1, recvMax), s1.outbox, s1.nextHandle);
    }
  }

  lemma ReceiveOk(s: State, a: Step)
    requires DupInv(s) && Enabled(s, a)
    requires a.DoReceiveAck? || a.DoReceiveSubAck? || a.DoExpire?
    ensures DupInv(Apply(s, a))
  {
    hide LogOk, AllOk, Queue, Abort;
    match a
    case DoReceiveAck(id) =>
      var k := First(s.outbox, ByMessage(id, PUBLISH_TYPE));
      var s1 := Note(s, GotAck(id, k < |s.outbox|));
      NoteOk(s, s1.log.last);
      if k < |s.outbox| {
        RemovalOk(s1, k, Left(s.outbox[k], Acked));
        var s2 := Note(s1.(outbox := RemoveAt(s.outbox, k)), Left(s.outbox[k], Acked));
        NoteOk(s2, PublishedEvent(id));
      }
    case DoReceiveSubAck(id, msgType, ok) =>
      var k := First(s.outbox, ByMessage(id, msgType));
      if k < |s.outbox| {
        RemovalOk(s, k, Left(s.outbox[k], SubAcked));
        var s1 := Note(s.(outbox := RemoveAt(s.outbox, k)), Left(s.outbox[k], SubAcked));
        NoteOk(s1, SubAckEvent(id));
        AbortOk(s1);
      }
    case DoExpire(now, timeout) =>
      var k := First(s.outbox, ByExpiry(now, timeout));
      if k < |s.outbox| {
        RemovalOk(s, k, Left(s.outbox[k], Expired));
        NoteOk(Note(s.(outbox := RemoveAt(s.outbox, k)), Left(s.outbox[k], Expired)), DeletedEvent(s.outbox[k].id));
      }
  }

  lemma SendOk(s: State, now: int, ok: bool)
    requires DupInv(s)
    ensures DupInv(SendQueued(s, now, ok))
  {
    hide LogOk, AllOk, Queue, Abort, AfterWrite;
    var k := NextQueued(s);
    if s.phase == Connected && k < |s.outbox| {
      AbortOk(s);
      AfterWriteOk(s, k, now);
    }
  }

  lemma ExitOk(s: State)
    requires DupInv(s)
    ensures DupInv(WorkerExit(s))
  {
    hide LogOk;
    EmptyQueue(s.nextHandle);
    if s.running { NeutralEntry(s.log, Swept(s.outbox, DiscardedOnStop), [], s.nextHandle); }
  }

  lemma StepKeepsDup(s: State, a: Step)
    requires DupInv(s) && Enabled(s, a)
    ensures DupInv(Apply(s, a))
  {
    hide LogOk, AllOk, Queue, Session.Publish, Subscribe, ReceiveAck, ReceiveSubAck, ReceivePubrec, SendQueued,
        Resend, ResendPubrel, Expire, Connect, Abort, WorkerExit, Add;
    match a
    case DoPublish(id, qos, data, now, ok) => PublishOk(s, id, qos, data, now, ok);
    case DoEnqueue(id, qos, data, now, store) =>
      if qos > 0 || store { AddOk(s, id, PUBLISH_TYPE, qos, data, now); }
    case DoTestConnected =>
    case DoSubscribe(id, msgType, data, now, ok) => SubscribeOk(s, id, msgType, data, now, ok);
    case DoReceiveAck(_) => ReceiveOk(s, a);
    case DoReceiveSubAck(_, _, _) => ReceiveOk(s, a);
    case DoReceivePubrec(id, error, newId, ok) => PubrecOk(s, id, error, newId, ok);
    case DoExpire(_, _) => ReceiveOk(s, a);
    case DoSendQueued(now, ok) => SendOk(s, now, ok);
    case DoResend(now, timeout, ok) => ResendOk(s, now, timeout, ok);
    case DoResendPubrel(now, timeout, newId, ok) => PubrelOk(s, now, timeout, newId, ok);
    case DoConnect(recvMax) => ConnectOk(s, recvMax);
    case DoAbort => AbortOk(s);
    case DoReconnect =>
    case DoStopRequest =>
    case DoWorkerExit => ExitOk(s);
    case DoStart =>
  }

  lemma {:induction false} RunKeepsDup(cfg: Config, trace: seq<State>, steps: seq<Step>, t: nat)
    requires IsRun(Start0(cfg), trace, steps) && t < |trace|
    ensures DupInv(trace[t])
  {
    if t > 0 {
      RunKeepsDup(cfg, trace, steps, t - 1);
      assert Takes(trace, steps, t - 1);
      StepKeepsDup(trace[t - 1], steps[t - 1]);
    }
  }

  // ---------------------------------------------------------------- the claims

  /** Over every legal run, with any number of reconnects, the complete writes of one
      PUBLISH above QoS 0 are: first the packet as composed, DUP clear, then that packet
      with only DUP set. A QoS 0 publish from the outbox is written at most once. */
  lemma DupDiscipline(cfg: Config, trace: seq<State>, steps: seq<Step>, t: nat, h: nat)
    requires IsRun(Start0(cfg), trace, steps) && t < |trace|
    ensures var log := trace[t].log;
            match Original(log, h)
            case None => Writes(log, h) == []
            case Some(x) =>
              && (Counted(x) ==> x.data != [] && DupOf(x.data[0]) == 0)
              && (Counted(x) && Writes(log, h) != [] ==> Writes(log, h)[0] == x.data)
              && (Counted(x) ==> forall k :: 0 < k < |Writes(log, h)| ==>
                   Writes(log, h)[k] == x.data[0 := SetDupBit(x.data[0])])
              && (x.msgType == PUBLISH_TYPE && x.qos == 0 ==> |Writes(log, h)| <= 1)
  {
    RunKeepsDup(cfg, trace, steps, t);
    var log := trace[t].log;
    assert HandleOk(log, h);
  }

  lemma {:induction false} SettledAt(log: Log, i: nat, j: nat)
    requires Settled(log) && i < j < Length(log)
    requires At(log, i).GotPubrec? && At(log, i).hit.Some?
    ensures At(log, j).Wrote? ==> At(log, j).item.handle != At(log, i).hit.value
  {
    if j == Length(log) - 1 {
      ReceivedAt(log.past, i);
    } else {
      SettledAt(log.past, i, j);
    }
  }

  lemma {:induction false} ReceivedAt(log: Log, i: nat)
    requires i < Length(log) && At(log, i).GotPubrec? && At(log, i).hit.Some?
    ensures Received(log, At(log, i).hit.value)
  {
    if i < Length(log) - 1 { ReceivedAt(log.past, i); }
  }

  lemma {:induction false} ReceivedIdHas(log: Log, id: nat)
    requires ReceivedId(log, id)
    ensures exists i: nat :: i < Length(log) && At(log, i).GotPubrec? && At(log, i).id == id
  {
    if log.last.GotPubrec? && log.last.id == id {
      assert At(log, Length(log) - 1) == log.last;
    } else {
      ReceivedIdHas(log.past, id);
      var i: nat :| i < Length(log.past) && At(log.past, i).GotPubrec? && At(log.past, i).id == id;
      assert At(log, i) == At(log.past, i);
    }
  }

  /** After the PUBREC at position `i`, the item it was for is never written again. */
  lemma NoPublishAfterPubrec(cfg: Config, trace: seq<State>, steps: seq<Step>, t: nat, i: nat, j: nat)
    requires IsRun(Start0(cfg), trace, steps) && t < |trace|
    requires i < j < Length(trace[t].log)
    requires At(trace[t].log, i).GotPubrec? && At(trace[t].log, i).hit.Some?
    ensures var log := trace[t].log;
            At(log, j).Wrote? ==> At(log, j).item.handle != At(log, i).hit.value
  {
    RunKeepsDup(cfg, trace, steps, t);
    SettledAt(trace[t].log, i, j);
  }

  lemma {:induction false} PubrelAt(log: Log, j: nat)
    requires Settled(log) && j < Length(log) && At(log, j).WrotePubrel?
    ensures At(log, j).given != 0 ==> At(log, j).id == At(log, j).given
    ensures exists i: nat :: i < j && At(log, i).GotPubrec? && At(log, i).id == At(log, j).given
  {
    if j == Length(log) - 1 {
      var g := log.last.given;
      ReceivedIdHas(log.past, g);
      var i: nat :| i < Length(log.past) && At(log.past, i).GotPubrec? && At(log.past, i).id == g;
      assert At(log, i) == At(log.past, i);
    } else {
      PubrelAt(log.past, j);
      var i: nat :| i < j && At(log.past, i).GotPubrec? && At(log.past, i).id == At(log.past, j).given;
      assert At(log, i) == At(log.past, i);
    }
  }

  /** Every PUBREL, first or repeated, carries the id of a PUBREC received before it. */
  lemma PubrelAnswersPubrec(cfg: Config, trace: seq<State>, steps: seq<Step>, t: nat, j: nat)
    requires IsRun(Start0(cfg), trace, steps) && t < |trace|
    requires j < Length(trace[t].log) && At(trace[t].log, j).WrotePubrel?
    ensures var log := trace[t].log;
            && (At(log, j).given != 0 ==> At(log, j).id == At(log, j).given)
            && exists i: nat :: i < j && At(log, i).GotPubrec? && At(log, i).id == At(log, j).given
  {
    RunKeepsDup(cfg, trace, steps, t);
    PubrelAt(trace[t].log, j);
  }
}
