/** Conservation over whole runs: every stored item is present once or has left once, by
    one cause; PUBLISHED events report exactly the acknowledged items and DELETED events
    exactly the expired ones, in order; a repeated acknowledgement reports nothing. */
module SessionLedger {
  import opened Bytes
  import opened Outbox
  import opened Session
  import opened SessionBase

  // ---------------------------------------------------------------- reading the log

  /** A choice of items by what never changes about them. */
  datatype Choice = Choice(msgType: Option<nat>, handle: Option<nat>, id: Option<nat>)

  const ANY := Choice(None, None, None)

  function OfHandle(h: nat): (c: Choice) { Choice(None, Some(h), None) }

  predicate Fits(o: Option<nat>, n: nat) {
    o == None || o.value == n
  }

  function One(x: Item, c: Choice): (n: nat) {
    if Fits(c.msgType, x.msgType) && Fits(c.handle, x.handle) && Fits(c.id, x.id) then 1 else 0
  }

  /** How many of the items are chosen. */
  function Present(items: seq<Item>, c: Choice): (n: nat) {
    if items == [] then 0
    else Present(items[..|items| - 1], c) + One(items[|items| - 1], c)
  }

  /** Chosen items ever stored. */
  function Stored(log: Log, c: Choice): (n: nat) {
    match log
    case Empty => 0
    case Snoc(past, e) => Stored(past, c) + if e.Enqueued? then One(e.item, c) else 0
  }

  /** Chosen items that left by this cause. */
  function GoneBy(log: Log, why: Cause, c: Choice): (n: nat) {
    match log
    case Empty => 0
    case Snoc(past, e) =>
      GoneBy(past, why, c) +
      if e.Left? && e.cause == why then One(e.item, c)
      else if e.Swept? && e.cause == why then Present(e.items, c)
      else 0
  }

  /** By any cause. */
  function Gone(log: Log, c: Choice): (n: nat) {
    GoneBy(log, Acked, c) + GoneBy(log, SubAcked, c) + GoneBy(log, Expired, c) +
    GoneBy(log, SentQos0, c) + GoneBy(log, DroppedOnAbort, c) + GoneBy(log, DiscardedOnStop, c)
  }

  function PublishedIds(log: Log): (ids: seq<nat>) {
    match log
    case Empty => []
    case Snoc(past, e) => if e.PublishedEvent? then PublishedIds(past) + [e.id] else PublishedIds(past)
  }

  function DeletedIds(log: Log): (ids: seq<nat>) {
    match log
    case Empty => []
    case Snoc(past, e) => if e.DeletedEvent? then DeletedIds(past) + [e.id] else DeletedIds(past)
  }

  /** Ids of the items that left one at a time by this cause, in order. */
  function LeftIds(log: Log, c: Cause): (ids: seq<nat>) {
    match log
    case Empty => []
    case Snoc(past, e) => if e.Left? && e.cause == c then LeftIds(past, c) + [e.item.id] else LeftIds(past, c)
  }

  predicate CauseFits(cfg: Config, x: Item, c: Cause) {
    match c
    case Acked => x.msgType == PUBLISH_TYPE
    case SubAcked => x.msgType != PUBLISH_TYPE
    case SentQos0 => x.msgType == PUBLISH_TYPE && x.qos == 0
    case DroppedOnAbort => cfg.clean && x.msgType != PUBLISH_TYPE
    case Expired => true
    case DiscardedOnStop => true
  }

  ghost predicate CausesOk(cfg: Config, log: Log) {
    match log
    case Empty => true
    case Snoc(past, e) =>
      && CausesOk(cfg, past)
      && (e.Left? ==> CauseFits(cfg, e.item, e.cause) && e.cause != DroppedOnAbort)
      && (e.Swept? ==>
            && e.cause in {DroppedOnAbort, DiscardedOnStop}
            && forall x :: x in e.items ==> CauseFits(cfg, x, e.cause))
  }

  ghost predicate Even(log: Log, items: seq<Item>) {
    forall c :: Stored(log, c) == Present(items, c) + Gone(log, c)
  }

  ghost predicate Once(log: Log, next: nat) {
    forall h: nat :: Stored(log, OfHandle(h)) == if h < next then 1 else 0
  }

  /** Events report what left. */
  predicate Reported(log: Log) {
    PublishedIds(log) == LeftIds(log, Acked) && DeletedIds(log) == LeftIds(log, Expired)
  }

  ghost predicate Tally(cfg: Config, log: Log, items: seq<Item>, next: nat) {
    && Even(log, items)
    && Once(log, next) && CausesOk(cfg, log) && Reported(log)
  }

  ghost predicate LedgerInv(s: State) {
    Base(s) && Tally(s.cfg, s.log, s.outbox, s.nextHandle)
  }

  // ---------------------------------------------------------------- counting in a queue

  lemma PresentSnoc(a: seq<Item>, x: Item, c: Choice)
    ensures Present(a + [x], c) == Present(a, c) + One(x, c)
  {
    assert (a + [x])[..|a|] == a;
  }

  lemma {:induction false} PresentConcat(a: seq<Item>, b: seq<Item>, c: Choice)
    ensures Present(a + b, c) == Present(a, c) + Present(b, c)
  {
    if b == [] {
      assert a + b == a;
    } else {
      var n := |b| - 1;
      assert (a + b)[..|a + b| - 1] == a + b[..n];
      PresentConcat(a, b[..n], c);
    }
  }

  lemma PresentRemove(items: seq<Item>, k: nat, c: Choice)
    requires k < |items|
    ensures Present(items, c) == Present(RemoveAt(items, k), c) + One(items[k], c)
  {
    var a, b := items[..k], items[k + 1..];
    assert items == (a + [items[k]]) + b;
    PresentConcat(a + [items[k]], b, c);
    PresentSnoc(a, items[k], c);
    PresentConcat(a, b, c);
  }

  lemma {:induction false} PresentSplit(items: seq<Item>, q: Query, c: Choice)
    ensures Present(items, c) == Present(Without(items, q), c) + Present(Hits(items, q), c)
  {
    if items != [] {
      var n := |items| - 1;
      var w, t, x := Without(items[..n], q), Hits(items[..n], q), items[n];
      PresentSplit(items[..n], q, c);
      assert Without(items, q) == w + if Hit(q, x) then [] else [x];
      assert Hits(items, q) == t + if Hit(q, x) then [x] else [];
      assert Present(items, c) == Present(items[..n], c) + One(x, c);
      hide Present, One, Without, Hits, Hit;
      PresentSnoc(w, x, c);
      PresentSnoc(t, x, c);
      assert w + [] == w && t + [] == t;
    }
  }

  lemma {:induction false} PresentSame(a: seq<Item>, b: seq<Item>, c: Choice)
    requires |a| == |b| && forall i :: 0 <= i < |a| ==> SameKey(a[i], b[i])
    ensures Present(a, c) == Present(b, c)
  {
    if a != [] {
      var n := |a| - 1;
      PresentSame(a[..n], b[..n], c);
      assert SameKey(a[n], b[n]);
    }
  }

  lemma {:induction false} HitsAre(items: seq<Item>, q: Query)
    ensures forall x :: x in Hits(items, q) ==> x in items && Hit(q, x)
  {
    if items != [] {
      HitsAre(items[..|items| - 1], q);
    }
  }

  // ---------------------------------------------------------------- log entries

  predicate Quiet(e: Entry) {
    !e.Enqueued? && !e.Left? && !e.Swept? && !e.PublishedEvent? && !e.DeletedEvent?
  }

  lemma TallyQuiet(cfg: Config, log: Log, items: seq<Item>, next: nat, e: Entry)
    requires Tally(cfg, log, items, next) && Quiet(e)
    ensures Tally(cfg, Snoc(log, e), items, next)
  {
    hide Present;
    assert forall c, why :: GoneBy(Snoc(log, e), why, c) == GoneBy(log, why, c);
    assert forall c :: Stored(Snoc(log, e), c) == Stored(log, c);
  }

  lemma TallySameKeys(cfg: Config, log: Log, a: seq<Item>, b: seq<Item>, next: nat)
    requires Tally(cfg, log, a, next)
    requires |a| == |b| && forall i :: 0 <= i < |a| ==> SameKey(a[i], b[i])
    ensures Tally(cfg, log, b, next)
  {
    hide Once, CausesOk, Reported, Gone;
    forall c ensures Stored(log, c) == Present(b, c) + Gone(log, c) {
      PresentSame(a, b, c);
    }
  }

  lemma TallyAppend(cfg: Config, log: Log, items: seq<Item>, x: Item, epoch: nat, online: bool)
    requires Tally(cfg, log, items, x.handle)
    ensures Tally(cfg, Snoc(log, Enqueued(x, epoch, online)), items + [x], x.handle + 1)
  {
    hide Present, One;
    var l := Snoc(log, Enqueued(x, epoch, online));
    forall c ensures Stored(l, c) == Present(items + [x], c) + Gone(l, c) {
      PresentSnoc(items, x, c);
      assert Stored(log, c) == Present(items, c) + Gone(log, c);
    }
    forall h: nat ensures Stored(l, OfHandle(h)) == if h < x.handle + 1 then 1 else 0 {
      OneHandle(x, h);
      assert Stored(log, OfHandle(h)) == if h < x.handle then 1 else 0;
    }
  }

  lemma OneHandle(x: Item, h: nat)
    ensures One(x, OfHandle(h)) == if x.handle == h then 1 else 0
  {
  }

  /** The event that goes with a cause, if any. */
  function Report(x: Item, why: Cause): (e: Option<Entry>) {
    match why
    case Acked => Some(PublishedEvent(x.id))
    case Expired => Some(DeletedEvent(x.id))
    case _ => None
  }

  function Leave(log: Log, x: Item, why: Cause): (l: Log) {
    var l := Snoc(log, Left(x, why));
    match Report(x, why)
    case None => l
    case Some(e) => Snoc(l, e)
  }

  lemma LeaveView(log: Log, x: Item, why: Cause, c: Choice)
    ensures var l := Leave(log, x, why);
            Stored(l, c) == Stored(log, c) && Gone(l, c) == Gone(log, c) + One(x, c)
  {
    hide One, Present;
    var l := Snoc(log, Left(x, why));
    assert Stored(l, c) == Stored(log, c) && Gone(l, c) == Gone(log, c) + One(x, c);
  }

  lemma LeaveReported(cfg: Config, log: Log, x: Item, why: Cause)
    requires Reported(log) && CausesOk(cfg, log) && CauseFits(cfg, x, why) && why != DroppedOnAbort
    ensures Reported(Leave(log, x, why)) && CausesOk(cfg, Leave(log, x, why))
  {
    var m := Snoc(log, Left(x, why));
    assert CausesOk(cfg, m);
    assert PublishedIds(m) == PublishedIds(log) && DeletedIds(m) == DeletedIds(log);
    assert LeftIds(m, Acked) == if why == Acked then LeftIds(log, Acked) + [x.id] else LeftIds(log, Acked);
    assert LeftIds(m, Expired) == if why == Expired then LeftIds(log, Expired) + [x.id] else LeftIds(log, Expired);
  }

  lemma TallyLeave(cfg: Config, log: Log, items: seq<Item>, next: nat, k: nat, why: Cause)
    requires Tally(cfg, log, items, next) && k < |items|
    requires CauseFits(cfg, items[k], why) && why != DroppedOnAbort
    ensures Tally(cfg, Leave(log, items[k], why), RemoveAt(items, k), next)
  {
    var l, r := Leave(log, items[k], why), RemoveAt(items, k);
    LeaveReported(cfg, log, items[k], why);
    hide Present, RemoveAt, Leave, Stored, Gone, CausesOk, Reported, One;
    forall c ensures Stored(l, c) == Present(r, c) + Gone(l, c) && Stored(l, c) == Stored(log, c) {
      LeaveView(log, items[k], why, c);
      PresentRemove(items, k, c);
    }
  }

  lemma SweepView(log: Log, items: seq<Item>, why: Cause, c: Choice)
    ensures var l := Snoc(log, Swept(items, why));
            Stored(l, c) == Stored(log, c) && Gone(l, c) == Gone(log, c) + Present(items, c)
  {
    hide Present, One;
  }

  lemma TallySweep(cfg: Config, log: Log, items: seq<Item>, next: nat, q: Query, why: Cause)
    requires Tally(cfg, log, items, next) && why in {DroppedOnAbort, DiscardedOnStop}
    requires forall x :: x in items && Hit(q, x) ==> CauseFits(cfg, x, why)
    ensures Tally(cfg, Snoc(log, Swept(Hits(items, q), why)), Without(items, q), next)
  {
    var l, r := Snoc(log, Swept(Hits(items, q), why)), Without(items, q);
    HitsAre(items, q);
    assert CausesOk(cfg, l) && Reported(l);
    hide Present, Stored, Gone, CausesOk, Reported, One, Hits, Without;
    forall c ensures Stored(l, c) == Present(r, c) + Gone(l, c) && Stored(l, c) == Stored(log, c) {
      SweepView(log, Hits(items, q), why, c);
      PresentSplit(items, q, c);
    }
  }

  // ---------------------------------------------------------------- steps

  lemma AbortTally(s: State)
    requires LedgerInv(s) && s.running
    ensures LedgerInv(Abort(s))
  {
    hide Tally;
    AbortKeeps(s);
    var st, ut := ByType(SUBSCRIBE_TYPE), ByType(UNSUBSCRIBE_TYPE);
    var left := Without(s.outbox, st);
    if s.cfg.clean {
      TallySweep(s.cfg, s.log, s.outbox, s.nextHandle, st, DroppedOnAbort);
      var l1 := Snoc(s.log, Swept(Hits(s.outbox, st), DroppedOnAbort));
      TallySweep(s.cfg, l1, left, s.nextHandle, ut, DroppedOnAbort);
      TallyQuiet(s.cfg, Snoc(l1, Swept(Hits(left, ut), DroppedOnAbort)), Without(left, ut), s.nextHandle,
          DisconnectedEvent);
    } else {
      TallyQuiet(s.cfg, s.log, s.outbox, s.nextHandle, DisconnectedEvent);
    }
  }

  lemma AddTally(s: State, id: nat, msgType: nat, qos: nat, data: seq<Byte>, tick: int)
    requires LedgerInv(s) && Shape(Item(s.nextHandle, id, msgType, qos, tick, Queued, data))
    requires id == 0 || Unused(s, id)
    ensures LedgerInv(Add(s, id, msgType, qos, data, tick))
  {
    hide Tally;
    AddKeeps(s, id, msgType, qos, data, tick);
    TallyAppend(s.cfg, s.log, s.outbox, Item(s.nextHandle, id, msgType, qos, tick, Queued, data), s.epoch, Online(s));
  }

  lemma SetKeys(items: seq<Item>, id: nat, tick: int, p: Pending)
    ensures forall i :: 0 <= i < |items| ==> SameKey(items[i], SetPendingAt(items, id, p)[i])
    ensures forall i :: 0 <= i < |items| ==> SameKey(items[i], SetTickAt(items, id, tick)[i])
  {
  }

  lemma MarkTally(s: State, id: nat, tick: int, p: Pending)
    requires Tally(s.cfg, s.log, s.outbox, s.nextHandle)
    ensures Tally(s.cfg, s.log, SetPendingAt(s.outbox, id, p), s.nextHandle)
    ensures Tally(s.cfg, s.log, SetPendingAt(SetTickAt(s.outbox, id, tick), id, p), s.nextHandle)
  {
    hide Tally, SetPendingAt, SetTickAt;
    var t := SetTickAt(s.outbox, id, tick);
    SetKeys(s.outbox, id, tick, p);
    SetKeys(t, id, tick, p);
    TallySameKeys(s.cfg, s.log, s.outbox, SetPendingAt(s.outbox, id, p), s.nextHandle);
    TallySameKeys(s.cfg, s.log, s.outbox, t, s.nextHandle);
    TallySameKeys(s.cfg, s.log, t, SetPendingAt(t, id, p), s.nextHandle);
  }

  lemma AfterWriteTally(s: State, k: nat, now: int)
    requires LedgerInv(s) && k < |s.outbox|
    ensures LedgerInv(AfterWrite(s, s.outbox[k], now))
  {
    hide Tally, SetPendingAt, SetTickAt, RemoveAt;
    var x := s.outbox[k];
    var s1 := Note(s, Wrote(x, s.epoch, false));
    AfterWriteKeeps(s, k, now);
    TallyQuiet(s.cfg, s.log, s.outbox, s.nextHandle, s1.log.last);
    if x.id == 0 {
      FirstByHandle(s.outbox, s.nextHandle, k);
      TallyLeave(s.cfg, s1.log, s.outbox, s.nextHandle, k, SentQos0);
    } else {
      MarkTally(s1, x.id, now, Transmitted);
    }
  }

  lemma PublishTally(s: State, id: nat, qos: nat, data: seq<Byte>, now: int, ok: bool)
    requires LedgerInv(s) && FreshPublish(s, id, qos, data)
    ensures LedgerInv(Publish(s, id, qos, data, now, ok))
  {
    hide Tally, Queue, Add, Abort, AfterWrite;
    var s1 := if qos > 0 then Add(s, id, PUBLISH_TYPE, qos, data, now) else s;
    if qos > 0 {
      AddTally(s, id, PUBLISH_TYPE, qos, data, now);
      AddView(s, id, PUBLISH_TYPE, qos, data, now);
      AfterWriteTally(s1, |s1.outbox| - 1, now);
    } else {
      TallyQuiet(s.cfg, s.log, s.outbox, s.nextHandle, WroteDirect(data, s.epoch));
    }
    if s.phase == Connected { AbortTally(s1); }
  }

  lemma SubscribeTally(s: State, id: nat, msgType: nat, data: seq<Byte>, now: int, ok: bool)
    requires LedgerInv(s) && Unused(s, id) && (msgType == SUBSCRIBE_TYPE || msgType == UNSUBSCRIBE_TYPE)
    ensures LedgerInv(Subscribe(s, id, msgType, data, now, ok))
  {
    hide Tally, SetPendingAt;
    SubscribeKeeps(s, id, msgType, data, now, ok);
    AddTally(s, id, msgType, 0, data, now);
    var s1 := Add(s, id, msgType, 0, data, now);
    MarkTally(s1, id, now, Transmitted);
    var r := SetPendingAt(s1.outbox, id, Transmitted);
    TallyQuiet(s.cfg, s1.log, r, s1.nextHandle, Wrote(r[|r| - 1], s.epoch, false));
  }

  lemma ReceiveTally(s: State, a: Step)
    requires LedgerInv(s) && Enabled(s, a)
    requires a.DoReceiveAck? || a.DoReceiveSubAck? || a.DoReceivePubrec? || a.DoExpire?
    ensures LedgerInv(Apply(s, a))
  {
    hide Tally, SetPendingAt, RemoveAt, Abort, Queue;
    ReceiveKeeps(s, a);
    match a
    case DoReceiveAck(id) =>
      var k := First(s.outbox, ByMessage(id, PUBLISH_TYPE));
      var e := GotAck(id, k < |s.outbox|);
      TallyQuiet(s.cfg, s.log, s.outbox, s.nextHandle, e);
      if k < |s.outbox| {
        ShapeAt(s, k);
        TallyLeave(s.cfg, Snoc(s.log, e), s.outbox, s.nextHandle, k, Acked);
      }
    case DoReceiveSubAck(id, msgType, ok) =>
      var k := First(s.outbox, ByMessage(id, msgType));
      if k < |s.outbox| {
        ShapeAt(s, k);
        TallyLeave(s.cfg, s.log, s.outbox, s.nextHandle, k, SubAcked);
        var s1 := Note(s.(outbox := RemoveAt(s.outbox, k)), Left(s.outbox[k], SubAcked));
        RemovalKeeps(s, k, s1);
        if ok { TallyQuiet(s.cfg, s1.log, s1.outbox, s1.nextHandle, SubAckEvent(id)); } else { AbortTally(s1); }
      }
    case DoReceivePubrec(id, error, newId, ok) =>
      var k := First(s.outbox, ById(id));
      var e := GotPubrec(id, error, if k < |s.outbox| then Some(s.outbox[k].handle) else None);
      var r := SetPendingAt(s.outbox, id, Acknowledged);
      MarkTally(s, id, 0, Acknowledged);
      TallyQuiet(s.cfg, s.log, r, s.nextHandle, e);
      TallyQuiet(s.cfg, Snoc(s.log, e), r, s.nextHandle, WrotePubrel(if id == 0 then newId else id, id, s.epoch));
    case DoExpire(now, timeout) =>
      var k := First(s.outbox, ByExpiry(now, timeout));
      if k < |s.outbox| { TallyLeave(s.cfg, s.log, s.outbox, s.nextHandle, k, Expired); }
  }

  lemma ShapeAt(s: State, k: nat)
    requires Base(s) && k < |s.outbox|
    ensures Shape(s.outbox[k])
  {
  }

  lemma WorkerTally(s: State, a: Step)
    requires LedgerInv(s) && Enabled(s, a)
    requires a.DoSendQueued? || a.DoResend? || a.DoResendPubrel? || a.DoConnect?
    ensures LedgerInv(Apply(s, a))
  {
    hide Tally, Queue, Abort, AfterWrite, NextQueued;
    WorkerKeeps(s, a);
    if s.phase == Connected { AbortTally(s); }
    match a
    case DoSendQueued(now, ok) =>
      var k := NextQueued(s);
      if s.phase == Connected && k < |s.outbox| { AfterWriteTally(s, k, now); }
    case DoResend(now, timeout, ok) =>
      var k := First(s.outbox, ByPending(Transmitted));
      if s.phase == Connected && k < |s.outbox| {
        var s1 := s.(outbox := s.outbox[k := Dup(s.outbox[k])]);
        TallySameKeys(s.cfg, s.log, s.outbox, s1.outbox, s.nextHandle);
        QueueUpdate(s.outbox, s.nextHandle, k, Dup(s.outbox[k]));
        TallyQuiet(s.cfg, s1.log, s1.outbox, s1.nextHandle, Wrote(s1.outbox[k], s.epoch, true));
        AbortTally(s1);
      }
    case DoResendPubrel(now, timeout, newId, ok) =>
      var k := First(s.outbox, ByPending(Acknowledged));
      if k < |s.outbox| {
        var id := s.outbox[k].id;
        TallyQuiet(s.cfg, s.log, s.outbox, s.nextHandle, WrotePubrel(if id == 0 then newId else id, id, s.epoch));
      }
    case DoConnect(recvMax) =>
      var e := Accepted(s.epoch + 1, recvMax);
      TallyQuiet(s.cfg, s.log, s.outbox, s.nextHandle, e);
      TallySameKeys(s.cfg, Snoc(s.log, e), s.outbox, RequeueAll(s.outbox), s.nextHandle);
  }

  lemma {:induction false} AllHit(items: seq<Item>)
    ensures Hits(items, Everything) == items && Without(items, Everything) == []
  {
    if items != [] {
      AllHit(items[..|items| - 1]);
      assert items == items[..|items| - 1] + [items[|items| - 1]];
    }
  }

  lemma StepKeepsLedger(s: State, a: Step)
    requires LedgerInv(s) && Enabled(s, a)
    ensures LedgerInv(Apply(s, a))
  {
    hide Tally, Queue, Publish, Subscribe, ReceiveAck, ReceiveSubAck, ReceivePubrec, SendQueued, Resend,
        ResendPubrel, Expire, Connect, Abort, Add;
    match a
    case DoPublish(id, qos, data, now, ok) => PublishTally(s, id, qos, data, now, ok);
    case DoEnqueue(id, qos, data, now, store) =>
      if qos > 0 || store { AddTally(s, id, PUBLISH_TYPE, qos, data, now); }
    case DoTestConnected =>
    case DoSubscribe(id, msgType, data, now, ok) => SubscribeTally(s, id, msgType, data, now, ok);
    case DoReceiveAck(_) => ReceiveTally(s, a);
    case DoReceiveSubAck(_, _, _) => ReceiveTally(s, a);
    case DoReceivePubrec(_, _, _, _) => ReceiveTally(s, a);
    case DoExpire(_, _) => ReceiveTally(s, a);
    case DoSendQueued(_, _) => WorkerTally(s, a);
    case DoResend(_, _, _) => WorkerTally(s, a);
    case DoResendPubrel(_, _, _, _) => WorkerTally(s, a);
    case DoConnect(_) => WorkerTally(s, a);
    case DoAbort => AbortTally(s);
    case DoReconnect =>
    case DoStopRequest =>
    case DoWorkerExit =>
      EmptyQueue(s.nextHandle);
      TallySweep(s.cfg, s.log, s.outbox, s.nextHandle, Everything, DiscardedOnStop);
      AllHit(s.outbox);
    case DoStart =>
  }

  lemma StartLedger(cfg: Config)
    ensures LedgerInv(Start0(cfg))
  {
    EmptyQueue(0);
  }

  lemma {:induction false} RunKeepsLedger(cfg: Config, trace: seq<State>, steps: seq<Step>, t: nat)
    requires IsRun(Start0(cfg), trace, steps) && t < |trace|
    ensures LedgerInv(trace[t]) && trace[t].cfg == cfg
  {
    hide Apply, Enabled, LedgerInv;
    if t == 0 {
      StartLedger(cfg);
    } else {
      RunKeepsLedger(cfg, trace, steps, t - 1);
      assert Takes(trace, steps, t - 1);
      StepKeepsLedger(trace[t - 1], steps[t - 1]);
      CfgKept(trace[t - 1], steps[t - 1]);
    }
  }

  // ---------------------------------------------------------------- the claims

  /** Over every legal run and for every choice of items by type, handle or id: stored =
      present + acknowledged + expired + sent at QoS 0 + dropped or discarded; one item is
      counted once, so it is present or left by exactly one cause, and never both. */
  lemma Conservation(cfg: Config, trace: seq<State>, steps: seq<Step>, t: nat, c: Choice)
    requires IsRun(Start0(cfg), trace, steps) && t < |trace|
    ensures var s := trace[t];
            && Stored(s.log, c) == Present(s.outbox, c) + GoneBy(s.log, Acked, c) + GoneBy(s.log, SubAcked, c)
                                   + GoneBy(s.log, Expired, c) + GoneBy(s.log, SentQos0, c)
                                   + GoneBy(s.log, DroppedOnAbort, c) + GoneBy(s.log, DiscardedOnStop, c)
            && (forall h: nat :: Stored(s.log, OfHandle(h)) == if h < s.nextHandle then 1 else 0)
  {
    RunKeepsLedger(cfg, trace, steps, t);
  }

  lemma {:induction false} NoneOf(items: seq<Item>, c: Choice)
    requires c.msgType == Some(PUBLISH_TYPE) && forall x :: x in items ==> x.msgType != PUBLISH_TYPE
    ensures Present(items, c) == 0
  {
    if items != [] { NoneOf(items[..|items| - 1], c); }
  }

  lemma {:induction false} PublishCauses(cfg: Config, log: Log, c: Choice)
    requires CausesOk(cfg, log) && c.msgType == Some(PUBLISH_TYPE)
    ensures GoneBy(log, SubAcked, c) == 0 && GoneBy(log, DroppedOnAbort, c) == 0
  {
    if log.Snoc? {
      PublishCauses(cfg, log.past, c);
      if log.last.Swept? && log.last.cause == DroppedOnAbort { NoneOf(log.last.items, c); }
    }
  }

  /** A PUBLISH item leaves only by its acknowledgement, expiry, its one write at QoS 0 or
      the discard at task exit; in particular no lost connection drops one. */
  lemma PublishConservation(cfg: Config, trace: seq<State>, steps: seq<Step>, t: nat, c: Choice)
    requires IsRun(Start0(cfg), trace, steps) && t < |trace| && c.msgType == Some(PUBLISH_TYPE)
    ensures var s := trace[t];
            Stored(s.log, c) == Present(s.outbox, c) + GoneBy(s.log, Acked, c) + GoneBy(s.log, Expired, c)
                                + GoneBy(s.log, SentQos0, c) + GoneBy(s.log, DiscardedOnStop, c)
  {
    RunKeepsLedger(cfg, trace, steps, t);
    PublishCauses(cfg, trace[t].log, c);
  }

  lemma {:induction false} LeftOneByOne(cfg: Config, log: Log)
    requires CausesOk(cfg, log)
    ensures |LeftIds(log, Acked)| == GoneBy(log, Acked, ANY) && |LeftIds(log, Expired)| == GoneBy(log, Expired, ANY)
  {
    if log.Snoc? { LeftOneByOne(cfg, log.past); }
  }

  /** PUBLISHED events are, in order, the ids of the acknowledged items and DELETED events
      those of the expired ones: one event for each. */
  lemma EventsMatchItems(cfg: Config, trace: seq<State>, steps: seq<Step>, t: nat)
    requires IsRun(Start0(cfg), trace, steps) && t < |trace|
    ensures var log := trace[t].log;
            && PublishedIds(log) == LeftIds(log, Acked) && |PublishedIds(log)| == GoneBy(log, Acked, ANY)
            && DeletedIds(log) == LeftIds(log, Expired) && |DeletedIds(log)| == GoneBy(log, Expired, ANY)
  {
    RunKeepsLedger(cfg, trace, steps, t);
    LeftOneByOne(cfg, trace[t].log);
  }

  // ---------------------------------------------------------------- repeated acknowledgements

  /** No PUBLISH with this id is stored. */
  predicate NoPublish(items: seq<Item>, id: nat) {
    forall i :: 0 <= i < |items| ==> !(items[i].id == id && items[i].msgType == PUBLISH_TYPE)
  }

  /** The step stores a PUBLISH under this id. */
  predicate Stores(a: Step, id: nat) {
    (a.DoPublish? || a.DoEnqueue?) && a.id == id
  }

  lemma WithoutNoPublish(items: seq<Item>, next: nat, q: Query, id: nat)
    requires Queue(items, next) && NoPublish(items, id)
    ensures NoPublish(Without(items, q), id)
  {
    QueueWithout(items, next, q);
    var w := Without(items, q);
    forall i | 0 <= i < |w| ensures !(w[i].id == id && w[i].msgType == PUBLISH_TYPE) {
      assert w[i] in items;
    }
  }

  lemma AbortNoPublish(s: State, id: nat)
    requires Base(s) && NoPublish(s.outbox, id)
    ensures NoPublish(Abort(s).outbox, id)
  {
    WithoutNoPublish(s.outbox, s.nextHandle, ByType(SUBSCRIBE_TYPE), id);
    QueueWithout(s.outbox, s.nextHandle, ByType(SUBSCRIBE_TYPE));
    WithoutNoPublish(Without(s.outbox, ByType(SUBSCRIBE_TYPE)), s.nextHandle, ByType(UNSUBSCRIBE_TYPE), id);
  }

  lemma AfterWriteNoPublish(s: State, x: Item, now: int, id: nat)
    requires NoPublish(s.outbox, id)
    ensures NoPublish(AfterWrite(s, x, now).outbox, id)
  {
    var t := SetTickAt(s.outbox, x.id, now);
    assert NoPublish(t, id);
    assert NoPublish(SetPendingAt(t, x.id, Transmitted), id);
  }

  lemma ApiNoPublish(s: State, a: Step, id: nat)
    requires Base(s) && Enabled(s, a) && NoPublish(s.outbox, id) && !Stores(a, id)
    requires a.DoPublish? || a.DoEnqueue? || a.DoSubscribe?
    ensures NoPublish(Apply(s, a).outbox, id)
  {
    hide Abort, AfterWrite;
    match a
    case DoPublish(id1, qos, data, now, ok) =>
      var s1 := if qos > 0 then Add(s, id1, PUBLISH_TYPE, qos, data, now) else s;
      if qos > 0 { AddKeeps(s, id1, PUBLISH_TYPE, qos, data, now); }
      AbortNoPublish(s1, id);
      if qos > 0 { AfterWriteNoPublish(s1, s1.outbox[|s1.outbox| - 1], now, id); }
    case DoEnqueue(_, _, _, _, _) =>
    case DoSubscribe(_, _, _, _, _) =>
  }

  lemma ReceiveNoPublish(s: State, a: Step, id: nat)
    requires Base(s) && Enabled(s, a) && NoPublish(s.outbox, id)
    requires a.DoReceiveAck? || a.DoReceiveSubAck? || a.DoReceivePubrec? || a.DoExpire?
    ensures NoPublish(Apply(s, a).outbox, id)
  {
    hide Abort, Queue;
    if a.DoReceiveSubAck? {
      var k := First(s.outbox, ByMessage(a.id, a.msgType));
      if k < |s.outbox| {
        var s1 := Note(s.(outbox := RemoveAt(s.outbox, k)), Left(s.outbox[k], SubAcked));
        RemovalKeeps(s, k, s1);
        AbortNoPublish(s1, id);
      }
    }
  }

  lemma WorkerNoPublish(s: State, a: Step, id: nat)
    requires Base(s) && NoPublish(s.outbox, id)
    requires a.DoSendQueued? || a.DoResend? || a.DoResendPubrel? || a.DoConnect? || a.DoAbort?
    ensures NoPublish(Apply(s, a).outbox, id)
  {
    hide Abort, AfterWrite, Queue, NextQueued;
    AbortNoPublish(s, id);
    match a
    case DoSendQueued(now, _) =>
      var k := NextQueued(s);
      if k < |s.outbox| { AfterWriteNoPublish(s, s.outbox[k], now, id); }
    case DoResend(_, _, _) =>
      var k := First(s.outbox, ByPending(Transmitted));
      if k < |s.outbox| {
        QueueUpdate(s.outbox, s.nextHandle, k, Dup(s.outbox[k]));
        AbortNoPublish(s.(outbox := s.outbox[k := Dup(s.outbox[k])]), id);
      }
    case DoResendPubrel(_, _, _, _) =>
    case DoConnect(_) =>
    case DoAbort =>
  }

  lemma StepNoPublish(s: State, a: Step, id: nat)
    requires Base(s) && Enabled(s, a) && NoPublish(s.outbox, id) && !Stores(a, id)
    ensures NoPublish(Apply(s, a).outbox, id)
  {
    if a.DoPublish? || a.DoEnqueue? || a.DoSubscribe? {
      hide Apply, NoPublish;
      ApiNoPublish(s, a, id);
    } else if a.DoReceiveAck? || a.DoReceiveSubAck? || a.DoReceivePubrec? || a.DoExpire? {
      hide Apply, NoPublish;
      ReceiveNoPublish(s, a, id);
    } else if a.DoSendQueued? || a.DoResend? || a.DoResendPubrel? || a.DoConnect? || a.DoAbort? {
      hide Apply, NoPublish;
      WorkerNoPublish(s, a, id);
    }
  }

  lemma AckClears(s: State, id: nat)
    requires Base(s) && id != 0
    ensures NoPublish(ReceiveAck(s, id).outbox, id)
  {
    var k := First(s.outbox, ByMessage(id, PUBLISH_TYPE));
    if k < |s.outbox| {
      var r := RemoveAt(s.outbox, k);
      forall i | 0 <= i < |r| ensures r[i].id != id {
        var j := if i < k then i else i + 1;
        assert r[i] == s.outbox[j];
        assert Ordered(s.outbox[if j < k then j else k], s.outbox[if j < k then k else j]);
      }
    } else {
      forall i | 0 <= i < |s.outbox| ensures !(s.outbox[i].id == id && s.outbox[i].msgType == PUBLISH_TYPE) {
        assert !Hit(ByMessage(id, PUBLISH_TYPE), s.outbox[i]);
      }
    }
  }

  lemma {:induction false} RunNoPublish(s: State, trace: seq<State>, steps: seq<Step>, id: nat, t: nat)
    requires Base(s) && NoPublish(s.outbox, id) && IsRun(s, trace, steps) && t < |trace|
    requires forall i :: 0 <= i < |steps| ==> !Stores(steps[i], id)
    ensures Base(trace[t]) && NoPublish(trace[t].outbox, id)
  {
    hide Apply, Base, Enabled;
    if t > 0 {
      RunNoPublish(s, trace, steps, id, t - 1);
      assert Takes(trace, steps, t - 1);
      StepKeepsBase(trace[t - 1], steps[t - 1]);
      StepNoPublish(trace[t - 1], steps[t - 1], id);
    }
  }

  /** After an acknowledgement, and whatever happens next short of storing a new PUBLISH
      under that id, another one for the id is only noted - no item leaves, no event, the
      in-flight counter keeps its value - unless the id is 0 and a QoS 0 publish is stored:
      those share the id, and each acknowledgement takes one more. */
  lemma DuplicateAck(s: State, id: nat, trace: seq<State>, steps: seq<Step>, t: nat)
    requires Base(s) && s.phase == Connected
    requires IsRun(ReceiveAck(s, id), trace, steps) && t < |trace|
    requires id != 0 ==> forall i :: 0 <= i < |steps| ==> !Stores(steps[i], id)
    ensures ReceiveAck(trace[t], id) == trace[t].(log := Snoc(trace[t].log, GotAck(id, false)))
       <==> !(id == 0 && !NoPublish(trace[t].outbox, 0))
  {
    hide Base, NoPublish, ReceiveAck;
    ReceiveKeeps(s, DoReceiveAck(id));
    RunFromBase(ReceiveAck(s, id), trace, steps, t);
    if id != 0 {
      AckClears(s, id);
      RunNoPublish(ReceiveAck(s, id), trace, steps, id, t);
    }
    if NoPublish(trace[t].outbox, id) { AckMisses(trace[t], id); } else { AckHits(trace[t], id); }
  }

  lemma AckHits(s: State, id: nat)
    requires !NoPublish(s.outbox, id)
    ensures |ReceiveAck(s, id).outbox| == |s.outbox| - 1
  {
    var i :| 0 <= i < |s.outbox| && s.outbox[i].id == id && s.outbox[i].msgType == PUBLISH_TYPE;
    assert Hit(ByMessage(id, PUBLISH_TYPE), s.outbox[i]);
  }

  /** With two QoS 0 publishes stored, two acknowledgements for id 0 take both away and
      report both. */
  lemma TwoAcks(s: State)
    requires |s.outbox| == 2 && s.cfg == Config(false, true)
    requires forall i :: 0 <= i < 2 ==> s.outbox[i].id == 0 && s.outbox[i].msgType == PUBLISH_TYPE
    ensures var r := ReceiveAck(ReceiveAck(s, 0), 0);
            r.outbox == [] && PublishedIds(r.log) == PublishedIds(s.log) + [0, 0]
  {
    hide ReceiveAck, PublishedIds;
    var r := OneAck(s);
    var r2 := OneAck(r);
    assert PublishedIds(s.log) + [0] + [0] == PublishedIds(s.log) + [0, 0];
  }

  lemma OneAck(s: State) returns (r: State)
    requires s.outbox != [] && s.outbox[0].id == 0 && s.outbox[0].msgType == PUBLISH_TYPE
    ensures r == ReceiveAck(s, 0) && r.outbox == s.outbox[1..] && r.cfg == s.cfg
    ensures PublishedIds(r.log) == PublishedIds(s.log) + [0]
  {
    r := ReceiveAck(s, 0);
    FirstIs(s.outbox, ByMessage(0, PUBLISH_TYPE), 0);
    assert RemoveAt(s.outbox, 0) == s.outbox[1..];
    var l := Snoc(Snoc(s.log, GotAck(0, true)), Left(s.outbox[0], Acked));
    assert PublishedIds(l) == PublishedIds(s.log);
    assert r.log == Snoc(l, PublishedEvent(0));
  }

  const KEEP: Step := DoEnqueue(0, 0, [48], 0, true)

  lemma KeepStores(s: State)
    requires s.phase == Connected
    ensures Enabled(s, KEEP)
    ensures var r := Apply(s, KEEP);
            && r.phase == Connected && r.cfg == s.cfg && PublishedIds(r.log) == PublishedIds(s.log)
            && r.outbox == s.outbox + [Item(s.nextHandle, 0, PUBLISH_TYPE, 0, 0, Queued, [48])]
  {
  }

  lemma Opens(s: State, r: State)
    requires s == Start0(Config(false, true)) && r == Apply(s, DoStart)
    ensures Enabled(s, DoStart) && Enabled(r, DoConnect(1))
    ensures var q := Apply(r, DoConnect(1));
            q.phase == Connected && q.cfg == s.cfg && q.outbox == [] && PublishedIds(q.log) == []
  {
    assert r == s.(running := true);
    var q := Apply(r, DoConnect(1));
    assert q.log == Snoc(Empty, Accepted(1, 1)) && PublishedIds(Empty) == [];
  }

  lemma AckStep(s: State)
    requires s.phase == Connected
    ensures Enabled(s, DoReceiveAck(0)) && Apply(s, DoReceiveAck(0)) == ReceiveAck(s, 0)
            && ReceiveAck(s, 0).phase == Connected
  {
  }

  lemma TwoStored() returns (trace: seq<State>, steps: seq<Step>)
    ensures IsRun(Start0(Config(false, true)), trace, steps) && |steps| == 4
    ensures var s := trace[4];
            && s.phase == Connected && s.cfg == Config(false, true) && |s.outbox| == 2 && PublishedIds(s.log) == []
            && forall i :: 0 <= i < 2 ==> s.outbox[i].id == 0 && s.outbox[i].msgType == PUBLISH_TYPE
  {
    var s0 := Start0(Config(false, true));
    assert s0.cfg == Config(false, true);
    hide Apply, Enabled, Start0, PublishedIds;
    var s1 := Apply(s0, DoStart);
    var s2 := Apply(s1, DoConnect(1));
    var s3 := Apply(s2, KEEP);
    Opens(s0, s1);
    KeepStores(s2);
    KeepStores(s3);
    steps := [DoStart, DoConnect(1), KEEP, KEEP];
    trace := [s0, s1, s2, s3, Apply(s3, KEEP)];
    assert Takes(trace, steps, 0) && Takes(trace, steps, 1) && Takes(trace, steps, 2) && Takes(trace, steps, 3);
  }

  /** A run in which acknowledgements for id 0, which no packet carried, take two QoS 0
      publishes away before they are written: the second one is not just noted. */
  lemma AckZeroTwice() returns (trace: seq<State>, steps: seq<Step>)
    ensures IsRun(Start0(Config(false, true)), trace, steps)
    ensures |steps| == 6 && steps[4] == steps[5] == DoReceiveAck(0)
    ensures |trace[4].outbox| == 2 && trace[6].outbox == [] && PublishedIds(trace[6].log) == [0, 0]
  {
    hide Apply, Enabled, ReceiveAck, PublishedIds, Start0;
    var t, p := TwoStored();
    var a := DoReceiveAck(0);
    var s5 := ReceiveAck(t[4], 0);
    var s6 := ReceiveAck(s5, 0);
    TwoAcks(t[4]);
    AckStep(t[4]);
    AckStep(s5);
    steps := p + [a, a];
    trace := t + [s5, s6];
    forall i | 0 <= i < 6 ensures Takes(trace, steps, i) {
      if i < 4 { assert Takes(t, p, i); }
    }
  }

  lemma AckMisses(s: State, id: nat)
    requires Base(s) && NoPublish(s.outbox, id)
    ensures ReceiveAck(s, id) == s.(log := Snoc(s.log, GotAck(id, false)))
  {
    forall i | 0 <= i < |s.outbox| ensures !Hit(ByMessage(id, PUBLISH_TYPE), s.outbox[i]) {
      ShapeAt(s, i);
    }
  }
}
