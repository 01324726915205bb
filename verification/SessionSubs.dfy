/** Clean sessions: a SUBSCRIBE or UNSUBSCRIBE that was stored online waits and is written
    in its own connection only (section 3.1.2.4 of MQTT 3.1.1), and a lost connection
    leaves every other item as it was. */
module SessionSubs {
  import opened Bytes
  import opened Outbox
  import opened Session
  import opened SessionBase

  predicate IsSub(x: Item) {
    x.msgType == SUBSCRIBE_TYPE || x.msgType == UNSUBSCRIBE_TYPE
  }

  // ---------------------------------------------------------------- a lost connection

  /** All items but SUBSCRIBE and UNSUBSCRIBE, in order. */
  function Others(items: seq<Item>): (r: seq<Item>)
    ensures forall x :: x in r ==> x in items && !IsSub(x)
  {
    if items == [] then []
    else Others(items[..|items| - 1]) + if IsSub(items[|items| - 1]) then [] else [items[|items| - 1]]
  }

  lemma WithoutSnoc(a: seq<Item>, x: Item, q: Query)
    ensures Without(a + [x], q) == if Hit(q, x) then Without(a, q) else Without(a, q) + [x]
  {
    assert (a + [x])[..|a|] == a;
    assert Without(a, q) + [] == Without(a, q);
  }

  lemma OthersSnoc(a: seq<Item>, x: Item)
    ensures Others(a + [x]) == if IsSub(x) then Others(a) else Others(a) + [x]
  {
    assert (a + [x])[..|a|] == a;
    assert Others(a) + [] == Others(a);
  }

  function WithoutSubs(items: seq<Item>): (kept: seq<Item>) {
    Without(Without(items, ByType(SUBSCRIBE_TYPE)), ByType(UNSUBSCRIBE_TYPE))
  }

  lemma WithoutSubsSnoc(a: seq<Item>, x: Item)
    requires Shape(x)
    ensures WithoutSubs(a + [x]) == if IsSub(x) then WithoutSubs(a) else WithoutSubs(a) + [x]
  {
    hide Without;
    WithoutSnoc(a, x, ByType(SUBSCRIBE_TYPE));
    WithoutSnoc(Without(a, ByType(SUBSCRIBE_TYPE)), x, ByType(UNSUBSCRIBE_TYPE));
  }

  lemma {:induction false} WithoutBoth(items: seq<Item>)
    requires forall i :: 0 <= i < |items| ==> Shape(items[i])
    ensures WithoutSubs(items) == Others(items)
  {
    if items != [] {
      hide WithoutSubs, Others, Shape, IsSub;
      var n := |items| - 1;
      assert items == items[..n] + [items[n]];
      WithoutBoth(items[..n]);
      OthersSnoc(items[..n], items[n]);
      WithoutSubsSnoc(items[..n], items[n]);
    }
  }

  /** In a clean session the abort drops exactly the SUBSCRIBEs and UNSUBSCRIBEs; in a
      persistent one it drops nothing. Every other item stays, unchanged and in order. */
  lemma AbortKeepsOthers(s: State)
    requires Base(s)
    ensures Abort(s).outbox == if s.cfg.clean then Others(s.outbox) else s.outbox
  {
    WithoutBoth(s.outbox);
  }

  // ---------------------------------------------------------------- connections in the log

  /** The connection in which a SUBSCRIBE or UNSUBSCRIBE with this handle was stored, if
      it was stored online. */
  function Home(log: Log, h: nat): (epoch: Option<nat>) {
    match log
    case Empty => None
    case Snoc(past, e) =>
      if e.Enqueued? && e.item.handle == h then (if e.online && IsSub(e.item) then Some(e.epoch) else None)
          else Home(past, h)
  }

  /** Every write of the item was in this connection. */
  predicate WrittenIn(log: Log, h: nat, epoch: Option<nat>) {
    match log
    case Empty => true
    case Snoc(past, e) => WrittenIn(past, h, epoch) && (e.Wrote? && e.item.handle == h ==> epoch == Some(e.epoch))
  }

  /** What was stored online was written in the connection that stored it. */
  ghost predicate LogHomes(log: Log, next: nat) {
    && (forall h: nat :: Home(log, h).Some? ==> WrittenIn(log, h, Home(log, h)))
    && (forall h: nat :: h >= next ==> Home(log, h) == None && WrittenIn(log, h, None))
  }

  ghost predicate ItemsHome(log: Log, items: seq<Item>, epoch: nat) {
    forall x :: x in items && Home(log, x.handle).Some? ==> Home(log, x.handle) == Some(epoch) && IsSub(x)
  }

  predicate NoHome(log: Log, items: seq<Item>) {
    forall x :: x in items ==> Home(log, x.handle) == None
  }

  ghost predicate SubsInv(s: State) {
    && Base(s)
    && (s.cfg.clean ==>
          && LogHomes(s.log, s.nextHandle)
          && ItemsHome(s.log, s.outbox, s.epoch)
          && (NoHome(s.log, s.outbox) || Online(s)))
  }

  lemma {:induction false} NeverWritten(log: Log, h: nat, epoch: Option<nat>)
    requires WrittenIn(log, h, None)
    ensures WrittenIn(log, h, epoch)
  {
    if log.Snoc? { NeverWritten(log.past, h, epoch); }
  }

  // ---------------------------------------------------------------- steps

  /** Every item of `b` is one of `a` by handle and type. */
  ghost predicate NoNewItems(a: seq<Item>, b: seq<Item>) {
    forall y :: y in b ==> exists x :: x in a && x.handle == y.handle && x.msgType == y.msgType
  }

  /** The item is in the outbox, whatever its state. */
  ghost predicate Has(items: seq<Item>, y: Item) {
    exists x :: x in items && x.handle == y.handle
  }

  lemma HasHandle(items: seq<Item>, next: nat, y: Item)
    requires Queue(items, next) && Has(items, y)
    ensures y.handle < next
  {
    var x :| x in items && x.handle == y.handle;
  }

  /** An entry that is no enqueue, and no write but of an item of the outbox, while the
      outbox gets no new items. */
  lemma EntryKeeps(s: State, e: Entry, items: seq<Item>)
    requires SubsInv(s) && s.cfg.clean && !e.Enqueued? && NoNewItems(s.outbox, items)
    requires e.Wrote? ==> e.epoch == s.epoch && Has(s.outbox, e.item)
    ensures LogHomes(Snoc(s.log, e), s.nextHandle) && ItemsHome(Snoc(s.log, e), items, s.epoch)
    ensures NoHome(s.log, s.outbox) ==> NoHome(Snoc(s.log, e), items)
  {
    var l := Snoc(s.log, e);
    assert forall h: nat :: Home(l, h) == Home(s.log, h);
    if e.Wrote? {
      HasHandle(s.outbox, s.nextHandle, e.item);
      var x :| x in s.outbox && x.handle == e.item.handle;
    }
    hide Base;
    forall y | y in items && Home(l, y.handle).Some? ensures Home(l, y.handle) == Some(s.epoch) && IsSub(y) {
      var x :| x in s.outbox && x.handle == y.handle && x.msgType == y.msgType;
    }
  }

  lemma NoteKeeps(s: State, e: Entry, r: State)
    requires SubsInv(s) && !e.Enqueued? && NoNewItems(s.outbox, r.outbox) && Base(r) && r.log == Snoc(s.log, e)
    requires e.Wrote? ==> e.epoch == s.epoch && Has(s.outbox, e.item)
    requires r.phase == s.phase && r.running == s.running && r.epoch == s.epoch && r.cfg == s.cfg
             && r.nextHandle == s.nextHandle
    ensures SubsInv(r)
  {
    hide Base, NoNewItems, LogHomes, ItemsHome, NoHome;
    if s.cfg.clean { EntryKeeps(s, e, r.outbox); }
  }

  lemma SilentSubs(log: Log, e: Entry, next: nat)
    requires LogHomes(log, next) && !e.Enqueued? && !e.Wrote?
    ensures LogHomes(Snoc(log, e), next) && forall h: nat :: Home(Snoc(log, e), h) == Home(log, h)
  {
    assert forall h: nat :: Home(Snoc(log, e), h) == Home(log, h);
    assert forall h: nat, epoch :: WrittenIn(Snoc(log, e), h, epoch) == WrittenIn(log, h, epoch);
  }

  lemma AbortSubs(s: State)
    requires SubsInv(s) && s.running
    ensures SubsInv(Abort(s))
  {
    AbortKeeps(s);
    AbortKeepsOthers(s);
    if s.cfg.clean {
      var r := Abort(s);
      var l := s.log;
      assert r.log.past.past.past == l;
      SilentSubs(l, r.log.past.past.last, s.nextHandle);
      SilentSubs(r.log.past.past, r.log.past.last, s.nextHandle);
      SilentSubs(r.log.past, r.log.last, s.nextHandle);
      hide LogHomes, Base, Abort;
      assert NoHome(r.log, r.outbox);
    }
  }

  lemma AddSubs(s: State, id: nat, msgType: nat, qos: nat, data: seq<Byte>, tick: int)
    requires SubsInv(s) && Shape(Item(s.nextHandle, id, msgType, qos, tick, Queued, data))
    requires id == 0 || Unused(s, id)
    ensures SubsInv(Add(s, id, msgType, qos, data, tick))
  {
    var x := Item(s.nextHandle, id, msgType, qos, tick, Queued, data);
    var r := Add(s, id, msgType, qos, data, tick);
    AddKeeps(s, id, msgType, qos, data, tick);
    if s.cfg.clean {
      NeverWritten(s.log, x.handle, Some(s.epoch));
      forall y | y in r.outbox ensures y == x || (y in s.outbox && Home(r.log, y.handle) == Home(s.log, y.handle)) {
        if y in s.outbox { HasHandle(s.outbox, s.nextHandle, y); }
      }
      assert forall h: nat :: h != x.handle ==> Home(r.log, h) == Home(s.log, h);
      hide Base, Add;
    }
  }

  lemma MarkedSubs(items: seq<Item>, id: nat, tick: int, p: Pending)
    ensures NoNewItems(items, SetPendingAt(items, id, p))
    ensures NoNewItems(items, SetPendingAt(SetTickAt(items, id, tick), id, p))
  {
    var t := SetTickAt(items, id, tick);
    OneMark(items, t);
    OneMark(items, SetPendingAt(items, id, p));
    OneMark(t, SetPendingAt(t, id, p));
  }

  lemma OneMark(items: seq<Item>, u: seq<Item>)
    requires |u| == |items| && forall i :: 0 <= i < |u| ==> SameKey(u[i], items[i])
    ensures NoNewItems(items, u)
  {
    forall y | y in u ensures exists x :: x in items && x.handle == y.handle && x.msgType == y.msgType {
      var i :| 0 <= i < |u| && u[i] == y;
      assert items[i] in items && SameKey(y, items[i]);
    }
  }

  lemma RemovedSubs(items: seq<Item>, k: nat)
    requires k < |items|
    ensures NoNewItems(items, RemoveAt(items, k))
  {
    var r := RemoveAt(items, k);
    forall y | y in r ensures exists x :: x in items && x.handle == y.handle && x.msgType == y.msgType {
      assert y in items;
    }
  }

  lemma SentView(s: State, k: nat, now: int)
    requires Base(s) && k < |s.outbox| && s.outbox[k].id == 0
    ensures var x := s.outbox[k];
            && !IsSub(x)
            && AfterWrite(s, x, now) ==
               Note(Note(s, Wrote(x, s.epoch, false)).(outbox := RemoveAt(s.outbox, k)), Left(x, SentQos0))
  {
    FirstByHandle(s.outbox, s.nextHandle, k);
    assert Shape(s.outbox[k]);
    hide Queue, RemoveAt, First;
  }

  lemma SentSubs(s: State, k: nat, now: int)
    requires SubsInv(s) && k < |s.outbox| && s.outbox[k].id == 0
    ensures SubsInv(AfterWrite(s, s.outbox[k], now))
  {
    hide Queue, LogHomes, ItemsHome, RemoveAt, NoNewItems, AfterWrite, NoHome, IsSub;
    var x := s.outbox[k];
    AfterWriteKeeps(s, k, now);
    SentView(s, k, now);
    var s1 := Note(s, Wrote(x, s.epoch, false));
    SelfSubs(s.outbox);
    NoteKeeps(s, s1.log.last, s1);
    RemovedSubs(s.outbox, k);
    NoteKeeps(s1, Left(x, SentQos0), AfterWrite(s, x, now));
  }

  lemma MarkedSentSubs(s: State, k: nat, now: int)
    requires SubsInv(s) && k < |s.outbox| && s.outbox[k].id != 0
    ensures SubsInv(AfterWrite(s, s.outbox[k], now))
  {
    var x := s.outbox[k];
    AfterWriteKeeps(s, k, now);
    MarkedSubs(s.outbox, x.id, now, Transmitted);
    assert Shape(x) && x in s.outbox;
    hide Queue, LogHomes, ItemsHome, NoNewItems, SetPendingAt, SetTickAt;
    NoteKeeps(s, Wrote(x, s.epoch, false), AfterWrite(s, x, now));
  }

  lemma AfterWriteSubs(s: State, k: nat, now: int)
    requires SubsInv(s) && k < |s.outbox|
    ensures SubsInv(AfterWrite(s, s.outbox[k], now))
  {
    hide SubsInv, AfterWrite;
    if s.outbox[k].id == 0 { SentSubs(s, k, now); } else { MarkedSentSubs(s, k, now); }
  }

  lemma PublishSubs(s: State, id: nat, qos: nat, data: seq<Byte>, now: int, ok: bool)
    requires SubsInv(s) && FreshPublish(s, id, qos, data)
    ensures SubsInv(Publish(s, id, qos, data, now, ok))
  {
    hide Queue, Add, Abort, AfterWrite, LogHomes, ItemsHome;
    var s1 := if qos > 0 then Add(s, id, PUBLISH_TYPE, qos, data, now) else s;
    if qos > 0 {
      AddSubs(s, id, PUBLISH_TYPE, qos, data, now);
      AddView(s, id, PUBLISH_TYPE, qos, data, now);
      AfterWriteSubs(s1, |s1.outbox| - 1, now);
    } else {
      NoteKeeps(s, WroteDirect(data, s.epoch), Note(s, WroteDirect(data, s.epoch)));
    }
    if s.phase == Connected { AbortSubs(s1); }
  }

  lemma SubscribeSubs(s: State, id: nat, msgType: nat, data: seq<Byte>, now: int, ok: bool)
    requires SubsInv(s) && Unused(s, id) && (msgType == SUBSCRIBE_TYPE || msgType == UNSUBSCRIBE_TYPE)
    ensures SubsInv(Subscribe(s, id, msgType, data, now, ok))
  {
    hide LogHomes, ItemsHome, NoNewItems, NoHome, Queue, Add, SetPendingAt;
    SubscribeKeeps(s, id, msgType, data, now, ok);
    AddSubs(s, id, msgType, 0, data, now);
    AddView(s, id, msgType, 0, data, now);
    var s1 := Add(s, id, msgType, 0, data, now);
    MarkedSubs(s1.outbox, id, now, Transmitted);
    MarkKeeps(s1.outbox, s1.nextHandle, id, Transmitted);
    var s2 := s1.(outbox := SetPendingAt(s1.outbox, id, Transmitted), calls := Less(s1.calls));
    QuietKeeps(s1, s2);
    if ok { WriteLastSubs(s2, s.epoch); }
  }

  lemma WriteLastSubs(s: State, epoch: nat)
    requires SubsInv(s) && s.outbox != [] && epoch == s.epoch
    ensures SubsInv(Note(s, Wrote(s.outbox[|s.outbox| - 1], epoch, false)))
  {
    hide LogHomes, ItemsHome, NoNewItems, NoHome, Queue;
    var y := s.outbox[|s.outbox| - 1];
    assert y in s.outbox;
    SelfSubs(s.outbox);
    NoteKeeps(s, Wrote(y, epoch, false), Note(s, Wrote(y, epoch, false)));
  }

  lemma QuietKeeps(s: State, r: State)
    requires SubsInv(s) && Base(r) && NoNewItems(s.outbox, r.outbox) && r.log == s.log && r.cfg == s.cfg
    requires r.phase == s.phase && r.running == s.running && r.epoch == s.epoch && r.nextHandle == s.nextHandle
    ensures SubsInv(r)
  {
  }

  lemma ReceiveSubs(s: State, a: Step)
    requires SubsInv(s) && Enabled(s, a)
    requires a.DoReceiveAck? || a.DoReceiveSubAck? || a.DoReceivePubrec? || a.DoExpire?
    ensures SubsInv(Apply(s, a))
  {
    hide LogHomes, ItemsHome, Queue, Abort, RemoveAt, SetPendingAt, NoNewItems;
    ReceiveKeeps(s, a);
    var r := Apply(s, a);
    SelfSubs(s.outbox);
    match a
    case DoReceiveAck(id) =>
      var k := First(s.outbox, ByMessage(id, PUBLISH_TYPE));
      var s1 := Note(s, GotAck(id, k < |s.outbox|));
      NoteKeeps(s, s1.log.last, s1);
      if k < |s.outbox| { RemovalSubs(s1, k, Left(s.outbox[k], Acked), PublishedEvent(id), r); }
    case DoReceiveSubAck(id, msgType, ok) =>
      var k := First(s.outbox, ByMessage(id, msgType));
      if k < |s.outbox| {
        var s1 := Note(s.(outbox := RemoveAt(s.outbox, k)), Left(s.outbox[k], SubAcked));
        RemovalKeeps(s, k, s1);
        RemovedSubs(s.outbox, k);
        NoteKeeps(s, s1.log.last, s1);
        SelfSubs(s1.outbox);
        if ok { NoteKeeps(s1, SubAckEvent(id), r); } else { AbortSubs(s1); }
      }
    case DoReceivePubrec(id, error, newId, ok) =>
      var k := First(s.outbox, ById(id));
      var e := GotPubrec(id, error, if k < |s.outbox| then Some(s.outbox[k].handle) else None);
      var s1 := Note(s.(outbox := SetPendingAt(s.outbox, id, Acknowledged)), e);
      MarkedSubs(s.outbox, id, 0, Acknowledged);
      NoteKeeps(s, e, s1);
      SelfSubs(s1.outbox);
      if ok { NoteKeeps(s1, r.log.last, r); }
    case DoExpire(now, timeout) =>
      var k := First(s.outbox, ByExpiry(now, timeout));
      if k < |s.outbox| { RemovalSubs(s, k, Left(s.outbox[k], Expired), DeletedEvent(s.outbox[k].id), r); }
  }

  lemma SelfSubs(items: seq<Item>)
    ensures NoNewItems(items, items)
  {
  }

  lemma RemovalSubs(s: State, k: nat, e1: Entry, e2: Entry, r: State)
    requires SubsInv(s) && k < |s.outbox| && Base(r)
    requires !e1.Enqueued? && !e1.Wrote? && !e2.Enqueued? && !e2.Wrote?
    requires r.outbox == RemoveAt(s.outbox, k) && r.log == Snoc(Snoc(s.log, e1), e2)
    requires r.phase == s.phase && r.running == s.running && r.epoch == s.epoch && r.cfg == s.cfg
             && r.nextHandle == s.nextHandle
    ensures SubsInv(r)
  {
    hide LogHomes, ItemsHome, Queue, RemoveAt;
    var s1 := Note(s.(outbox := r.outbox), e1);
    RemovedSubs(s.outbox, k);
    NoteKeeps(s, e1, s1);
    NoteKeeps(s1, e2, r);
  }

  lemma ResendSubs(s: State, now: int, timeout: int, ok: bool)
    requires SubsInv(s)
    ensures SubsInv(Resend(s, now, timeout, ok))
  {
    hide LogHomes, ItemsHome, NoHome, Queue, Abort, NextQueued, NoNewItems;
    var k := First(s.outbox, ByPending(Transmitted));
    if s.phase == Connected && k < |s.outbox| {
      var y := Dup(s.outbox[k]);
      var s1 := s.(outbox := s.outbox[k := y]);
      QueueUpdate(s.outbox, s.nextHandle, k, y);
      OneMark(s.outbox, s1.outbox);
      QuietKeeps(s, s1);
      assert y == s1.outbox[k] && y in s1.outbox;
      SelfSubs(s1.outbox);
      NoteKeeps(s1, Wrote(y, s.epoch, true), Note(s1, Wrote(y, s.epoch, true)));
      AbortSubs(s1);
    }
  }

  lemma WorkerSubs(s: State, a: Step)
    requires SubsInv(s) && Enabled(s, a)
    requires a.DoSendQueued? || a.DoResend? || a.DoResendPubrel?
    ensures SubsInv(Apply(s, a))
  {
    hide LogHomes, ItemsHome, NoHome, Queue, Abort, AfterWrite, NextQueued, NoNewItems, Resend;
    WorkerKeeps(s, a);
    SelfSubs(s.outbox);
    if s.phase == Connected { AbortSubs(s); }
    match a
    case DoSendQueued(now, ok) =>
      var k := NextQueued(s);
      if s.phase == Connected && k < |s.outbox| { AfterWriteSubs(s, k, now); }
    case DoResend(now, timeout, ok) => ResendSubs(s, now, timeout, ok);
    case DoResendPubrel(now, timeout, newId, ok) =>
      var r := Apply(s, a);
      if r.log != s.log && ok { NoteKeeps(s, r.log.last, r); }
  }

  lemma RequeueNoHome(items: seq<Item>, log: Log)
    requires NoHome(log, items)
    ensures NoHome(log, RequeueAll(items))
  {
    var r := RequeueAll(items);
    forall y | y in r ensures Home(log, y.handle) == None {
      var i :| 0 <= i < |r| && r[i] == y;
      assert items[i] in items;
    }
  }

  lemma ConnectSubs(s: State, recvMax: nat)
    requires SubsInv(s) && recvMax < 65536
    ensures SubsInv(Connect(s, recvMax))
  {
    WorkerKeeps(s, DoConnect(recvMax));
    if s.phase == Init && s.running && s.cfg.clean {
      RequeueNoHome(s.outbox, s.log);
      SilentSubs(s.log, Accepted(s.epoch + 1, recvMax), s.nextHandle);
      hide Base, LogHomes, RequeueAll, WrittenIn;
    }
  }

  lemma StepKeepsSubs(s: State, a: Step)
    requires SubsInv(s) && Enabled(s, a)
    ensures SubsInv(Apply(s, a))
  {
    hide LogHomes, Queue, Publish, Subscribe, ReceiveAck, ReceiveSubAck, ReceivePubrec, SendQueued, Resend,
        ResendPubrel, Expire, Connect, Abort, Add;
    match a
    case DoPublish(id, qos, data, now, ok) => PublishSubs(s, id, qos, data, now, ok);
    case DoEnqueue(id, qos, data, now, store) =>
      if qos > 0 || store { AddSubs(s, id, PUBLISH_TYPE, qos, data, now); }
    case DoTestConnected =>
    case DoSubscribe(id, msgType, data, now, ok) => SubscribeSubs(s, id, msgType, data, now, ok);
    case DoReceiveAck(_) => ReceiveSubs(s, a);
    case DoReceiveSubAck(_, _, _) => ReceiveSubs(s, a);
    case DoReceivePubrec(_, _, _, _) => ReceiveSubs(s, a);
    case DoExpire(_, _) => ReceiveSubs(s, a);
    case DoSendQueued(_, _) => WorkerSubs(s, a);
    case DoResend(_, _, _) => WorkerSubs(s, a);
    case DoResendPubrel(_, _, _, _) => WorkerSubs(s, a);
    case DoConnect(recvMax) => ConnectSubs(s, recvMax);
    case DoAbort => AbortSubs(s);
    case DoReconnect =>
    case DoStopRequest =>
    case DoWorkerExit =>
      EmptyQueue(s.nextHandle);
      if s.running && s.cfg.clean { SilentSubs(s.log, Swept(s.outbox, DiscardedOnStop), s.nextHandle); }
    case DoStart =>
  }

  lemma {:induction false} RunKeepsSubs(s: State, trace: seq<State>, steps: seq<Step>, t: nat)
    requires SubsInv(s) && IsRun(s, trace, steps) && t < |trace|
    ensures SubsInv(trace[t]) && trace[t].cfg == s.cfg
  {
    hide Apply, Enabled, SubsInv;
    if t > 0 {
      RunKeepsSubs(s, trace, steps, t - 1);
      assert Takes(trace, steps, t - 1);
      StepKeepsSubs(trace[t - 1], steps[t - 1]);
      CfgKept(trace[t - 1], steps[t - 1]);
    }
  }

  lemma StartSubs(cfg: Config)
    ensures SubsInv(Start0(cfg))
  {
  }
}
