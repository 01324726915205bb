/** What each step of the session does: which item it takes, what it leaves of the outbox,
    and which entries it adds to the log. Items are named by their fields, so that every
    search, mark and test of the machine is pinned down here, beside the invariants that
    hold whatever a step does. */
module SessionSteps {
  import opened Bytes
  import opened Publish311
  import opened Outbox
  import opened Session
  import opened SessionBase
  import opened SessionSubs

  /** `k` is the position of the first item with the property, or the length. */
  ghost predicate FirstWhere(items: seq<Item>, k: nat, p: Item -> bool) {
    && k <= |items|
    && (forall j :: 0 <= j < k ==> !p(items[j]))
    && (k < |items| ==> p(items[k]))
  }

  /** The item at `k` is gone, the others are as they were. */
  predicate Gone(items: seq<Item>, k: nat, left: seq<Item>) {
    k < |items| && left == items[..k] + items[k + 1..]
  }

  /** The item at `k` is now `x`, the others are as they were. */
  predicate Changed(items: seq<Item>, k: nat, x: Item, now: seq<Item>) {
    k < |items| && now == items[k := x]
  }

  /** What a lost connection leaves: in a clean session all but the SUBSCRIBEs and
      UNSUBSCRIBEs, in a persistent one everything. */
  predicate Lost(s: State, r: State) {
    && r.phase == WaitReconnect && r.running == s.running && r.epoch == s.epoch && r.cfg == s.cfg
    && r.count == s.count && r.recvMax == s.recvMax && r.calls == s.calls
    && r.outbox == (if s.cfg.clean then Others(s.outbox) else s.outbox)
    && r.log.Snoc? && r.log.last == DisconnectedEvent
  }

  /** Only outbox, counter and log differ. */
  predicate SameLink(s: State, r: State) {
    && r.cfg == s.cfg && r.phase == s.phase && r.running == s.running && r.epoch == s.epoch
    && r.calls == s.calls && r.recvMax == s.recvMax
  }

  lemma AbortDoes(s: State)
    requires Base(s)
    ensures Lost(s, Apply(s, DoAbort))
  {
    AbortKeepsOthers(s);
    hide Others, Without, Hits, Base;
  }

  // ---------------------------------------------------------------- API calls

  /** The item a call stores. */
  function NewItem(s: State, id: nat, msgType: nat, qos: nat, data: seq<Byte>, now: int): (x: Item) {
    Item(s.nextHandle, id, msgType, qos, now, Queued, data)
  }

  /** The new item is last and queued; it has been noted. */
  predicate StoredLast(s: State, x: Item, r: State) {
    && r.outbox == s.outbox + [x] && r.nextHandle == s.nextHandle + 1
    && r.log == Snoc(s.log, Enqueued(x, s.epoch, Online(s)))
  }

  /** A publish above QoS 0 is always stored. It goes out if and only if the client is
      connected and, over MQTT 5.0 above QoS 0, the quota is not used up. If the write
      fails the connection is lost and the item stays queued. */
  lemma PublishDoes(s: State, id: nat, qos: nat, data: seq<Byte>, now: int, ok: bool)
    requires Base(s) && FreshPublish(s, id, qos, data)
    ensures var r := Apply(s, DoPublish(id, qos, data, now, ok));
            var x := NewItem(s, id, PUBLISH_TYPE, qos, data, now);
            var log := if qos > 0 then Snoc(s.log, Enqueued(x, s.epoch, Online(s))) else s.log;
            if s.phase != Connected || (s.cfg.v5 && qos > 0 && s.count >= s.recvMax) then
              if qos > 0 then StoredLast(s, x, r) && SameLink(s, r) && r.count == s.count else r == s
            else if ok then
              && SameLink(s, r)
              && r.outbox == (if qos > 0 then s.outbox + [x.(pending := Transmitted)] else s.outbox)
              && r.log == Snoc(log, if qos > 0 then Wrote(x, s.epoch, false) else WroteDirect(data, s.epoch))
              && r.count == (if s.cfg.v5 && qos > 0 then s.count + 1 else s.count)
            else
              && Lost(s.(outbox := if qos > 0 then s.outbox + [x] else s.outbox), r)
              && (qos > 0 ==> x in r.outbox)
  {
    hide Others, Abort, Base, AfterWrite;
    if qos == 0 {
      AbortDoes(s);
    } else {
      StoredBase(s, id, PUBLISH_TYPE, qos, data, now);
      var s1 := Add(s, id, PUBLISH_TYPE, qos, data, now);
      AbortDoes(s1);
      AfterWriteDoes(s1, |s.outbox|, now);
      OthersLast(s.outbox, s1.outbox[|s.outbox|]);
    }
  }

  lemma StoredBase(s: State, id: nat, msgType: nat, qos: nat, data: seq<Byte>, now: int)
    requires Base(s) && Shape(NewItem(s, id, msgType, qos, data, now)) && Unused(s, id)
    ensures var r := Add(s, id, msgType, qos, data, now); Base(r) && r.outbox == s.outbox + [r.outbox[|s.outbox|]]
    ensures StoredLast(s, NewItem(s, id, msgType, qos, data, now), Add(s, id, msgType, qos, data, now))
  {
    AddKeeps(s, id, msgType, qos, data, now);
  }

  lemma OthersLast(items: seq<Item>, x: Item)
    requires !IsSub(x)
    ensures x in Others(items + [x])
  {
    OthersSnoc(items, x);
  }

  /** The bookkeeping after a complete write of the item at `k`: a QoS 0 publish goes, any
      other item waits for its acknowledgement, and a PUBLISH above QoS 0 is counted over
      MQTT 5.0. */
  predicate Booked(s: State, k: nat, now: int, r: State)
    requires k < |s.outbox|
  {
    var x := s.outbox[k];
    && SameLink(s, r) && r.nextHandle == s.nextHandle
    && if x.msgType == PUBLISH_TYPE && x.qos == 0 then
         && Gone(s.outbox, k, r.outbox) && r.count == s.count
         && r.log == Snoc(Snoc(s.log, Wrote(x, s.epoch, false)), Left(x, SentQos0))
       else
         && Changed(s.outbox, k, x.(tick := now, pending := Transmitted), r.outbox)
         && r.count == (if s.cfg.v5 && x.msgType == PUBLISH_TYPE then s.count + 1 else s.count)
         && r.log == Snoc(s.log, Wrote(x, s.epoch, false))
  }

  lemma AfterWriteDoes(s: State, k: nat, now: int)
    requires Base(s) && k < |s.outbox|
    ensures Booked(s, k, now, AfterWrite(s, s.outbox[k], now))
  {
    var x := s.outbox[k];
    if x.id == 0 {
      FirstByHandle(s.outbox, s.nextHandle, k);
    } else {
      MarkHits(s.outbox, s.nextHandle, k, now);
    }
    hide Ordered, Queue;
  }

  /** Only stored, and only above QoS 0 or on demand. */
  lemma EnqueueDoes(s: State, id: nat, qos: nat, data: seq<Byte>, now: int, store: bool)
    ensures var r := Apply(s, DoEnqueue(id, qos, data, now, store));
            if qos > 0 || store
            then StoredLast(s, NewItem(s, id, PUBLISH_TYPE, qos, data, now), r) && SameLink(s, r) && r.count == s.count
            else r == s
  {
  }

  /** The locked part of a subscribe or unsubscribe call: the item is last and marked as
      transmitted, and it is written if and only if the write succeeds. */
  lemma SubscribeDoes(s: State, id: nat, msgType: nat, data: seq<Byte>, now: int, ok: bool)
    requires Base(s) && Enabled(s, DoSubscribe(id, msgType, data, now, ok))
    ensures var r := Apply(s, DoSubscribe(id, msgType, data, now, ok));
            var x := NewItem(s, id, msgType, 0, data, now);
            var log := Snoc(s.log, Enqueued(x, s.epoch, Online(s)));
            && r.outbox == s.outbox + [x.(pending := Transmitted)]
            && r.log == (if ok then Snoc(log, Wrote(x.(pending := Transmitted), s.epoch, false)) else log)
            && SameLink(s.(calls := s.calls - 1), r) && r.count == s.count
  {
    hide Base;
    StoredBase(s, id, msgType, 0, data, now);
    var s1 := Add(s, id, msgType, 0, data, now);
    MarkLast(s1, |s.outbox|);
  }

  lemma MarkLast(s: State, k: nat)
    requires Base(s) && k < |s.outbox| && s.outbox[k].id != 0
    ensures SetPendingAt(s.outbox, s.outbox[k].id, Transmitted) == s.outbox[k := s.outbox[k].(pending := Transmitted)]
  {
    FirstById(s.outbox, s.nextHandle, k);
  }

  // ---------------------------------------------------------------- received packets

  /** A PUBACK or PUBCOMP takes the first PUBLISH with its id away, reports it and gives one
      unit of the quota back; without one it is only noted. */
  lemma AckDoes(s: State, id: nat) returns (k: nat)
    requires Base(s)
    ensures FirstWhere(s.outbox, k, (x: Item) => x.id == id && x.msgType == PUBLISH_TYPE)
    ensures var r := Apply(s, DoReceiveAck(id));
            if k == |s.outbox| then r == s.(log := Snoc(s.log, GotAck(id, false)))
            else
              && SameLink(s, r) && Gone(s.outbox, k, r.outbox)
              && r.count == (if s.cfg.v5 && s.count > 0 then s.count - 1 else s.count)
              && r.log == Snoc(Snoc(Snoc(s.log, GotAck(id, true)), Left(s.outbox[k], Acked)), PublishedEvent(id))
  {
    k := First(s.outbox, ByMessage(id, PUBLISH_TYPE));
    SmallTypes(s);
  }

  lemma SmallTypes(s: State)
    requires Base(s)
    ensures forall i :: 0 <= i < |s.outbox| ==> s.outbox[i].msgType % 256 == s.outbox[i].msgType
  {
    forall i | 0 <= i < |s.outbox| ensures s.outbox[i].msgType % 256 == s.outbox[i].msgType {
      assert Shape(s.outbox[i]);
    }
  }

  /** A SUBACK or UNSUBACK takes the first item of its kind with its id away; if the event
      cannot be delivered the connection is given up. */
  lemma SubAckDoes(s: State, id: nat, msgType: nat, ok: bool) returns (k: nat)
    requires Base(s) && Enabled(s, DoReceiveSubAck(id, msgType, ok))
    ensures FirstWhere(s.outbox, k, (x: Item) => x.id == id && x.msgType == msgType)
    ensures var r := Apply(s, DoReceiveSubAck(id, msgType, ok));
            if k == |s.outbox| then r == s
            else if ok then
              && SameLink(s, r) && Gone(s.outbox, k, r.outbox) && r.count == s.count
              && r.log == Snoc(Snoc(s.log, Left(s.outbox[k], SubAcked)), SubAckEvent(id))
            else Lost(s.(outbox := s.outbox[..k] + s.outbox[k + 1..]), r)
  {
    k := First(s.outbox, ByMessage(id, msgType));
    SmallTypes(s);
    if k < |s.outbox| { WithoutOneBase(s, k); }
    hide Abort, Base, Lost, Shape, First;
  }

  lemma WithoutOneBase(s: State, k: nat)
    requires Base(s) && k < |s.outbox|
    ensures Lost(s.(outbox := s.outbox[..k] + s.outbox[k + 1..]),
                 Abort(Note(s.(outbox := RemoveAt(s.outbox, k)), Left(s.outbox[k], SubAcked))))
  {
    var s1 := Note(s.(outbox := RemoveAt(s.outbox, k)), Left(s.outbox[k], SubAcked));
    RemovalKeeps(s, k, s1);
    AbortDoes(s1);
    SendIs(s1, 0, true);
    hide Others, Abort, Base;
  }

  /** A PUBREC marks the first item with its id, whatever kind that is, and is answered by a
      PUBREL if and only if the write succeeds. */
  lemma PubrecDoes(s: State, id: nat, error: bool, newId: nat, ok: bool) returns (k: nat)
    ensures FirstWhere(s.outbox, k, (x: Item) => x.id == id)
    ensures var r := Apply(s, DoReceivePubrec(id, error, newId, ok));
            var hit := if k < |s.outbox| then Some(s.outbox[k].handle) else None;
            && SameLink(s, r) && r.count == s.count
            && (if k == |s.outbox| then r.outbox == s.outbox
                else Changed(s.outbox, k, s.outbox[k].(pending := Acknowledged), r.outbox))
            && r.log == (if ok then Snoc(Snoc(s.log, GotPubrec(id, error, hit)),
                                         WrotePubrel(if id == 0 then newId else id, id, s.epoch))
                         else Snoc(s.log, GotPubrec(id, error, hit)))
  {
    k := First(s.outbox, ById(id));
  }

  /** Over every run: a PUBREC is answered, in the connection it came in, by a PUBREL with
      its id - a new one for id 0 - as long as the write succeeds; and every item with that
      id then waits for the PUBCOMP. */
  lemma PubrecIsAnswered(cfg: Config, trace: seq<State>, steps: seq<Step>, t: nat)
    requires IsRun(Start0(cfg), trace, steps) && t < |steps| && steps[t].DoReceivePubrec?
    ensures var (s, a, r) := (trace[t], steps[t], trace[t + 1]);
            && r.log.Snoc?
            && (a.ok ==> r.log.last == WrotePubrel(if a.id == 0 then a.newId else a.id, a.id, s.epoch)
                         && r.log.past.Snoc? && r.log.past.past == s.log)
            && (!a.ok ==> r.log.past == s.log)
            && (a.id != 0 ==> forall x :: x in r.outbox && x.id == a.id ==> x.pending == Acknowledged)
  {
    RunKeepsBase(cfg, trace, steps, t);
    assert Takes(trace, steps, t);
    var s, a := trace[t], steps[t];
    var k := PubrecDoes(s, a.id, a.error, a.newId, a.ok);
    if a.id != 0 { OneWithId(s, k, a.id); }
  }

  lemma OneWithId(s: State, k: nat, id: nat)
    requires Base(s) && id != 0 && k <= |s.outbox| && (k < |s.outbox| ==> s.outbox[k].id == id)
    requires forall j :: 0 <= j < k ==> s.outbox[j].id != id
    ensures forall j :: 0 <= j < |s.outbox| && j != k ==> s.outbox[j].id != id
  {
    forall j | k < j < |s.outbox| ensures s.outbox[j].id != id {
      assert Ordered(s.outbox[k], s.outbox[j]);
    }
  }

  // ---------------------------------------------------------------- the worker

  /** The quota of MQTT 5.0 is used up. */
  predicate QuotaUsed(s: State) {
    s.cfg.v5 && s.count >= s.recvMax
  }

  /** The item that goes next: the first queued one, except that a PUBLISH above QoS 0 has
      to wait while the quota is used up; then it is the first QoS 0 publish, if that is
      queued, and nothing otherwise. */
  ghost predicate GoesNext(s: State, k: nat) {
    exists f: nat :: FirstWhere(s.outbox, f, (x: Item) => x.pending == Queued) && f < |s.outbox| &&
      if QuotaUsed(s) && s.outbox[f].msgType == PUBLISH_TYPE && s.outbox[f].qos > 0
      then k < |s.outbox| && s.outbox[k].pending == Queued
           && FirstWhere(s.outbox, k, (x: Item) => x.msgType == PUBLISH_TYPE && x.qos == 0)
      else k == f
  }

  /** At most one item does. */
  lemma NextIs(s: State)
    requires Base(s)
    ensures forall k: nat :: GoesNext(s, k) <==> k == NextQueued(s) && k < |s.outbox|
  {
    var f, z := First(s.outbox, ByPending(Queued)), First(s.outbox, ById(0));
    forall i | 0 <= i < |s.outbox|
      ensures s.outbox[i].id == 0 <==> s.outbox[i].msgType == PUBLISH_TYPE && s.outbox[i].qos == 0
    {
      assert Shape(s.outbox[i]);
    }
    assert FirstWhere(s.outbox, f, (x: Item) => x.pending == Queued);
    assert FirstWhere(s.outbox, z, (x: Item) => x.msgType == PUBLISH_TYPE && x.qos == 0);
    hide Base;
    forall k: nat ensures GoesNext(s, k) <==> k == NextQueued(s) && k < |s.outbox| {
      if GoesNext(s, k) {
        var g: nat :| FirstWhere(s.outbox, g, (x: Item) => x.pending == Queued) && g < |s.outbox| &&
          if QuotaUsed(s) && s.outbox[g].msgType == PUBLISH_TYPE && s.outbox[g].qos > 0
          then k < |s.outbox| && s.outbox[k].pending == Queued
               && FirstWhere(s.outbox, k, (x: Item) => x.msgType == PUBLISH_TYPE && x.qos == 0)
          else k == g;
        FirstUnique(s.outbox, f, g, (x: Item) => x.pending == Queued);
        if QuotaUsed(s) && Counted(s.outbox[f]) {
          FirstUnique(s.outbox, k, z, (x: Item) => x.msgType == PUBLISH_TYPE && x.qos == 0);
        }
      }
    }
  }

  lemma FirstUnique(items: seq<Item>, j: nat, k: nat, p: Item -> bool)
    requires FirstWhere(items, j, p) && FirstWhere(items, k, p)
    ensures j == k
  {
  }

  /** While connected the item that goes next is written and booked, or the connection is
      lost with every item still there; nothing else is touched. */
  lemma SendDoes(s: State, now: int, ok: bool) returns (k: nat)
    requires Base(s)
    ensures k <= |s.outbox| && forall j: nat :: GoesNext(s, j) <==> j == k && k < |s.outbox|
    ensures var r := Apply(s, DoSendQueued(now, ok));
            if s.phase != Connected || k == |s.outbox| then r == s
            else if ok then Booked(s, k, now, r)
            else Lost(s, r)
  {
    k := NextQueued(s);
    NextIs(s);
    AbortDoes(s);
    if k < |s.outbox| { AfterWriteDoes(s, k, now); }
    SendIs(s, now, ok);
    hide *;
  }

  lemma SendIs(s: State, now: int, ok: bool)
    ensures Apply(s, DoSendQueued(now, ok)) ==
            if s.phase != Connected || NextQueued(s) == |s.outbox| then s
            else if ok then AfterWrite(s, s.outbox[NextQueued(s)], now) else Abort(s)
    ensures Apply(s, DoAbort) == Abort(s)
  {
    hide NextQueued, AfterWrite, Abort;
  }

  /** The first item that waits for its acknowledgement is written again if and only if the
      client is connected, nothing is queued to go, the item is overdue and the write
      succeeds; DUP is set in the stored copy of a PUBLISH above QoS 0. */
  lemma RepeatDoes(s: State, now: int, timeout: int, ok: bool) returns (k: nat)
    requires Base(s)
    ensures FirstWhere(s.outbox, k, (x: Item) => x.pending == Transmitted)
    ensures var r := Apply(s, DoResend(now, timeout, ok));
            if s.phase == Connected && (forall j: nat :: !GoesNext(s, j)) && k < |s.outbox|
               && now - s.outbox[k].tick > timeout
            then
              var x := s.outbox[k];
              var y := if x.msgType == PUBLISH_TYPE && x.qos > 0 then x.(data := SetDup(x.data)) else x;
              if ok then r == s.(outbox := s.outbox[k := y], log := Snoc(s.log, Wrote(y, s.epoch, true)))
              else Lost(s.(outbox := s.outbox[k := y]), r)
            else r == s
  {
    k := First(s.outbox, ByPending(Transmitted));
    NextIs(s);
    NoneGoes(s);
    if k < |s.outbox| { DupBase(s, k); }
    hide GoesNext, Others, Abort, NextQueued, Base, SetDup, Lost;
  }

  lemma NoneGoes(s: State)
    requires forall k: nat :: GoesNext(s, k) <==> k == NextQueued(s) && k < |s.outbox|
    ensures (forall k: nat :: !GoesNext(s, k)) <==> NextQueued(s) == |s.outbox|
  {
    hide GoesNext, NextQueued;
    var n := NextQueued(s);
    assert GoesNext(s, n) <==> n < |s.outbox|;
  }

  lemma DupBase(s: State, k: nat)
    requires Base(s) && k < |s.outbox|
    ensures var s1 := s.(outbox := s.outbox[k := Dup(s.outbox[k])]); Lost(s1, Abort(s1))
  {
    hide Lost, Abort, Queue, Dup;
    DupKey(s.outbox[k]);
    QueueUpdate(s.outbox, s.nextHandle, k, Dup(s.outbox[k]));
    AbortDoes(s.(outbox := s.outbox[k := Dup(s.outbox[k])]));
    SendIs(s.(outbox := s.outbox[k := Dup(s.outbox[k])]), 0, true);
  }

  lemma DupKey(x: Item)
    ensures SameKey(Dup(x), x)
  {
  }

  /** The PUBREL of the first acknowledged item is written again if and only if the client
      is connected, that item is overdue and the write succeeds. */
  lemma PubrelDoes(s: State, now: int, timeout: int, newId: nat, ok: bool) returns (k: nat)
    requires Base(s)
    ensures FirstWhere(s.outbox, k, (x: Item) => x.pending == Acknowledged)
    ensures var r := Apply(s, DoResendPubrel(now, timeout, newId, ok));
            if s.phase == Connected && k < |s.outbox| && now - s.outbox[k].tick > timeout then
              var id := s.outbox[k].id;
              if ok then r == s.(log := Snoc(s.log, WrotePubrel(if id == 0 then newId else id, id, s.epoch)))
              else Lost(s, r)
            else r == s
  {
    k := First(s.outbox, ByPending(Acknowledged));
    hide Others, Abort, Base;
    AbortDoes(s);
  }

  /** Expiry takes the first item older than the timeout away and reports it as deleted; it
      changes nothing if and only if there is none. */
  lemma ExpireDoes(s: State, now: int, timeout: int)
    ensures var r := Apply(s, DoExpire(now, timeout));
            && (r == s <==> forall j :: 0 <= j < |s.outbox| ==> now - s.outbox[j].tick <= timeout)
            && (r != s ==> exists k: nat ::
                  && Gone(s.outbox, k, r.outbox)
                  && now - s.outbox[k].tick > timeout
                  && (forall j :: 0 <= j < k ==> now - s.outbox[j].tick <= timeout)
                  && r.log == Snoc(Snoc(s.log, Left(s.outbox[k], Expired)), DeletedEvent(s.outbox[k].id))
                  && SameLink(s, r) && r.count == s.count)
  {
    var k := First(s.outbox, ByExpiry(now, timeout));
    var r := Apply(s, DoExpire(now, timeout));
    if k < |s.outbox| {
      assert r.log != s.log;
      assert Gone(s.outbox, k, r.outbox);
    }
  }

  // ---------------------------------------------------------------- connections and the worker's life

  /** An accepted connection is a new epoch. Over MQTT 5.0 the counter starts again and
      every item that waited for an acknowledgement is queued, with DUP set exactly in a
      PUBLISH above QoS 0; nothing else changes. */
  lemma ConnectDoes(s: State, recvMax: nat)
    ensures var r := Apply(s, DoConnect(recvMax));
            if s.phase == Init && s.running then
              && r.phase == Connected && r.epoch == s.epoch + 1 && r.running && r.calls == s.calls
              && r.log == Snoc(s.log, Accepted(r.epoch, recvMax))
              && r.count == (if s.cfg.v5 then 0 else s.count)
              && r.recvMax == (if s.cfg.v5 then recvMax else s.recvMax)
              && |r.outbox| == |s.outbox|
              && forall i :: 0 <= i < |s.outbox| ==>
                   r.outbox[i] ==
                   if !s.cfg.v5 || s.outbox[i].pending != Transmitted then s.outbox[i]
                   else if s.outbox[i].msgType == PUBLISH_TYPE && s.outbox[i].qos > 0
                   then s.outbox[i].(pending := Queued, data := SetDup(s.outbox[i].data))
                   else s.outbox[i].(pending := Queued)
            else r == s
  {
  }

  /** The calls that only move the client between its phases, and the end of the worker,
      which discards everything. */
  lemma PhasesDo(s: State)
    ensures Apply(s, DoReconnect) == if s.phase == WaitReconnect then s.(phase := Init) else s
    ensures Apply(s, DoStopRequest) == if s.running then s.(phase := Disconnected) else s
    ensures Apply(s, DoStart) ==
            if !s.running && s.phase != Connected && s.phase != WaitReconnect
            then s.(phase := Init, running := true) else s
    ensures Apply(s, DoTestConnected) == if s.phase == Connected then s.(calls := s.calls + 1) else s
    ensures var r := Apply(s, DoWorkerExit);
            if s.running then r == s.(outbox := [], phase := Disconnected, running := false, log := r.log)
                              && r.log == Snoc(s.log, Swept(s.outbox, DiscardedOnStop))
            else r == s
  {
  }
}
