/** When a SUBSCRIBE or UNSUBSCRIBE is replayed in a later connection of a clean session
    (section 3.1.2.4 of MQTT 3.1.1). The connected test comes before the lock, so the
    answer depends on what the locked part finds: stored online, it never is; stored
    offline, it can be. */
module SessionReplay {
  import opened Bytes
  import opened Outbox
  import opened Session
  import opened SessionBase
  import opened SessionLedger
  import opened SessionSubs

  // ---------------------------------------------------------------- stored online

  lemma {:induction false} StoredAt(log: Log, i: nat)
    requires i < Length(log) && At(log, i).Enqueued?
    ensures Stored(log, OfHandle(At(log, i).item.handle)) >= 1
  {
    if i < Length(log) - 1 { StoredAt(log.past, i); }
  }

  lemma {:induction false} HomeAt(log: Log, i: nat)
    requires i < Length(log) && At(log, i).Enqueued? && At(log, i).online && IsSub(At(log, i).item)
    requires Stored(log, OfHandle(At(log, i).item.handle)) <= 1
    ensures Home(log, At(log, i).item.handle) == Some(At(log, i).epoch)
  {
    if i < Length(log) - 1 {
      StoredAt(log.past, i);
      HomeAt(log.past, i);
    }
  }

  lemma {:induction false} WrittenAt(log: Log, j: nat, epoch: Option<nat>)
    requires j < Length(log) && At(log, j).Wrote? && WrittenIn(log, At(log, j).item.handle, epoch)
    ensures epoch == Some(At(log, j).epoch)
  {
    if j < Length(log) - 1 { WrittenAt(log.past, j, epoch); }
  }

  /** Clean session: whenever a SUBSCRIBE or UNSUBSCRIBE stored online is written, first or
      repeated, it is written in the connection that stored it. */
  lemma NoReplay(cfg: Config, trace: seq<State>, steps: seq<Step>, t: nat, i: nat, j: nat)
    requires IsRun(Start0(cfg), trace, steps) && t < |trace| && cfg.clean
    requires i < Length(trace[t].log) && j < Length(trace[t].log)
    requires var log := trace[t].log;
             && At(log, i).Enqueued? && At(log, i).online && IsSub(At(log, i).item)
             && At(log, j).Wrote? && At(log, i).item.handle == At(log, j).item.handle
    ensures var log := trace[t].log; At(log, i).epoch == At(log, j).epoch
  {
    StartSubs(cfg);
    RunKeepsSubs(Start0(cfg), trace, steps, t);
    var log := trace[t].log;
    var h := At(log, i).item.handle;
    Conservation(cfg, trace, steps, t, OfHandle(h));
    HomeAt(log, i);
    WrittenAt(log, j, Home(log, h));
  }

  // ---------------------------------------------------------------- what a handle was stored as

  lemma HomeQuiet(log: Log, e: Entry, h: nat)
    requires e.Enqueued? ==> e.item.handle != h
    ensures Home(Snoc(log, e), h) == Home(log, h)
  {
  }

  lemma AbortHome(s: State, h: nat)
    ensures Home(Abort(s).log, h) == Home(s.log, h) && Abort(s).nextHandle == s.nextHandle
  {
    if s.cfg.clean {
      var r := Abort(s).log;
      HomeQuiet(s.log, r.past.past.last, h);
      HomeQuiet(r.past.past, r.past.last, h);
      HomeQuiet(r.past, r.last, h);
    }
  }

  lemma AfterWriteHome(s: State, x: Item, now: int, h: nat)
    ensures Home(AfterWrite(s, x, now).log, h) == Home(s.log, h) && AfterWrite(s, x, now).nextHandle == s.nextHandle
  {
    HomeQuiet(s.log, Wrote(x, s.epoch, false), h);
  }

  lemma AddHome(s: State, id: nat, msgType: nat, qos: nat, data: seq<Byte>, tick: int, h: nat)
    requires h < s.nextHandle
    ensures var r := Add(s, id, msgType, qos, data, tick);
            Home(r.log, h) == Home(s.log, h) && r.nextHandle == s.nextHandle + 1
  {
  }

  lemma HomeQuiet3(log: Log, a: Entry, b: Entry, c: Entry, h: nat)
    requires !a.Enqueued? && !b.Enqueued? && !c.Enqueued?
    ensures Home(Snoc(Snoc(log, a), b), h) == Home(log, h) && Home(Snoc(Snoc(Snoc(log, a), b), c), h) == Home(log, h)
  {
    HomeQuiet(log, a, h);
    HomeQuiet(Snoc(log, a), b, h);
    HomeQuiet(Snoc(Snoc(log, a), b), c, h);
  }

  lemma ApiHome(s: State, a: Step, h: nat)
    requires h < s.nextHandle && (a.DoPublish? || a.DoEnqueue? || a.DoSubscribe?)
    ensures Home(Apply(s, a).log, h) == Home(s.log, h) && h < Apply(s, a).nextHandle
  {
    hide Add, Abort, AfterWrite;
    match a
    case DoPublish(id, qos, data, now, ok) =>
      AbortHome(s, h);
      AddHome(s, id, PUBLISH_TYPE, qos, data, now, h);
      AddView(s, id, PUBLISH_TYPE, qos, data, now);
      var s1 := Add(s, id, PUBLISH_TYPE, qos, data, now);
      AbortHome(s1, h);
      AfterWriteHome(s1, s1.outbox[|s1.outbox| - 1], now, h);
    case DoEnqueue(id, qos, data, now, store) => AddHome(s, id, PUBLISH_TYPE, qos, data, now, h);
    case DoSubscribe(id, msgType, data, now, ok) => AddHome(s, id, msgType, 0, data, now, h);
  }

  lemma ReceiveHome(s: State, a: Step, h: nat)
    requires h < s.nextHandle && (a.DoReceiveAck? || a.DoReceiveSubAck? || a.DoReceivePubrec? || a.DoExpire?)
    ensures Home(Apply(s, a).log, h) == Home(s.log, h) && h < Apply(s, a).nextHandle
  {
    hide Abort;
    match a
    case DoReceiveAck(id) =>
      var k := First(s.outbox, ByMessage(id, PUBLISH_TYPE));
      if k < |s.outbox| { HomeQuiet3(s.log, GotAck(id, true), Left(s.outbox[k], Acked), PublishedEvent(id), h); }
    case DoReceiveSubAck(id, msgType, ok) =>
      var k := First(s.outbox, ByMessage(id, msgType));
      if k < |s.outbox| { AbortHome(Note(s.(outbox := RemoveAt(s.outbox, k)), Left(s.outbox[k], SubAcked)), h); }
    case DoReceivePubrec(id, error, newId, ok) =>
    case DoExpire(_, _) =>
  }

  lemma HomeStays(s: State, a: Step, h: nat)
    requires h < s.nextHandle
    ensures Home(Apply(s, a).log, h) == Home(s.log, h) && h < Apply(s, a).nextHandle
  {
    hide Add, Abort, AfterWrite, Publish, Enqueue, Subscribe, ReceiveAck, ReceiveSubAck, ReceivePubrec, Expire;
    if a.DoPublish? || a.DoEnqueue? || a.DoSubscribe? {
      ApiHome(s, a, h);
    } else if a.DoReceiveAck? || a.DoReceiveSubAck? || a.DoReceivePubrec? || a.DoExpire? {
      ReceiveHome(s, a, h);
    } else {
      AbortHome(s, h);
      if a.DoSendQueued? && NextQueued(s) < |s.outbox| { AfterWriteHome(s, s.outbox[NextQueued(s)], a.now, h); }
      if a.DoResend? {
        var k := First(s.outbox, ByPending(Transmitted));
        if k < |s.outbox| { AbortHome(s.(outbox := s.outbox[k := Dup(s.outbox[k])]), h); }
      }
    }
  }

  lemma {:induction false} RunKeepsHome(s: State, trace: seq<State>, steps: seq<Step>, t: nat, h: nat)
    requires IsRun(s, trace, steps) && t < |trace| && h < s.nextHandle
    ensures Home(trace[t].log, h) == Home(s.log, h) && h < trace[t].nextHandle
  {
    hide Apply, Enabled;
    if t > 0 {
      RunKeepsHome(s, trace, steps, t - 1, h);
      assert Takes(trace, steps, t - 1);
      HomeStays(trace[t - 1], steps[t - 1], h);
    }
  }

  // ---------------------------------------------------------------- stored offline

  /** The item stored last is the one with handle `h`, and it waits to be written. */
  predicate Waits(s: State, h: nat) {
    && s.outbox != []
    && var y := s.outbox[|s.outbox| - 1];
       y.handle == h && IsSub(y) && (y.pending == Queued || y.pending == Transmitted)
  }

  /** From offline to the next connection. */
  lemma Reconnects(s0: State, r: Story, h: nat) returns (q: Story)
    requires Told(s0, r) && Base(r.now) && Waits(r.now, h) && !Online(r.now)
    ensures Told(s0, q) && r.steps <= q.steps && Base(q.now) && Waits(q.now, h)
    ensures q.now.phase == Connected && q.now.epoch == r.now.epoch + 1 && q.now.cfg == r.now.cfg
    ensures q.now.outbox[|q.now.outbox| - 1].pending == Queued || !q.now.cfg.v5
  {
    hide Told, Queue;
    q := r;
    if r.now.phase == WaitReconnect {
      q := Next(s0, r, DoReconnect);
    } else if !r.now.running {
      q := Next(s0, r, DoStart);
    }
    assert q.now.phase == Init && q.now.running && q.now.outbox == r.now.outbox;
    hide Base;
    StepKeepsBase(q.now, DoConnect(65535));
    ConnectWaits(q.now, h);
    hide Waits, Apply;
    q := Next(s0, q, DoConnect(65535));
  }

  lemma ConnectWaits(s: State, h: nat)
    requires s.phase == Init && s.running && Waits(s, h)
    ensures Enabled(s, DoConnect(65535))
    ensures var r := Apply(s, DoConnect(65535));
            && Waits(r, h) && r.phase == Connected && r.epoch == s.epoch + 1 && r.cfg == s.cfg
            && (r.outbox[|r.outbox| - 1].pending == Queued || !r.cfg.v5)
  {
  }

  /** The acknowledgement that takes the head of the queue away. */
  function AckFor(x: Item): (step: Step) {
    if x.msgType == PUBLISH_TYPE then DoReceiveAck(x.id) else DoReceiveSubAck(x.id, x.msgType, true)
  }

  lemma AckTakesHead(s: State)
    requires Base(s) && s.phase == Connected && s.outbox != []
    ensures Enabled(s, AckFor(s.outbox[0]))
    ensures var r := Apply(s, AckFor(s.outbox[0]));
            r.outbox == s.outbox[1..] && r.phase == Connected && r.epoch == s.epoch && r.cfg == s.cfg
  {
    var x := s.outbox[0];
    assert Shape(x);
    FirstIs(s.outbox, ByMessage(x.id, x.msgType), 0);
    assert RemoveAt(s.outbox, 0) == s.outbox[1..];
    hide Queue;
  }

  /** Acknowledgements for everything stored before. */
  lemma {:induction false} AcksOthers(s0: State, r: Story, h: nat) returns (q: Story)
    requires Told(s0, r) && Base(r.now) && Waits(r.now, h) && r.now.phase == Connected
    ensures Told(s0, q) && r.steps <= q.steps && Base(q.now) && q.now.phase == Connected
            && q.now.epoch == r.now.epoch && q.now.cfg == r.now.cfg
    ensures |q.now.outbox| == 1 && q.now.outbox[0] == r.now.outbox[|r.now.outbox| - 1]
    decreases |r.now.outbox|
  {
    hide Told, Queue, Apply;
    q := r;
    if |r.now.outbox| > 1 {
      AckTakesHead(r.now);
      StepKeepsBase(r.now, AckFor(r.now.outbox[0]));
      q := Next(s0, r, AckFor(r.now.outbox[0]));
      q := AcksOthers(s0, q, h);
    }
  }

  /** Alone in the outbox, the item is the next to be written. */
  lemma WritesIt(s0: State, r: Story, h: nat) returns (q: Story)
    requires Told(s0, r) && Base(r.now) && Waits(r.now, h) && r.now.phase == Connected && |r.now.outbox| == 1
    ensures Told(s0, q) && r.steps <= q.steps && q.now.log.Snoc?
    ensures var e := LastWrite(q.now.log); e.Some? && e.value.item.handle == h && e.value.epoch == r.now.epoch
  {
    hide Told, Queue;
    var y := r.now.outbox[0];
    if y.pending == Queued {
      FirstIs(r.now.outbox, ByPending(Queued), 0);
      q := Next(s0, r, DoSendQueued(0, true));
    } else {
      FirstIs(r.now.outbox, ByPending(Queued), 1);
      FirstIs(r.now.outbox, ByPending(Transmitted), 0);
      q := Next(s0, r, DoResend(y.tick + 1, 0, true));
    }
  }

  function LastWrite(log: Log): (e: Option<Entry>)
    ensures e.Some? ==> e.value.Wrote?
  {
    if log.Snoc? && log.last.Wrote? then Some(log.last) else None
  }

  /** Whatever else is stored and whatever the version: the next connection can write it. */
  lemma OfflineReplays(s0: State, r: Story, h: nat) returns (q: Story)
    requires Told(s0, r) && Base(r.now) && Waits(r.now, h) && !Online(r.now)
    ensures Told(s0, q) && r.steps <= q.steps && !WrittenIn(q.now.log, h, Some(r.now.epoch))
  {
    hide Told, Base;
    q := Reconnects(s0, r, h);
    q := AcksOthers(s0, q, h);
    q := WritesIt(s0, q, h);
  }

  // ---------------------------------------------------------------- the exact condition

  /** Some run from here writes the item outside this connection. */
  ghost predicate CanReplay(s: State, h: nat, epoch: nat) {
    exists trace: seq<State>, steps: seq<Step> :: IsRun(s, trace, steps)
        && !WrittenIn(trace[|steps|].log, h, Some(epoch))
  }

  lemma StoredWaits(s: State, id: nat, msgType: nat, data: seq<Byte>, now: int, ok: bool)
    requires Base(s) && Enabled(s, DoSubscribe(id, msgType, data, now, ok))
    ensures var r := Subscribe(s, id, msgType, data, now, ok);
            && Waits(r, s.nextHandle) && r.epoch == s.epoch && Online(r) == Online(s)
            && r.nextHandle == s.nextHandle + 1
            && Home(r.log, s.nextHandle) == if Online(s) then Some(s.epoch) else None
  {
    AddKeeps(s, id, msgType, 0, data, now);
    var s1 := Add(s, id, msgType, 0, data, now);
    assert Home(s1.log, s.nextHandle) == if Online(s) then Some(s.epoch) else None;
    FirstById(s1.outbox, s1.nextHandle, |s.outbox|);
    hide Queue;
  }

  /** In a clean session and over every run: what the locked part of a subscribe or
      unsubscribe call stores can be written outside its connection if and only if the
      client is offline by then, which the test before the lock does not exclude. */
  lemma ReplayIff(cfg: Config, trace: seq<State>, steps: seq<Step>, t: nat)
    requires IsRun(Start0(cfg), trace, steps) && cfg.clean && t < |steps| && steps[t].DoSubscribe?
    ensures CanReplay(trace[t + 1], trace[t].nextHandle, trace[t].epoch) <==> !Online(trace[t])
  {
    var s, r, h := trace[t], trace[t + 1], trace[t].nextHandle;
    StartSubs(cfg);
    RunKeepsSubs(Start0(cfg), trace, steps, t);
    RunKeepsSubs(Start0(cfg), trace, steps, t + 1);
    assert Takes(trace, steps, t);
    StoredWaits(s, steps[t].id, steps[t].msgType, steps[t].data, steps[t].now, steps[t].ok);
    if Online(s) {
      forall tr: seq<State>, st: seq<Step> | IsRun(r, tr, st) ensures WrittenIn(tr[|st|].log, h, Some(s.epoch)) {
        RunKeepsSubs(r, tr, st, |st|);
        RunKeepsHome(r, tr, st, |st|, h);
      }
    } else {
      var q := OfflineReplays(r, Story([r], [], r), h);
      assert IsRun(r, q.trace, q.steps);
    }
  }

  /** The run from the start: the connection is lost between the test and the lock, the
      SUBSCRIBE is stored all the same, and the next connection gets it. */
  lemma ReplayRun(v5: bool) returns (trace: seq<State>, steps: seq<Step>)
    ensures IsRun(Start0(Config(v5, true)), trace, steps)
    ensures [DoStart, DoConnect(1), DoTestConnected, DoAbort, DoSubscribe(1, SUBSCRIBE_TYPE, [130], 0, false)] <= steps
    ensures !WrittenIn(trace[|steps|].log, 0, Some(1))
  {
    var s0 := Start0(Config(v5, true));
    var s4, r := LostAfterTest(s0, v5);
    var a := DoSubscribe(1, SUBSCRIBE_TYPE, [130], 0, false);
    StoredWaits(s4, 1, SUBSCRIBE_TYPE, [130], 0, false);
    StepKeepsBase(s4, a);
    r := Next(s0, r, a);
    var q := OfflineReplays(s0, r, 0);
    trace, steps := q.trace, q.steps;
  }

  lemma LostAfterTest(s0: State, v5: bool) returns (s: State, r: Story)
    requires s0 == Start0(Config(v5, true))
    ensures Told(s0, r) && r.now == s && Base(s) && r.steps == [DoStart, DoConnect(1), DoTestConnected, DoAbort]
    ensures s.epoch == 1 && s.nextHandle == 0 && s.phase == WaitReconnect && s.calls == 1 && s.outbox == []
  {
    r := Story([s0], [], s0);
    hide Told;
    EmptyQueue(0);
    assert Told(s0, r) by { NoSteps(s0); }
    r := Next(s0, r, DoStart);
    r := Next(s0, r, DoConnect(1));
    r := Next(s0, r, DoTestConnected);
    r := Next(s0, r, DoAbort);
    s := r.now;
    assert s.outbox == [];
  }

  lemma NoSteps(s0: State)
    ensures Told(s0, Story([s0], [], s0))
  {
  }
}
