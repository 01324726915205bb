/** The MQTT 5.0 in-flight counter against the send quota of section 4.9 of MQTT 5.0.
    The quota is read from the log of packets alone, never from the counter. */
module SessionQuota {
  import opened Bytes
  import opened Outbox
  import opened Session
  import opened SessionBase

  /** Initial quota minus send quota, by section 4.9: taken by each PUBLISH above QoS 0,
      given back (never above the initial quota) by every PUBACK, PUBCOMP and PUBREC with
      an error code, and set anew by each connection. `all`: also take it for PUBLISHes
      repeated by the retransmission timer within one connection. */
  function Spent(log: Log, all: bool): (n: nat) {
    match log
    case Empty => 0
    case Snoc(past, e) =>
      var n := Spent(past, all);
      match e
      case Wrote(x, _, resend) => if Counted(x) && (all || !resend) then n + 1 else n
      case GotAck(_, _) => Less(n)
      case GotPubrec(_, error, _) => if error then Less(n) else n
      case Accepted(_, _) => 0
      case _ => n
  }

  /** Since the connection was accepted: every PUBACK and PUBCOMP found its PUBLISH, and
      no PUBREC carried an error. */
  predicate Matched(log: Log) {
    match log
    case Empty => true
    case Snoc(past, e) =>
      match e
      case GotAck(_, matched) => matched && Matched(past)
      case GotPubrec(_, error, _) => !error && Matched(past)
      case Accepted(_, _) => true
      case _ => Matched(past)
  }

  /** PUBLISHes repeated by the timer since the connection was accepted. */
  function Repeats(log: Log): (n: nat) {
    match log
    case Empty => 0
    case Snoc(past, e) =>
      match e
      case Wrote(x, _, resend) => Repeats(past) + if Counted(x) && resend then 1 else 0
      case Accepted(_, _) => 0
      case _ => Repeats(past)
  }

  predicate QuotaOk(log: Log, all: bool, count: nat, recvMax: nat) {
    && Spent(log, all) <= count <= recvMax < 65536
    && (Matched(log) ==> count == Spent(log, all))
  }

  predicate QuotaInv(s: State, all: bool) {
    s.cfg.v5 ==> QuotaOk(s.log, all, s.count, s.recvMax)
  }

  /** The step is a timed repeat of a PUBLISH that gets written. */
  predicate RepeatsPublish(s: State, a: Step) {
    var k := First(s.outbox, ByPending(Transmitted));
    && a.DoResend? && a.ok && s.phase == Connected && NextQueued(s) == |s.outbox|
    && k < |s.outbox| && Counted(s.outbox[k]) && a.now - s.outbox[k].tick > a.timeout
  }

  // ---------------------------------------------------------------- steps

  predicate Silent(e: Entry) {
    !e.Wrote? && !e.GotAck? && !e.GotPubrec? && !e.Accepted?
  }

  lemma SilentEntry(log: Log, all: bool, e: Entry, count: nat, recvMax: nat)
    requires QuotaOk(log, all, count, recvMax) && Silent(e)
    ensures QuotaOk(Snoc(log, e), all, count, recvMax)
  {
  }

  lemma AbortQuota(s: State, all: bool)
    requires QuotaInv(s, all)
    ensures QuotaInv(Abort(s), all)
  {
    hide QuotaOk;
    if s.cfg.v5 {
      var e1 := Swept(Hits(s.outbox, ByType(SUBSCRIBE_TYPE)), DroppedOnAbort);
      var e2 := Swept(Hits(Without(s.outbox, ByType(SUBSCRIBE_TYPE)), ByType(UNSUBSCRIBE_TYPE)), DroppedOnAbort);
      SilentEntry(s.log, all, DisconnectedEvent, s.count, s.recvMax);
      SilentEntry(s.log, all, e1, s.count, s.recvMax);
      SilentEntry(Snoc(s.log, e1), all, e2, s.count, s.recvMax);
      SilentEntry(Snoc(Snoc(s.log, e1), e2), all, DisconnectedEvent, s.count, s.recvMax);
    }
  }

  lemma AddQuota(s: State, all: bool, id: nat, msgType: nat, qos: nat, data: seq<Byte>, tick: int)
    requires QuotaInv(s, all)
    ensures QuotaInv(Add(s, id, msgType, qos, data, tick), all)
    ensures Add(s, id, msgType, qos, data, tick).count == s.count
    ensures Add(s, id, msgType, qos, data, tick).recvMax == s.recvMax
    ensures Add(s, id, msgType, qos, data, tick).cfg == s.cfg
  {
  }

  lemma AfterWriteQuota(s: State, all: bool, x: Item, now: int)
    requires QuotaInv(s, all) && (s.cfg.v5 && Counted(x) ==> s.count < s.recvMax)
    ensures QuotaInv(AfterWrite(s, x, now), all)
  {
    var e := Wrote(x, s.epoch, false);
    if s.cfg.v5 && Counted(x) {
      assert QuotaOk(Snoc(s.log, e), all, s.count + 1, s.recvMax);
    } else if s.cfg.v5 {
      assert QuotaOk(Snoc(s.log, e), all, s.count, s.recvMax);
    }
  }

  lemma PublishQuota(s: State, all: bool, id: nat, qos: nat, data: seq<Byte>, now: int, ok: bool)
    requires QuotaInv(s, all)
    ensures QuotaInv(Publish(s, id, qos, data, now, ok), all)
  {
    hide Add, Abort, AfterWrite, QuotaOk;
    var s1 := if qos > 0 then Add(s, id, PUBLISH_TYPE, qos, data, now) else s;
    if qos > 0 { AddQuota(s, all, id, PUBLISH_TYPE, qos, data, now); }
    AbortQuota(s1, all);
    if s.phase == Connected && !(s.cfg.v5 && qos > 0 && s.count >= s.recvMax) {
      if qos == 0 {
        if s.cfg.v5 { SilentEntry(s.log, all, WroteDirect(data, s.epoch), s.count, s.recvMax); }
      } else {
        AddView(s, id, PUBLISH_TYPE, qos, data, now);
        AfterWriteQuota(s1, all, s1.outbox[|s1.outbox| - 1], now);
      }
    }
  }

  lemma SubscribeQuota(s: State, all: bool, id: nat, msgType: nat, data: seq<Byte>, now: int, ok: bool)
    requires QuotaInv(s, all) && msgType != PUBLISH_TYPE
    ensures QuotaInv(Subscribe(s, id, msgType, data, now, ok), all)
  {
    hide Add;
    AddQuota(s, all, id, msgType, 0, data, now);
    AddView(s, id, msgType, 0, data, now);
    var s1 := Add(s, id, msgType, 0, data, now);
    var r := SetPendingAt(s1.outbox, id, Transmitted);
    assert !Counted(r[|r| - 1]);
  }

  lemma ResendQuota(s: State, all: bool, a: Step)
    requires QuotaInv(s, all) && a.DoResend? && (all ==> !RepeatsPublish(s, a))
    ensures QuotaInv(Apply(s, a), all)
  {
    hide Abort;
    var k := First(s.outbox, ByPending(Transmitted));
    if k < |s.outbox| {
      AbortQuota(s.(outbox := s.outbox[k := Dup(s.outbox[k])]), all);
    }
  }

  lemma PubrecQuota(s: State, all: bool, id: nat, error: bool, newId: nat, ok: bool)
    requires QuotaInv(s, all)
    ensures QuotaInv(ReceivePubrec(s, id, error, newId, ok), all)
  {
    var k := First(s.outbox, ById(id));
    var l := Snoc(s.log, GotPubrec(id, error, if k < |s.outbox| then Some(s.outbox[k].handle) else None));
    if s.cfg.v5 {
      assert QuotaOk(l, all, s.count, s.recvMax);
      SilentEntry(l, all, WrotePubrel(if id == 0 then newId else id, id, s.epoch), s.count, s.recvMax);
    }
  }

  lemma AckEntry(log: Log, all: bool, e: Entry, count: nat, recvMax: nat)
    requires QuotaOk(log, all, count, recvMax) && e.GotAck?
    ensures QuotaOk(Snoc(log, e), all, if e.matched then Less(count) else count, recvMax)
  {
  }

  lemma AckQuota(s: State, all: bool, id: nat)
    requires QuotaInv(s, all)
    ensures QuotaInv(ReceiveAck(s, id), all)
  {
    hide QuotaOk;
    var k := First(s.outbox, ByMessage(id, PUBLISH_TYPE));
    var l := Snoc(s.log, GotAck(id, k < |s.outbox|));
    if s.cfg.v5 {
      AckEntry(s.log, all, l.last, s.count, s.recvMax);
      if k < |s.outbox| {
        var l2 := Snoc(l, Left(s.outbox[k], Acked));
        SilentEntry(l, all, l2.last, Less(s.count), s.recvMax);
        SilentEntry(l2, all, PublishedEvent(id), Less(s.count), s.recvMax);
      }
    }
  }

  lemma ReceiveQuota(s: State, all: bool, a: Step)
    requires QuotaInv(s, all)
    requires a.DoReceiveAck? || a.DoReceiveSubAck? || a.DoReceivePubrec? || a.DoExpire? || a.DoWorkerExit?
    ensures QuotaInv(Apply(s, a), all)
  {
    hide Abort;
    match a
    case DoReceiveAck(id) =>
      AckQuota(s, all, id);
    case DoReceiveSubAck(id, msgType, ok) =>
      var k := First(s.outbox, ByMessage(id, msgType));
      if k < |s.outbox| {
        AbortQuota(Note(s.(outbox := RemoveAt(s.outbox, k)), Left(s.outbox[k], SubAcked)), all);
      }
    case DoReceivePubrec(id, error, newId, ok) =>
      PubrecQuota(s, all, id, error, newId, ok);
    case DoExpire(now, timeout) =>
      var k := First(s.outbox, ByExpiry(now, timeout));
      if s.cfg.v5 && k < |s.outbox| {
        var l := Snoc(s.log, Left(s.outbox[k], Expired));
        SilentEntry(s.log, all, l.last, s.count, s.recvMax);
        SilentEntry(l, all, DeletedEvent(s.outbox[k].id), s.count, s.recvMax);
      }
    case DoWorkerExit =>
  }

  lemma SendQuota(s: State, all: bool, now: int, ok: bool)
    requires QuotaInv(s, all)
    ensures QuotaInv(SendQueued(s, now, ok), all)
  {
    hide Abort, AfterWrite, QuotaOk;
    AbortQuota(s, all);
    var k := NextQueued(s);
    if k < |s.outbox| { AfterWriteQuota(s, all, s.outbox[k], now); }
  }

  lemma StepKeepsQuota(s: State, all: bool, a: Step)
    requires QuotaInv(s, all) && Enabled(s, a) && (all ==> !RepeatsPublish(s, a))
    ensures QuotaInv(Apply(s, a), all)
  {
    hide Publish, Subscribe, ReceiveAck, ReceiveSubAck, ReceivePubrec, SendQueued, Resend, Expire, Abort, WorkerExit,
        Add;
    match a
    case DoPublish(id, qos, data, now, ok) => PublishQuota(s, all, id, qos, data, now, ok);
    case DoTestConnected =>
    case DoEnqueue(id, qos, data, now, store) => AddQuota(s, all, id, PUBLISH_TYPE, qos, data, now);
    case DoSubscribe(id, msgType, data, now, ok) => SubscribeQuota(s, all, id, msgType, data, now, ok);
    case DoReceiveAck(_) => ReceiveQuota(s, all, a);
    case DoReceiveSubAck(_, _, _) => ReceiveQuota(s, all, a);
    case DoReceivePubrec(_, _, _, _) => ReceiveQuota(s, all, a);
    case DoExpire(_, _) => ReceiveQuota(s, all, a);
    case DoWorkerExit => ReceiveQuota(s, all, a);
    case DoSendQueued(now, ok) => SendQuota(s, all, now, ok);
    case DoResend(now, timeout, ok) => ResendQuota(s, all, a);
    case DoResendPubrel(_, _, _, _) => AbortQuota(s, all);
    case DoConnect(_) =>
    case DoAbort => AbortQuota(s, all);
    case DoReconnect =>
    case DoStopRequest =>
    case DoStart =>
  }

  // ---------------------------------------------------------------- the claims

  lemma StartQuota(cfg: Config)
    ensures QuotaInv(Start0(cfg), false)
  {
  }

  lemma {:induction false} RunKeepsQuota(cfg: Config, trace: seq<State>, steps: seq<Step>, t: nat)
    requires IsRun(Start0(cfg), trace, steps) && t < |trace|
    ensures QuotaInv(trace[t], false) && trace[t].cfg == cfg
  {
    hide Apply, QuotaOk, Enabled;
    if t == 0 {
      StartQuota(cfg);
    } else {
      RunKeepsQuota(cfg, trace, steps, t - 1);
      assert Takes(trace, steps, t - 1);
      CfgKept(trace[t - 1], steps[t - 1]);
      StepKeepsQuota(trace[t - 1], false, steps[t - 1]);
    }
  }

  lemma {:induction false} RepeatsBound(log: Log)
    ensures Spent(log, false) <= Spent(log, true) <= Spent(log, false) + Repeats(log)
  {
    if log.Snoc? { RepeatsBound(log.past); }
  }

  /** Every reachable state over MQTT 5.0, whatever acknowledgements arrive: the counter
      covers the quota spent and stays within Receive Maximum, so within 16 bits; it is
      the quota spent when acknowledgements match; and timed repeats within the connection
      can spend at most one unit each beyond it. */
  lemma CounterSimulatesQuota(cfg: Config, trace: seq<State>, steps: seq<Step>, t: nat)
    requires IsRun(Start0(cfg), trace, steps) && t < |trace| && cfg.v5
    ensures var s := trace[t];
            && Spent(s.log, false) <= s.count <= s.recvMax < 65536
            && (Matched(s.log) ==> s.count == Spent(s.log, false))
            && Spent(s.log, true) <= s.count + Repeats(s.log)
            && (Repeats(s.log) == 0 ==> Spent(s.log, true) <= s.count)
            && (Repeats(s.log) == 0 && Matched(s.log) ==> Spent(s.log, true) == s.count)
  {
    RunKeepsQuota(cfg, trace, steps, t);
    RepeatsBound(trace[t].log);
  }

  /** The timer repeats an unacknowledged PUBLISH inside a connection without taking
      quota: a step breaks an exact count if and only if it is such a repeat. */
  lemma RepeatBreaksQuota(s: State, a: Step)
    requires s.cfg.v5 && QuotaInv(s, true) && Enabled(s, a) && s.count == Spent(s.log, true)
    ensures Spent(Apply(s, a).log, true) > Apply(s, a).count <==> RepeatsPublish(s, a)
  {
    if !RepeatsPublish(s, a) {
      CfgKept(s, a);
      StepKeepsQuota(s, true, a);
    }
  }

  lemma FirstPublish(s: State)
    requires s == Connect(StartWorker(Start0(Config(true, true))), 1)
    ensures Enabled(s, DoPublish(1, 1, [50], 0, true))
    ensures var x := Item(0, 1, PUBLISH_TYPE, 1, 0, Queued, [50]);
            var r := Apply(s, DoPublish(1, 1, [50], 0, true));
            && r.outbox == [x.(pending := Transmitted)] && r.phase == Connected && r.recvMax == 1 && r.cfg.v5
            && r.log == Snoc(Snoc(Snoc(Empty, Accepted(1, 1)), Enqueued(x, 1, true)), Wrote(x, 1, false))
  {
    assert s.outbox == [] && s.log == Snoc(Empty, Accepted(1, 1));
    FirstIs([Item(0, 1, PUBLISH_TYPE, 1, 0, Queued, [50])], ById(1), 0);
  }

  lemma ThenRepeat(s: State)
    requires var x := Item(0, 1, PUBLISH_TYPE, 1, 0, Queued, [50]);
             && s.outbox == [x.(pending := Transmitted)] && s.phase == Connected && s.recvMax == 1 && s.cfg.v5
             && s.log == Snoc(Snoc(Snoc(Empty, Accepted(1, 1)), Enqueued(x, 1, true)), Wrote(x, 1, false))
    ensures var r := Apply(s, DoResend(10, 5, true)); r.phase == Connected && r.recvMax == 1 && Spent(r.log, true) == 2
  {
    assert First(s.outbox, ByPending(Queued)) == 1;
    assert First(s.outbox, ByPending(Transmitted)) == 0;
    assert Spent(s.log, true) == 1;
  }

  lemma Connects()
    ensures var s0 := Start0(Config(true, true));
            && Enabled(s0, DoStart) && Apply(s0, DoStart) == StartWorker(s0)
            && Enabled(StartWorker(s0), DoConnect(1))
            && Apply(StartWorker(s0), DoConnect(1)) == Connect(StartWorker(s0), 1)
  {
  }

  /** So with Receive Maximum 1, one PUBLISH and its repeat spend two. */
  lemma RepeatExceedsReceiveMaximum() returns (trace: seq<State>, steps: seq<Step>)
    ensures IsRun(Start0(Config(true, true)), trace, steps)
    ensures var s := trace[|steps|]; s.phase == Connected && s.recvMax == 1 && Spent(s.log, true) == 2
  {
    hide Apply, Spent, StartWorker, Connect, Start0;
    var p, q := DoPublish(1, 1, [50], 0, true), DoResend(10, 5, true);
    var s0 := Start0(Config(true, true));
    var s1 := StartWorker(s0);
    var s2 := Connect(s1, 1);
    var s3 := Apply(s2, p);
    Connects();
    FirstPublish(s2);
    ThenRepeat(s3);
    assert Enabled(s3, q);
    steps := [DoStart, DoConnect(1), p, q];
    trace := [s0, s1, s2, s3, Apply(s3, q)];
    hide Enabled;
    assert Takes(trace, steps, 0) && Takes(trace, steps, 1) && Takes(trace, steps, 2) && Takes(trace, steps, 3);
  }
}
