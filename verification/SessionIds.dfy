/** Where the packet ids of the session come from: one 16-bit counter that every API call
    and every PUBREL for id 0 draws from (append_message_id). An id drawn for a new item
    is in use exactly when a stored item is a multiple of 65535 draws old; so a counter
    gives legal runs as long as no item outlives 65534 draws. */
module SessionIds {
  import opened Bytes
  import opened Outbox
  import opened Connections
  import opened Session

  /** Steps that store an item under a new id. */
  predicate Stores(a: Step) {
    match a
    case DoPublish(_, qos, _, _, _) => qos > 0
    case DoEnqueue(_, qos, _, _, _) => qos > 0
    case DoSubscribe(_, _, _, _, _) => true
    case _ => false
  }

  /** Steps that draw an id: these, and those that compose a PUBREL for id 0. */
  predicate Draws(s: State, a: Step) {
    match a
    case DoReceivePubrec(id, _, _, _) => id == 0
    case DoResendPubrel(now, timeout, _, _) =>
      var k := First(s.outbox, ByPending(Acknowledged));
      s.phase == Connected && k < |s.outbox| && now - s.outbox[k].tick > timeout && s.outbox[k].id == 0
    case _ => Stores(a)
  }

  function NewId(a: Step): (id: nat) {
    match a
    case DoPublish(id, _, _, _, _) => id
    case DoEnqueue(id, _, _, _, _) => id
    case DoSubscribe(id, _, _, _, _) => id
    case DoReceivePubrec(_, _, newId, _) => newId
    case DoResendPubrel(_, _, newId, _) => newId
    case _ => 0
  }

  /** What a step may assume, clashes of ids aside: in an empty outbox there are none. */
  predicate Allowed(s: State, a: Step) {
    Enabled(s.(outbox := []), a)
  }

  lemma EnabledIff(s: State, a: Step)
    ensures Enabled(s, a) <==> Allowed(s, a) && (Stores(a) ==> Unused(s, NewId(a)))
  {
    assert First([], ById(NewId(a))) == 0;
  }

  /** One step whose id, if it draws one, is the last of those drawn so far; packets
      that could not be composed may have drawn others. */
  ghost predicate NumberedStep(trace: seq<State>, steps: seq<Step>, last: nat, drawn: seq<nat>, i: nat)
    requires |trace| == |drawn| == |steps| + 1 && i < |steps| && last < 65536
  {
    && Allowed(trace[i], steps[i]) && trace[i + 1] == Apply(trace[i], steps[i])
    && drawn[i] <= drawn[i + 1]
    && (Draws(trace[i], steps[i]) ==>
          drawn[i] < drawn[i + 1] && NewId(steps[i]) == NthId(last, drawn[i + 1]))
  }

  /** A run that takes its ids from a counter standing at `last`; `drawn[i]` ids are drawn
      before `steps[i]`. Whether they clash is not assumed. */
  ghost predicate Numbered(cfg: Config, trace: seq<State>, steps: seq<Step>, last: nat, drawn: seq<nat>) {
    && last < 65536 && |trace| == |drawn| == |steps| + 1 && trace[0] == Start0(cfg)
    && forall i :: 0 <= i < |steps| ==> NumberedStep(trace, steps, last, drawn, i)
  }

  /** The number of the draw that gave the item with this handle its id. */
  ghost function DrawOf(trace: seq<State>, drawn: seq<nat>, handle: nat, t: nat): (n: nat)
    requires t < |trace| == |drawn|
    decreases t
  {
    if t == 0 then 0
    else if trace[t - 1].nextHandle <= handle < trace[t].nextHandle then drawn[t]
    else DrawOf(trace, drawn, handle, t - 1)
  }

  // ---------------------------------------------------------------- keys of the outbox

  /** Handle and id of each item. */
  function Keys(items: seq<Item>): (keys: set<(nat, nat)>) {
    set x | x in items :: (x.handle, x.id)
  }

  lemma KeyOf(items: seq<Item>, k: nat)
    requires k < |items|
    ensures (items[k].handle, items[k].id) in Keys(items)
  {
    assert items[k] in items;
  }

  lemma KeysAppend(items: seq<Item>, x: Item)
    ensures Keys(items + [x]) == Keys(items) + {(x.handle, x.id)}
  {
    assert x in items + [x];
    forall y | y in items ensures y in items + [x] { }
  }

  lemma KeysRemove(items: seq<Item>, k: nat)
    requires k < |items|
    ensures Keys(RemoveAt(items, k)) <= Keys(items)
  {
  }

  lemma KeysUpdate(items: seq<Item>, k: nat, x: Item)
    requires k < |items| && x.handle == items[k].handle && x.id == items[k].id
    ensures Keys(items[k := x]) <= Keys(items)
  {
    KeyOf(items, k);
    forall y | y in items[k := x] ensures (y.handle, y.id) in Keys(items) {
      if y != x { assert y in items; }
    }
  }

  lemma {:induction false} KeysWithout(items: seq<Item>, q: Query)
    ensures Keys(Without(items, q)) <= Keys(items)
  {
    if items != [] {
      var n := |items| - 1;
      KeysWithout(items[..n], q);
      assert items == items[..n] + [items[n]];
      KeysAppend(items[..n], items[n]);
      KeysAppend(Without(items[..n], q), items[n]);
    }
  }

  lemma KeysMark(items: seq<Item>, id: nat, p: Pending, now: int)
    ensures Keys(SetPendingAt(items, id, p)) <= Keys(items)
    ensures Keys(SetTickAt(items, id, now)) <= Keys(items)
  {
    var k := First(items, ById(id));
    if k < |items| {
      KeysUpdate(items, k, items[k].(pending := p));
      KeysUpdate(items, k, items[k].(tick := now));
    }
  }

  lemma KeysRequeue(items: seq<Item>)
    ensures Keys(RequeueAll(items)) <= Keys(items)
  {
    var r := RequeueAll(items);
    forall x | x in r ensures (x.handle, x.id) in Keys(items) {
      var k :| 0 <= k < |r| && r[k] == x;
      KeyOf(items, k);
    }
  }

  /** Nothing is stored: no new key and no new handle. */
  ghost predicate NoNew(s: State, r: State) {
    Keys(r.outbox) <= Keys(s.outbox) && r.nextHandle == s.nextHandle
  }

  lemma AddKeys(s: State, id: nat, msgType: nat, qos: nat, data: seq<Byte>, tick: int)
    ensures var r := Add(s, id, msgType, qos, data, tick);
            && Keys(r.outbox) == Keys(s.outbox) + {(s.nextHandle, id)} && r.nextHandle == s.nextHandle + 1
            && |r.outbox| > 0
  {
    KeysAppend(s.outbox, Item(s.nextHandle, id, msgType, qos, tick, Queued, data));
  }

  lemma AbortKeys(s: State)
    ensures NoNew(s, Abort(s))
  {
    KeysWithout(s.outbox, ByType(SUBSCRIBE_TYPE));
    KeysWithout(Without(s.outbox, ByType(SUBSCRIBE_TYPE)), ByType(UNSUBSCRIBE_TYPE));
  }

  lemma AfterWriteKeys(s: State, x: Item, now: int)
    ensures NoNew(s, AfterWrite(s, x, now))
  {
    hide Keys;
    var k := First(s.outbox, ByHandle(x.handle));
    if k < |s.outbox| { KeysRemove(s.outbox, k); }
    KeysMark(s.outbox, x.id, Transmitted, now);
    KeysMark(SetTickAt(s.outbox, x.id, now), x.id, Transmitted, now);
  }

  lemma OtherKeys(s: State, a: Step)
    requires !a.DoPublish? && !a.DoEnqueue? && !a.DoSubscribe?
    ensures NoNew(s, Apply(s, a))
  {
    hide Keys, Abort, AfterWrite;
    match a
    case DoReceiveAck(id) =>
      var k := First(s.outbox, ByMessage(id, PUBLISH_TYPE));
      if k < |s.outbox| { KeysRemove(s.outbox, k); }
    case DoReceiveSubAck(id, msgType, ok) =>
      var k := First(s.outbox, ByMessage(id, msgType));
      if k < |s.outbox| {
        KeysRemove(s.outbox, k);
        AbortKeys(Note(s.(outbox := RemoveAt(s.outbox, k)), Left(s.outbox[k], SubAcked)));
      }
    case DoReceivePubrec(id, error, newId, ok) => KeysMark(s.outbox, id, Acknowledged, 0);
    case DoSendQueued(now, ok) =>
      AbortKeys(s);
      if NextQueued(s) < |s.outbox| { AfterWriteKeys(s, s.outbox[NextQueued(s)], now); }
    case DoResend(now, timeout, ok) =>
      var k := First(s.outbox, ByPending(Transmitted));
      if k < |s.outbox| {
        KeysUpdate(s.outbox, k, Dup(s.outbox[k]));
        AbortKeys(s.(outbox := s.outbox[k := Dup(s.outbox[k])]));
      }
    case DoResendPubrel(now, timeout, newId, ok) => AbortKeys(s);
    case DoExpire(now, timeout) =>
      var k := First(s.outbox, ByExpiry(now, timeout));
      if k < |s.outbox| { KeysRemove(s.outbox, k); }
    case DoConnect(recvMax) => KeysRequeue(s.outbox);
    case DoAbort => AbortKeys(s);
    case DoWorkerExit => NoKeys(s.outbox);
    case _ =>
  }

  lemma NoKeys(items: seq<Item>)
    ensures Keys([]) <= Keys(items)
  {
  }

  lemma PublishKeys(s: State, id: nat, qos: nat, data: seq<Byte>, now: int, ok: bool)
    ensures var r := Publish(s, id, qos, data, now, ok);
            && Keys(r.outbox) <= Keys(s.outbox) + (if qos > 0 then {(s.nextHandle, id)} else {})
            && r.nextHandle == s.nextHandle + (if qos > 0 then 1 else 0)
  {
    hide Keys, Add, Abort, AfterWrite;
    if qos > 0 { AddKeys(s, id, PUBLISH_TYPE, qos, data, now); }
    var s1 := if qos > 0 then Add(s, id, PUBLISH_TYPE, qos, data, now) else s;
    AbortKeys(s1);
    if qos > 0 { AfterWriteKeys(s1, s1.outbox[|s1.outbox| - 1], now); }
  }

  lemma SubscribeKeys(s: State, id: nat, msgType: nat, data: seq<Byte>, now: int, ok: bool)
    ensures var r := Subscribe(s, id, msgType, data, now, ok);
            Keys(r.outbox) <= Keys(s.outbox) + {(s.nextHandle, id)} && r.nextHandle == s.nextHandle + 1
  {
    AddKeys(s, id, msgType, 0, data, now);
    var s1 := Add(s, id, msgType, 0, data, now);
    hide Keys, Add;
    KeysMark(s1.outbox, id, Transmitted, 0);
  }

  /** A step adds at most one key: the next handle with its new id, or with id 0. */
  lemma StepKeys(s: State, a: Step)
    requires Allowed(s, a)
    ensures var r := Apply(s, a);
            && s.nextHandle <= r.nextHandle <= s.nextHandle + 1
            && (Stores(a) ==> r.nextHandle == s.nextHandle + 1)
            && Keys(r.outbox) <= Keys(s.outbox) + {(s.nextHandle, if Stores(a) then NewId(a) else 0)}
            && (r.nextHandle == s.nextHandle ==> Keys(r.outbox) <= Keys(s.outbox))
  {
    hide Keys, Add, Publish, Subscribe;
    match a
    case DoPublish(id, qos, data, now, ok) => PublishKeys(s, id, qos, data, now, ok);
    case DoEnqueue(id, qos, data, now, store) =>
      if qos > 0 || store { AddKeys(s, id, PUBLISH_TYPE, qos, data, now); }
    case DoSubscribe(id, msgType, data, now, ok) => SubscribeKeys(s, id, msgType, data, now, ok);
    case _ => OtherKeys(s, a);
  }

  // ---------------------------------------------------------------- ids and draws

  /** Every item with an id carries the id of its own draw. */
  ghost predicate Given(trace: seq<State>, last: nat, drawn: seq<nat>, t: nat)
    requires t < |trace| == |drawn| && last < 65536
  {
    forall key :: key in Keys(trace[t].outbox) ==>
      && key.0 < trace[t].nextHandle
      && (key.1 != 0 ==>
            var n := DrawOf(trace, drawn, key.0, t);
            1 <= n <= drawn[t] && key.1 == NthId(last, n))
  }

  lemma StepGiven(cfg: Config, trace: seq<State>, steps: seq<Step>, last: nat, drawn: seq<nat>, t: nat)
    requires Numbered(cfg, trace, steps, last, drawn) && t < |steps| && Given(trace, last, drawn, t)
    ensures Given(trace, last, drawn, t + 1)
  {
    assert NumberedStep(trace, steps, last, drawn, t);
    StepKeys(trace[t], steps[t]);
    hide Keys, Apply, Allowed, Draws;
    DrawsWhenStores(trace[t], steps[t]);
  }

  lemma DrawsWhenStores(s: State, a: Step)
    ensures Stores(a) ==> Draws(s, a)
  {
  }

  lemma {:induction false} AllGiven(cfg: Config, trace: seq<State>, steps: seq<Step>, last: nat, drawn: seq<nat>,
      t: nat)
    requires Numbered(cfg, trace, steps, last, drawn) && t < |trace|
    ensures Given(trace, last, drawn, t)
  {
    if t > 0 {
      AllGiven(cfg, trace, steps, last, drawn, t - 1);
      hide Given, Numbered;
      StepGiven(cfg, trace, steps, last, drawn, t - 1);
    }
  }

  /** An item stored before `steps[t]` is a multiple of 65535 draws old at that step. */
  ghost predicate WrapsOnto(trace: seq<State>, drawn: seq<nat>, t: nat, x: Item)
    requires t + 1 < |trace| == |drawn|
  {
    x.id != 0 && (drawn[t + 1] - DrawOf(trace, drawn, x.handle, t)) % 65535 == 0
  }

  /** The id a step stores under is in use exactly when the counter has come round to it
      while the item it was first given to is still stored. */
  lemma UnusedIff(cfg: Config, trace: seq<State>, steps: seq<Step>, last: nat, drawn: seq<nat>, t: nat)
    requires Numbered(cfg, trace, steps, last, drawn) && t < |steps| && Stores(steps[t])
    ensures Unused(trace[t], NewId(steps[t])) <==>
            forall x :: x in trace[t].outbox ==> !WrapsOnto(trace, drawn, t, x)
  {
    AllGiven(cfg, trace, steps, last, drawn, t);
    assert NumberedStep(trace, steps, last, drawn, t);
    DrawsWhenStores(trace[t], steps[t]);
    var id := NewId(steps[t]);
    forall x | x in trace[t].outbox ensures x.id == id <==> WrapsOnto(trace, drawn, t, x) {
      assert (x.handle, x.id) in Keys(trace[t].outbox);
      if x.id != 0 { SameIdIff(last, DrawOf(trace, drawn, x.handle, t), drawn[t + 1]); }
    }
    UnusedMeans(trace[t], id);
  }

  lemma SameIdIff(last: nat, j: nat, k: nat)
    requires last < 65536 && 1 <= j <= k
    ensures NthId(last, j) == NthId(last, k) <==> (k - j) % 65535 == 0
  {
    NthIdClosedForm(last, j);
    NthIdClosedForm(last, k);
  }

  lemma UnusedMeans(s: State, id: nat)
    requires id != 0
    ensures Unused(s, id) <==> forall x :: x in s.outbox ==> x.id != id
  {
    var k := First(s.outbox, ById(id));
    if k < |s.outbox| { assert s.outbox[k] in s.outbox; }
  }

  /** A run numbered by the counter is a run of the session if and only if no store
      meets an item a multiple of 65535 draws old. */
  lemma CounterRunIff(cfg: Config, trace: seq<State>, steps: seq<Step>, last: nat, drawn: seq<nat>)
    requires Numbered(cfg, trace, steps, last, drawn)
    ensures IsRun(Start0(cfg), trace, steps) <==>
            forall t, x :: 0 <= t < |steps| && Stores(steps[t]) && x in trace[t].outbox ==>
              !WrapsOnto(trace, drawn, t, x)
  {
    forall t | 0 <= t < |steps|
      ensures Takes(trace, steps, t) <==>
              (Stores(steps[t]) ==> forall x :: x in trace[t].outbox ==> !WrapsOnto(trace, drawn, t, x))
    {
      assert NumberedStep(trace, steps, last, drawn, t);
      EnabledIff(trace[t], steps[t]);
      if Stores(steps[t]) { UnusedIff(cfg, trace, steps, last, drawn, t); }
    }
  }

  /** So it is one while every stored item was given its id within the last 65534 draws. */
  lemma RecentIdsRun(cfg: Config, trace: seq<State>, steps: seq<Step>, last: nat, drawn: seq<nat>)
    requires Numbered(cfg, trace, steps, last, drawn)
    requires forall t, x :: 0 <= t < |steps| && Stores(steps[t]) && x in trace[t].outbox && x.id != 0 ==>
               drawn[t + 1] - DrawOf(trace, drawn, x.handle, t) <= 65534
    ensures IsRun(Start0(cfg), trace, steps)
  {
    CounterRunIff(cfg, trace, steps, last, drawn);
    forall t, x | 0 <= t < |steps| && Stores(steps[t]) && x in trace[t].outbox
      ensures !WrapsOnto(trace, drawn, t, x)
    {
      AllGiven(cfg, trace, steps, last, drawn, t);
      assert NumberedStep(trace, steps, last, drawn, t);
      assert (x.handle, x.id) in Keys(trace[t].outbox);
      DrawsWhenStores(trace[t], steps[t]);
    }
  }

  /** The bound is exact: an item stored under id 1, 65534 packets that could not be
      composed, and the next item gets id 1 as well. */
  lemma IdComesRound(cfg: Config) returns (trace: seq<State>, steps: seq<Step>, drawn: seq<nat>)
    ensures Numbered(cfg, trace, steps, 0, drawn) && !IsRun(Start0(cfg), trace, steps)
  {
    var s0 := Start0(cfg);
    var a := DoEnqueue(1, 1, [0x32], 0, true);
    var s1 := Apply(s0, a);
    steps, trace, drawn := [a, a], [s0, s1, Apply(s1, a)], [0, 1, 65536];
    NthIdClosedForm(0, 1);
    NthIdClosedForm(0, 65536);
    assert NumberedStep(trace, steps, 0, drawn, 0) && NumberedStep(trace, steps, 0, drawn, 1);
    assert !Takes(trace, steps, 1);
  }
}
