/** The owner side of runtime/emqtt.c: the desired subscription list changes only when the
    broker's matching acknowledgement arrived in time, and READY means that the broker has
    granted exactly that list. */
module Subscriptions {
  import opened Bytes
  import opened TextRules

  const MAX_SUBS: nat := 8
  const ACK_TIME: int := 10000000

  datatype Sub = Sub(filter: seq<Byte>, qos: nat)

  datatype Stage = Stopped | Connecting | Subscribing | Ready | Disconnected | Failed

  /** A notice from the SDK callback; `codes` are the SUBACK return codes, empty when their
      number was not between 1 and 8. */
  datatype OwnerNotice =
    | Online
    | Suback(id: int, codes: seq<Byte>)
    | Unsuback(id: int)
    | Offline
    | Trouble(subscription: bool, fragment: bool)
    | Other

  datatype Arrival = Arrival(notice: OwnerNotice, at: int)

  // ---------------------------------------------------------------- the log and its meaning

  /** What the owner asked the SDK for, and what it was told, in order. */
  datatype Entry =
    | WentOnline
    | WentOffline
    | HadTrouble
    | Asked(items: seq<Sub>, id: int, deadline: int, byApp: bool)  // one SUBSCRIBE
    | AskedOff(filter: seq<Byte>, id: int, deadline: int)          // one UNSUBSCRIBE
    | Told(id: int, codes: seq<Byte>, at: int)                     // SUBACK
    | ToldOff(id: int, at: int)                                    // UNSUBACK

  datatype Request = Add(items: seq<Sub>, id: int, deadline: int, byApp: bool)
      | Remove(filter: seq<Byte>, id: int, deadline: int)

  datatype Meaning = Meaning(desired: seq<Sub>, granted: seq<Sub>, open: Option<Request>)

  /** Each code grants QoS 0 or 1, no more than asked for. */
  predicate Grants(codes: seq<Byte>, items: seq<Sub>) {
    1 <= |items| == |codes| <= MAX_SUBS && forall i :: 0 <= i < |items| ==> codes[i] <= 1 && codes[i] <= items[i].qos
  }

  function WithoutFilter(items: seq<Sub>, filter: seq<Byte>): (r: seq<Sub>)
    ensures |r| <= |items|
  {
    if items == [] then []
    else
      var n := |items| - 1;
      WithoutFilter(items[..n], filter) + if items[n].filter == filter then [] else [items[n]]
  }

  /** The desired list, the filters granted in this connection and the request in flight,
      by the protocol alone: an acknowledgement counts when it answers the request in
      flight by id, before its deadline, and grants every filter asked for. */
  function Read(initial: seq<Sub>, log: seq<Entry>): (m: Meaning) {
    if log == [] then Meaning(initial, [], None)
    else
      var m, e := Read(initial, log[..|log| - 1]), log[|log| - 1];
      match e
      case WentOnline => Meaning(m.desired, [], None)
      case WentOffline => Meaning(m.desired, [], None)
      case HadTrouble => m.(open := None)
      case Asked(items, id, deadline, byApp) => m.(open := Some(Add(items, id, deadline, byApp)))
      case AskedOff(filter, id, deadline) => m.(open := Some(Remove(filter, id, deadline)))
      case Told(id, codes, at) =>
        if m.open.Some? && m.open.value.Add? && m.open.value.id == id && at < m.open.value.deadline
            && Grants(codes, m.open.value.items)
        then Meaning(if m.open.value.byApp then m.desired + m.open.value.items else m.desired,
                     m.granted + m.open.value.items, None)
        else m.(open := None)
      case ToldOff(id, at) =>
        if m.open.Some? && m.open.value.Remove? && m.open.value.id == id && at < m.open.value.deadline
        then Meaning(WithoutFilter(m.desired, m.open.value.filter), WithoutFilter(m.granted, m.open.value.filter), None)
        else m.(open := None)
  }

  /** Every SUBSCRIBE that the runtime sends by itself carries the list desired by then. */
  predicate ReconnectsOk(initial: seq<Sub>, log: seq<Entry>) {
    log == [] ||
    (var p, e := log[..|log| - 1], log[|log| - 1];
     ReconnectsOk(initial, p) && (e.Asked? && !e.byApp ==> e.items == Read(initial, p).desired))
  }

  // ---------------------------------------------------------------- the state

  datatype State = State(
    stage: Stage,
    started: bool,
    faulted: bool,
    subs: seq<Sub>,
    pendingSub: int,
    pendingCount: nat,
    pendingByApp: bool,
    pendingItem: Sub,
    pendingUnsub: int,
    pendingIndex: nat,
    deadline: int,
    log: seq<Entry>)

  function Note(s: State, e: Entry): (r: State) {
    s.(log := s.log + [e])
  }

  function ClearPending(s: State): (r: State) {
    s.(pendingSub := -1, pendingUnsub := -1, pendingCount := 0, pendingIndex := 0, pendingByApp := false,
       pendingItem := Sub([], 0), deadline := 0)
  }

  /** drain, as far as subscriptions go. */
  function Drain(s: State): (r: State) {
    Note(ClearPending(s).(faulted := false), WentOffline)
  }

  /** A stop that fails leaves the session up, but ends the request in flight. */
  function Stop(s: State, ok: bool): (r: State) {
    if s.started && !ok then Note(s.(stage := Failed), HadTrouble)
    else Drain(s).(started := false, stage := Stopped)
  }

  function FailClosed(s: State, ok: bool): (r: State) {
    Stop(s, ok).(faulted := true, stage := Failed)
  }

  function Start(s: State, ready: bool, ok: bool): (r: State) {
    if s.started || !ready then s
    else if ok then Drain(s).(started := true, stage := Connecting) else Drain(s).(stage := Failed)
  }

  /** submit_subscriptions; `id` is what the SDK answers. */
  function Submit(s: State, items: seq<Sub>, byApp: bool, id: int, now: int): (r: State) {
    if items == [] then s.(stage := Ready)
    else if id <= 0 then s.(stage := Failed)
    else Note(s.(pendingSub := id, pendingCount := |items|, pendingByApp := byApp, deadline := now + ACK_TIME,
        stage := Subscribing),
              Asked(items, id, now + ACK_TIME, byApp))
  }

  function OnOnline(s: State, id: int, now: int, stopOk: bool): (r: State) {
    var t := Submit(Note(ClearPending(s), WentOnline), s.subs, false, id, now);
    if s.subs != [] && id <= 0 then FailClosed(t, stopOk) else t
  }

  function OnSuback(s: State, id: int, codes: seq<Byte>, at: int, stopOk: bool): (r: State) {
    var items := if s.pendingByApp then [s.pendingItem] else s.subs;
    var t := Note(s, Told(id, codes, at));
    if s.pendingSub <= 0 || id != s.pendingSub || s.stage != Subscribing || |codes| != s.pendingCount
        || !Grants(codes, items)
    then ClearPending(FailClosed(t, stopOk))
    else ClearPending(t.(stage := Ready, subs := if s.pendingByApp then s.subs + [s.pendingItem] else s.subs))
  }

  function CutAt(items: seq<Sub>, k: nat): (r: seq<Sub>) {
    if k < |items| then items[..k] + items[k + 1..] else items
  }

  function OnUnsuback(s: State, id: int, at: int, stopOk: bool): (r: State) {
    var t := Note(s, ToldOff(id, at));
    if s.pendingUnsub <= 0 || id != s.pendingUnsub || s.stage != Subscribing then ClearPending(FailClosed(t, stopOk))
    else ClearPending(t.(stage := Ready, subs := CutAt(s.subs, s.pendingIndex)))
  }

  /** A notice that comes after the deadline of the request in flight. */
  function OnLate(s: State, a: Arrival, stopOk: bool): (r: State) {
    var t := match a.notice
             case Suback(id, codes) => Note(s, Told(id, codes, a.at))
             case Unsuback(id) => Note(s, ToldOff(id, a.at))
             case _ => s;
    FailClosed(t, stopOk)
  }

  /** emqtt_poll with the overflow flag and the head of the notice queue. */
  function Poll(s: State, overflow: bool, head: Option<Arrival>, now: int, id: int, stopOk: bool): (r: State) {
    if s.faulted then s
    else if overflow then FailClosed(s, stopOk)
    else match head
      case None => if s.stage == Subscribing && now >= s.deadline then FailClosed(s, stopOk) else s
      case Some(a) =>
        if s.stage == Subscribing && a.at >= s.deadline then OnLate(s, a, stopOk)
        else match a.notice
          case Online => OnOnline(s, id, now, stopOk)
          case Suback(aid, codes) => OnSuback(s, aid, codes, a.at, stopOk)
          case Unsuback(aid) => OnUnsuback(s, aid, a.at, stopOk)
          case Offline => Note(ClearPending(s).(stage := Disconnected), WentOffline)
          case Trouble(subscription, fragment) =>
            if subscription then FailClosed(s, stopOk)
            else if fragment then s
            else Note(s.(stage := Failed), HadTrouble)
          case Other => s
  }

  predicate Knows(items: seq<Sub>, filter: seq<Byte>) {
    exists i :: 0 <= i < |items| && items[i].filter == filter
  }

  /** emqtt_subscribe. */
  ghost function Subscribe(s: State, filter: seq<Byte>, qos: nat, id: int, now: int, stopOk: bool): (r: State) {
    if s.stage != Ready || qos > 1 || !TopicOk(filter, true) || |s.subs| == MAX_SUBS || Knows(s.subs, filter) then s
    else
      var t := Submit(s.(pendingItem := Sub(filter, qos)), [Sub(filter, qos)], true, id, now);
      if id <= 0 then FailClosed(t, stopOk) else t
  }

  function IndexOf(items: seq<Sub>, filter: seq<Byte>): (k: nat)
    ensures k <= |items| && (k < |items| ==> items[k].filter == filter)
    ensures forall j :: 0 <= j < k ==> items[j].filter != filter
  {
    if items == [] || items[0].filter == filter then 0 else 1 + IndexOf(items[1..], filter)
  }

  /** emqtt_unsubscribe. */
  ghost function Unsubscribe(s: State, filter: seq<Byte>, id: int, now: int, stopOk: bool): (r: State) {
    var k := IndexOf(s.subs, filter);
    if s.stage != Ready || !TopicOk(filter, true) || k == |s.subs| then s
    else if id <= 0 then FailClosed(s, stopOk)
    else Note(s.(pendingUnsub := id, pendingIndex := k, deadline := now + ACK_TIME, stage := Subscribing),
              AskedOff(filter, id, now + ACK_TIME))
  }

  // ---------------------------------------------------------------- the invariant

  /** What emqtt_config_valid demands of the configured list, and every list keeps. */
  ghost predicate ListOk(items: seq<Sub>) {
    && |items| <= MAX_SUBS
    && (forall i :: 0 <= i < |items| ==> items[i].qos <= 1 && TopicOk(items[i].filter, true))
    && (forall i, j :: 0 <= i < j < |items| ==> items[i].filter != items[j].filter)
  }

  predicate NothingPending(s: State) { s.pendingSub <= 0 && s.pendingUnsub <= 0 }

  /** The request in flight is the one the pending fields describe. */
  predicate PendingMatches(s: State, m: Meaning) {
    if s.pendingSub > 0 then
      && s.pendingUnsub <= 0
      && (var items := if s.pendingByApp then [s.pendingItem] else s.subs;
          m.open == Some(Add(items, s.pendingSub, s.deadline, s.pendingByApp)) && s.pendingCount == |items|)
      && m.granted == (if s.pendingByApp then s.subs else [])
    else
      && s.pendingUnsub > 0 && s.pendingIndex < |s.subs|
      && m.open == Some(Remove(s.subs[s.pendingIndex].filter, s.pendingUnsub, s.deadline))
      && m.granted == s.subs
  }

  ghost predicate Inv(initial: seq<Sub>, s: State) {
    var m := Read(initial, s.log);
    && ListOk(s.subs) && m.desired == s.subs && ReconnectsOk(initial, s.log)
    && (s.stage != Subscribing ==> m.open == None)
    && (s.stage == Ready ==> !s.faulted && NothingPending(s) && m.granted == s.subs)
    && (s.stage == Subscribing ==>
          && !s.faulted && PendingMatches(s, m)
          && (s.pendingSub > 0 && s.pendingByApp ==> ListOk(s.subs + [s.pendingItem])))
  }

  function Created(initial: seq<Sub>): (s: State) {
    State(Stopped, false, false, initial, -1, 0, false, Sub([], 0), -1, 0, 0, [])
  }

  // ---------------------------------------------------------------- steps keep it

  lemma ReadNote(initial: seq<Sub>, s: State, e: Entry)
    ensures Note(s, e).log[..|Note(s, e).log| - 1] == s.log
  {
  }

  lemma StopKeeps(initial: seq<Sub>, t: State, ok: bool)
    requires ListOk(t.subs) && Read(initial, t.log).desired == t.subs && ReconnectsOk(initial, t.log)
    ensures Inv(initial, Stop(t, ok)) && Inv(initial, FailClosed(t, ok))
    ensures Inv(initial, ClearPending(FailClosed(t, ok)))
  {
    ReadNote(initial, ClearPending(t).(faulted := false), WentOffline);
    ReadNote(initial, t.(stage := Failed), HadTrouble);
  }

  lemma OnlineKeeps(initial: seq<Sub>, s: State, id: int, now: int, stopOk: bool)
    requires Inv(initial, s) && !s.faulted
    ensures Inv(initial, OnOnline(s, id, now, stopOk))
  {
    hide ListOk;
    var u := Note(ClearPending(s), WentOnline);
    assert u.log[..|u.log| - 1] == s.log && u.log[|u.log| - 1] == WentOnline;
    assert Read(initial, u.log) == Meaning(s.subs, [], None);
    var t := Submit(u, s.subs, false, id, now);
    if s.subs != [] && id <= 0 {
      StopKeeps(initial, t, stopOk);
    } else if s.subs != [] {
      var e := Asked(s.subs, id, now + ACK_TIME, false);
      assert t.log[..|t.log| - 1] == u.log && t.log[|t.log| - 1] == e;
      assert ReconnectsOk(initial, u.log);
    } else {
      assert t == u.(stage := Ready) && ReconnectsOk(initial, u.log);
    }
  }

  lemma SubackKeeps(initial: seq<Sub>, s: State, id: int, codes: seq<Byte>, at: int, stopOk: bool)
    requires Inv(initial, s) && !s.faulted && (s.stage == Subscribing ==> at < s.deadline)
    ensures Inv(initial, OnSuback(s, id, codes, at, stopOk))
  {
    hide ListOk;
    var t := Note(s, Told(id, codes, at));
    ReadNote(initial, s, Told(id, codes, at));
    var items := if s.pendingByApp then [s.pendingItem] else s.subs;
    if s.pendingSub <= 0 || id != s.pendingSub || s.stage != Subscribing || |codes| != s.pendingCount
        || !Grants(codes, items) {
      StopKeeps(initial, t, stopOk);
    } else {
      assert [] + s.subs == s.subs;
    }
  }

  lemma {:induction false} WithoutAbsent(items: seq<Sub>, filter: seq<Byte>)
    requires forall i :: 0 <= i < |items| ==> items[i].filter != filter
    ensures WithoutFilter(items, filter) == items
  {
    if items != [] {
      WithoutAbsent(items[..|items| - 1], filter);
      assert items == items[..|items| - 1] + [items[|items| - 1]];
    }
  }

  lemma WithoutSnoc(a: seq<Sub>, x: Sub, filter: seq<Byte>)
    ensures WithoutFilter(a + [x], filter) ==
            if x.filter == filter then WithoutFilter(a, filter) else WithoutFilter(a, filter) + [x]
  {
    assert (a + [x])[..|a|] == a && WithoutFilter(a, filter) + [] == WithoutFilter(a, filter);
  }

  lemma CutSnoc(a: seq<Sub>, x: Sub, k: nat)
    requires k <= |a|
    ensures CutAt(a + [x], k) == if k == |a| then a else CutAt(a, k) + [x]
  {
  }

  /** Removing by position is removing by name. */
  lemma {:induction false} CutIsWithout(items: seq<Sub>, k: nat)
    requires k < |items| && forall i, j :: 0 <= i < j < |items| ==> items[i].filter != items[j].filter
    ensures WithoutFilter(items, items[k].filter) == CutAt(items, k)
  {
    hide WithoutFilter, CutAt;
    var n := |items| - 1;
    var a, x := items[..n], items[n];
    assert items == a + [x];
    WithoutSnoc(a, x, items[k].filter);
    CutSnoc(a, x, k);
    if k == n { WithoutAbsent(a, x.filter); } else { CutIsWithout(a, k); }
  }

  lemma CutListOk(items: seq<Sub>, k: nat)
    requires ListOk(items) && k < |items|
    ensures ListOk(CutAt(items, k))
  {
    var r := CutAt(items, k);
    forall i | 0 <= i < |r| ensures r[i].qos <= 1 && TopicOk(r[i].filter, true) {
      assert r[i] == items[if i < k then i else i + 1];
    }
  }

  lemma UnsubackCommits(initial: seq<Sub>, s: State, id: int, at: int)
    requires Inv(initial, s) && s.stage == Subscribing && at < s.deadline && s.pendingUnsub > 0 && id == s.pendingUnsub
    ensures Inv(initial, ClearPending(Note(s, ToldOff(id, at)).(stage := Ready, subs := CutAt(s.subs, s.pendingIndex))))
  {
    ReadNote(initial, s, ToldOff(id, at));
    CutIsWithout(s.subs, s.pendingIndex);
    CutListOk(s.subs, s.pendingIndex);
    hide ListOk, WithoutFilter, CutAt;
  }

  lemma UnsubackKeeps(initial: seq<Sub>, s: State, id: int, at: int, stopOk: bool)
    requires Inv(initial, s) && !s.faulted && (s.stage == Subscribing ==> at < s.deadline)
    ensures Inv(initial, OnUnsuback(s, id, at, stopOk))
  {
    if s.pendingUnsub <= 0 || id != s.pendingUnsub || s.stage != Subscribing {
      UnsubackRefused(initial, s, id, at);
      hide Inv, FailClosed, ClearPending, Read, ReconnectsOk, ListOk;
      StopKeeps(initial, Note(s, ToldOff(id, at)), stopOk);
    } else {
      hide Inv, ClearPending;
      UnsubackCommits(initial, s, id, at);
    }
  }

  lemma UnsubackRefused(initial: seq<Sub>, s: State, id: int, at: int)
    requires Inv(initial, s) && (s.pendingUnsub <= 0 || id != s.pendingUnsub || s.stage != Subscribing)
    ensures var t := Note(s, ToldOff(id, at));
            ListOk(t.subs) && Read(initial, t.log).desired == t.subs && ReconnectsOk(initial, t.log)
  {
    hide ListOk;
    ReadNote(initial, s, ToldOff(id, at));
  }

  lemma FailKeeps(initial: seq<Sub>, s: State, ok: bool)
    requires Inv(initial, s)
    ensures Inv(initial, FailClosed(s, ok)) && Inv(initial, Stop(s, ok))
  {
    assert ListOk(s.subs) && Read(initial, s.log).desired == s.subs && ReconnectsOk(initial, s.log);
    hide Inv, ListOk, Read, ReconnectsOk;
    StopKeeps(initial, s, ok);
  }

  /** A late acknowledgement changes neither list. */
  lemma LateEntry(initial: seq<Sub>, s: State, e: Entry)
    requires Inv(initial, s) && s.stage == Subscribing
    requires (e.Told? || e.ToldOff?) && e.at >= s.deadline
    ensures Read(initial, Note(s, e).log).desired == s.subs && ReconnectsOk(initial, Note(s, e).log)
  {
    hide ListOk;
    ReadNote(initial, s, e);
  }

  lemma LateKeeps(initial: seq<Sub>, s: State, a: Arrival, stopOk: bool)
    requires Inv(initial, s) && s.stage == Subscribing && a.at >= s.deadline
    ensures var r := OnLate(s, a, stopOk);
            Inv(initial, r) && r.subs == s.subs && Read(initial, r.log).desired == Read(initial, s.log).desired
                && r.faulted
  {
    match a.notice {
      case Suback(id, codes) => LateEntry(initial, s, Told(id, codes, a.at));
      case Unsuback(id) => LateEntry(initial, s, ToldOff(id, a.at));
      case _ =>
    }
    var t := match a.notice
             case Suback(id, codes) => Note(s, Told(id, codes, a.at))
             case Unsuback(id) => Note(s, ToldOff(id, a.at))
             case _ => s;
    assert ListOk(t.subs) && Read(initial, t.log).desired == t.subs && ReconnectsOk(initial, t.log);
    StopKeeps(initial, t, stopOk);
    hide ListOk, Read, ReconnectsOk;
  }

  lemma PollKeeps(initial: seq<Sub>, s: State, overflow: bool, head: Option<Arrival>, now: int, id: int, stopOk: bool)
    requires Inv(initial, s)
    ensures Inv(initial, Poll(s, overflow, head, now, id, stopOk))
  {
    hide Inv, OnOnline, OnSuback, OnUnsuback, OnLate, FailClosed, ClearPending;
    if s.faulted { return; }
    FailKeeps(initial, s, stopOk);
    if overflow || head == None { return; }
    var a := head.value;
    if s.stage == Subscribing && a.at >= s.deadline {
      LateKeeps(initial, s, a, stopOk);
      return;
    }
    match a.notice
    case Online => OnlineKeeps(initial, s, id, now, stopOk);
    case Suback(aid, codes) => SubackKeeps(initial, s, aid, codes, a.at, stopOk);
    case Unsuback(aid) => UnsubackKeeps(initial, s, aid, a.at, stopOk);
    case Offline => OfflineKeeps(initial, s);
    case Trouble(_, _) => TroubleKeeps(initial, s);
    case Other =>
  }

  lemma OfflineKeeps(initial: seq<Sub>, s: State)
    requires Inv(initial, s)
    ensures Inv(initial, Note(ClearPending(s).(stage := Disconnected), WentOffline))
  {
    hide ListOk;
    ReadNote(initial, ClearPending(s).(stage := Disconnected), WentOffline);
  }

  lemma TroubleKeeps(initial: seq<Sub>, s: State)
    requires Inv(initial, s)
    ensures Inv(initial, Note(s.(stage := Failed), HadTrouble))
  {
    hide ListOk;
    ReadNote(initial, s.(stage := Failed), HadTrouble);
  }

  lemma SubscribeKeeps(initial: seq<Sub>, s: State, filter: seq<Byte>, qos: nat, id: int, now: int, stopOk: bool)
    requires Inv(initial, s)
    ensures Inv(initial, Subscribe(s, filter, qos, id, now, stopOk))
  {
    if s.stage != Ready || qos > 1 || !TopicOk(filter, true) || |s.subs| == MAX_SUBS
        || Knows(s.subs, filter) { return; }
    var x := Sub(filter, qos);
    assert ListOk(s.subs + [x]);
    hide ListOk;
    var u := s.(pendingItem := x);
    var t := Submit(u, [x], true, id, now);
    if id <= 0 {
      StopKeeps(initial, t, stopOk);
      hide FailClosed, Inv;
    } else {
      AskKeeps(initial, u, x, id, now);
    }
  }

  lemma AskKeeps(initial: seq<Sub>, u: State, x: Sub, id: int, now: int)
    requires Inv(initial, u) && u.stage == Ready && ListOk(u.subs + [x]) && u.pendingItem == x && id > 0
    ensures Inv(initial, Submit(u, [x], true, id, now))
  {
    hide ListOk;
    var r := Submit(u, [x], true, id, now);
    assert r.log[..|r.log| - 1] == u.log && r.log[|r.log| - 1] == Asked([x], id, now + ACK_TIME, true);
    assert Read(initial, r.log) == Read(initial, u.log).(open := Some(Add([x], id, now + ACK_TIME, true)));
  }

  lemma UnsubscribeKeeps(initial: seq<Sub>, s: State, filter: seq<Byte>, id: int, now: int, stopOk: bool)
    requires Inv(initial, s)
    ensures Inv(initial, Unsubscribe(s, filter, id, now, stopOk))
  {
    hide Inv, FailClosed;
    var k := IndexOf(s.subs, filter);
    if s.stage == Ready && k < |s.subs| {
      if id <= 0 { FailKeeps(initial, s, stopOk); } else { AskOffKeeps(initial, s, k, id, now); }
    }
  }

  lemma AskOffKeeps(initial: seq<Sub>, s: State, k: nat, id: int, now: int)
    requires Inv(initial, s) && s.stage == Ready && k < |s.subs| && id > 0
    ensures Inv(initial,
            Note(s.(pendingUnsub := id, pendingIndex := k, deadline := now + ACK_TIME, stage := Subscribing),
                              AskedOff(s.subs[k].filter, id, now + ACK_TIME)))
  {
    hide ListOk;
    var u := s.(pendingUnsub := id, pendingIndex := k, deadline := now + ACK_TIME, stage := Subscribing);
    ReadNote(initial, u, AskedOff(s.subs[k].filter, id, now + ACK_TIME));
  }

  lemma DrainKeeps(initial: seq<Sub>, s: State)
    requires Inv(initial, s)
    ensures Inv(initial, Drain(s).(stage := Failed)) && Inv(initial, Drain(s).(started := true, stage := Connecting))
  {
    hide ListOk;
    ReadNote(initial, ClearPending(s).(faulted := false), WentOffline);
  }

  // ---------------------------------------------------------------- runs

  datatype Step =
    | DoStart(ready: bool, ok: bool)
    | DoStop(ok: bool)
    | DoPoll(overflow: bool, head: Option<Arrival>, now: int, id: int, stopOk: bool)
    | DoSubscribe(filter: seq<Byte>, qos: nat, id: int, now: int, stopOk: bool)
    | DoUnsubscribe(filter: seq<Byte>, id: int, now: int, stopOk: bool)

  ghost function Apply(s: State, a: Step): (r: State) {
    match a
    case DoStart(ready, ok) => Start(s, ready, ok)
    case DoStop(ok) => Stop(s, ok)
    case DoPoll(overflow, head, now, id, stopOk) => Poll(s, overflow, head, now, id, stopOk)
    case DoSubscribe(filter, qos, id, now, stopOk) => Subscribe(s, filter, qos, id, now, stopOk)
    case DoUnsubscribe(filter, id, now, stopOk) => Unsubscribe(s, filter, id, now, stopOk)
  }

  ghost predicate Takes(trace: seq<State>, steps: seq<Step>, i: nat)
    requires |trace| == |steps| + 1 && i < |steps|
  {
    trace[i + 1] == Apply(trace[i], steps[i])
  }

  /** A run from creation: `trace[i]` is the state before `steps[i]`. */
  ghost predicate IsRun(initial: seq<Sub>, trace: seq<State>, steps: seq<Step>) {
    && |trace| == |steps| + 1 && trace[0] == Created(initial)
    && forall i :: 0 <= i < |steps| ==> Takes(trace, steps, i)
  }

  lemma StepKeeps(initial: seq<Sub>, s: State, a: Step)
    requires Inv(initial, s)
    ensures Inv(initial, Apply(s, a))
  {
    hide Inv, Subscribe, Unsubscribe, Poll, Drain, Stop;
    match a
    case DoStart(ready, ok) => DrainKeeps(initial, s);
    case DoStop(ok) => FailKeeps(initial, s, ok);
    case DoPoll(overflow, head, now, id, stopOk) => PollKeeps(initial, s, overflow, head, now, id, stopOk);
    case DoSubscribe(filter, qos, id, now, stopOk) => SubscribeKeeps(initial, s, filter, qos, id, now, stopOk);
    case DoUnsubscribe(filter, id, now, stopOk) => UnsubscribeKeeps(initial, s, filter, id, now, stopOk);
  }

  lemma {:induction false} RunKeeps(initial: seq<Sub>, trace: seq<State>, steps: seq<Step>, t: nat)
    requires ListOk(initial) && IsRun(initial, trace, steps) && t < |trace|
    ensures Inv(initial, trace[t])
  {
    hide ListOk, Apply;
    if t > 0 {
      RunKeeps(initial, trace, steps, t - 1);
      assert Takes(trace, steps, t - 1);
      StepKeeps(initial, trace[t - 1], steps[t - 1]);
    }
  }

  /** Over every run: the list is the configured one changed by matching, granted,
      in-time acknowledgements only; it keeps at most eight valid, distinct filters;
      every reconnect submits exactly it; and READY means that nothing is pending and the
      filters granted since the connection are exactly the list. */
  lemma ReadyMeansGranted(initial: seq<Sub>, trace: seq<State>, steps: seq<Step>, t: nat)
    requires ListOk(initial) && IsRun(initial, trace, steps) && t < |trace|
    ensures var s := trace[t];
            && Read(initial, s.log).desired == s.subs && ListOk(s.subs)
            && ReconnectsOk(initial, s.log)
            && (s.stage == Ready ==>
                 NothingPending(s) && Read(initial, s.log).open == None && Read(initial, s.log).granted == s.subs)
  {
    RunKeeps(initial, trace, steps, t);
  }
}
