/** The runtime structure of runtime/emqtt.c on the owner's side, updated in place: each
    call is the step of the subscription protocol it stands for. `id` is the SDK's answer
    to the request of the call, `stopOk` whether the SDK could be stopped. */
module Owners {
  import opened Bytes
  import opened TextRules
  import opened Subscriptions

  /** emqtt_suback_valid. */
  method SubackValid(codes: seq<Byte>, items: seq<Sub>, expected: nat) returns (ok: bool)
    requires expected == |items|
    ensures ok <==> Grants(codes, items)
  {
    if expected == 0 || expected > MAX_SUBS || |codes| != expected { return false; }
    for i := 0 to |codes|
      invariant forall j :: 0 <= j < i ==> codes[j] <= 1 && codes[j] <= items[j].qos
    {
      if codes[i] > 1 || codes[i] > items[i].qos { return false; }
    }
    return true;
  }

  class Runtime {
    const list: array<Sub>
    var count: nat
    var stage: Stage
    var started: bool
    var faulted: bool
    var pendingSub: int
    var pendingCount: nat
    var pendingByApp: bool
    var pendingItem: Sub
    var pendingUnsub: int
    var pendingIndex: nat
    var deadline: int
    ghost var log: seq<Entry>

    ghost predicate Valid()
      reads this
    {
      list.Length == MAX_SUBS && count <= MAX_SUBS
    }

    ghost function View(): (s: State)
      reads this, list
      requires Valid()
    {
      State(stage, started, faulted, list[..count], pendingSub, pendingCount, pendingByApp, pendingItem,
            pendingUnsub, pendingIndex, deadline, log)
    }

    /** emqtt_create, for a configuration it accepts. */
    constructor (initial: seq<Sub>)
      requires ListOk(initial)
      ensures Valid() && View() == Created(initial) && fresh(list)
    {
      list := new Sub[MAX_SUBS](i => if 0 <= i < |initial| then initial[i] else Sub([], 0));
      count := |initial|;
      stage, started, faulted, pendingSub, pendingCount := Stopped, false, false, -1, 0;
      pendingByApp, pendingItem, pendingUnsub, pendingIndex, deadline := false, Sub([], 0), -1, 0, 0;
      log := [];
      new;
      assert list[..count] == initial;
    }

    method ClearRequest()
      requires Valid()
      modifies this
      ensures Valid() && View() == ClearPending(old(View()))
    {
      pendingSub, pendingUnsub := -1, -1;
      pendingCount, pendingIndex, pendingByApp := 0, 0, false;
      pendingItem, deadline := Sub([], 0), 0;
    }

    method DrainAll()
      requires Valid()
      modifies this
      ensures Valid() && View() == Drain(old(View()))
    {
      ClearRequest();
      faulted := false;
      log := log + [WentOffline];
    }

    method StopSdk(ok: bool) returns (stopped: bool)
      requires Valid()
      modifies this
      ensures Valid() && View() == Subscriptions.Stop(old(View()), ok)
      ensures stopped <==> ok || !old(started)
    {
      if started {
        if !ok {
          stage := Failed;
          log := log + [HadTrouble];
          return false;
        }
        started := false;
      }
      DrainAll();
      stage := Stopped;
      return true;
    }

    method CloseFailed(ok: bool)
      requires Valid()
      modifies this
      ensures Valid() && View() == FailClosed(old(View()), ok)
    {
      var stopped := StopSdk(ok);
      faulted := true;
      stage := Failed;
    }

    method StartSdk(ready: bool, ok: bool)
      requires Valid()
      modifies this
      ensures Valid() && View() == Start(old(View()), ready, ok)
    {
      if started || !ready { return; }
      DrainAll();
      if !ok { stage := Failed; return; }
      started := true;
      stage := Connecting;
    }

    /** submit_subscriptions, with the whole list or the one pending item. */
    method SubmitList(byApp: bool, id: int, now: int) returns (ok: bool)
      requires Valid()
      modifies this
      ensures Valid()
      ensures var items := if byApp then [old(View()).pendingItem] else old(View()).subs;
              View() == Submit(old(View()), items, byApp, id, now) && (ok <==> items == [] || id > 0)
    {
      var n := if byApp then 1 else count;
      if n == 0 { stage := Ready; return true; }
      if id <= 0 { stage := Failed; return false; }
      ghost var items := if byApp then [pendingItem] else list[..count];
      pendingSub, pendingCount, pendingByApp := id, n, byApp;
      deadline := now + ACK_TIME;
      stage := Subscribing;
      log := log + [Asked(items, id, now + ACK_TIME, byApp)];
      return true;
    }

    method HandleOnline(id: int, now: int, stopOk: bool)
      requires Valid()
      modifies this
      ensures Valid() && View() == OnOnline(old(View()), id, now, stopOk)
    {
      ClearRequest();
      log := log + [WentOnline];
      var ok := SubmitList(false, id, now);
      if !ok { CloseFailed(stopOk); }
    }

    method HandleSuback(ghost initial: seq<Sub>, id: int, codes: seq<Byte>, at: int, stopOk: bool)
      requires Valid() && Inv(initial, View())
      modifies this, list
      ensures Valid() && View() == OnSuback(old(View()), id, codes, at, stopOk)
    {
      ghost var was := View();
      log := log + [Told(id, codes, at)];
      var ok := false;
      if pendingSub > 0 && id == pendingSub && stage == Subscribing {
        ok := SubackValid(codes, if pendingByApp then [pendingItem] else list[..count], pendingCount);
      }
      if !ok {
        CloseFailed(stopOk);
      } else {
        if pendingByApp {
          assert |was.subs + [pendingItem]| <= MAX_SUBS;
          list[count] := pendingItem;
          count := count + 1;
          assert list[..count] == was.subs + [pendingItem];
        }
        stage := Ready;
      }
      ClearRequest();
    }

    /** memmove over the removed entry. */
    method CloseGap(k: nat)
      requires Valid() && k < count
      modifies this`count, list
      ensures Valid() && list[..count] == CutAt(old(list[..count]), k)
    {
      ghost var was := list[..count];
      var i := k;
      while i + 1 < count
        modifies list
        invariant k <= i < count
        invariant forall j :: 0 <= j < i ==> list[j] == was[if j < k then j else j + 1]
        invariant forall j :: i < j < count ==> list[j] == was[j]
      {
        list[i] := list[i + 1];
        i := i + 1;
      }
      count := count - 1;
      assert list[..count] == CutAt(was, k);
    }

    method HandleUnsuback(ghost initial: seq<Sub>, id: int, at: int, stopOk: bool)
      requires Valid() && Inv(initial, View())
      modifies this, list
      ensures Valid() && View() == OnUnsuback(old(View()), id, at, stopOk)
    {
      log := log + [ToldOff(id, at)];
      if pendingUnsub <= 0 || id != pendingUnsub || stage != Subscribing {
        CloseFailed(stopOk);
      } else {
        CloseGap(pendingIndex);
        stage := Ready;
      }
      ClearRequest();
    }

    /** emqtt_poll. */
    method PollOnce(ghost initial: seq<Sub>, overflow: bool, head: Option<Arrival>, now: int, id: int, stopOk: bool)
      requires Valid() && Inv(initial, View())
      modifies this, list
      ensures Valid() && View() == Poll(old(View()), overflow, head, now, id, stopOk)
    {
      hide Inv, OnSuback, OnUnsuback, OnOnline, FailClosed, ClearPending;
      if faulted { return; }
      if overflow { CloseFailed(stopOk); return; }
      if head == None {
        if stage == Subscribing && now >= deadline { CloseFailed(stopOk); }
        return;
      }
      var a := head.value;
      if stage == Subscribing && a.at >= deadline {
        match a.notice {
          case Suback(aid, codes) => log := log + [Told(aid, codes, a.at)];
          case Unsuback(aid) => log := log + [ToldOff(aid, a.at)];
          case _ =>
        }
        CloseFailed(stopOk);
        return;
      }
      match a.notice
      case Online => HandleOnline(id, now, stopOk);
      case Suback(aid, codes) => HandleSuback(initial, aid, codes, a.at, stopOk);
      case Unsuback(aid) => HandleUnsuback(initial, aid, a.at, stopOk);
      case Offline =>
        ClearRequest();
        stage := Disconnected;
        log := log + [WentOffline];
      case Trouble(subscription, fragment) =>
        if subscription {
          CloseFailed(stopOk);
        } else if !fragment {
          stage := Failed;
          log := log + [HadTrouble];
        }
      case Other =>
    }

    /** The search loops of emqtt_subscribe and emqtt_unsubscribe. */
    method Find(filter: seq<Byte>) returns (k: nat)
      requires Valid()
      ensures k == IndexOf(list[..count], filter)
      ensures k < count <==> Knows(list[..count], filter)
    {
      k := 0;
      while k < count && list[k].filter != filter
        invariant k <= count
        invariant forall j :: 0 <= j < k ==> list[j].filter != filter
      {
        k := k + 1;
      }
      IndexUnique(list[..count], filter, k);
    }

    /** emqtt_subscribe. */
    method SubscribeTo(filter: seq<Byte>, qos: nat, id: int, now: int, stopOk: bool) returns (ok: bool)
      requires Valid()
      modifies this
      ensures Valid() && View() == Subscriptions.Subscribe(old(View()), filter, qos, id, now, stopOk)
    {
      hide FailClosed;
      if stage != Ready { return false; }
      ok := TopicValid(filter, true);
      if qos > 1 || !ok || count == MAX_SUBS { return false; }
      var k := Find(filter);
      if k < count { return false; }
      pendingItem := Sub(filter, qos);
      ok := SubmitList(true, id, now);
      if !ok { CloseFailed(stopOk); }
    }

    /** emqtt_unsubscribe. */
    method UnsubscribeFrom(filter: seq<Byte>, id: int, now: int, stopOk: bool) returns (ok: bool)
      requires Valid()
      modifies this
      ensures Valid() && View() == Unsubscribe(old(View()), filter, id, now, stopOk)
    {
      hide FailClosed, TopicOk, Knows;
      if stage != Ready { return false; }
      ok := TopicValid(filter, true);
      if !ok { return; }
      var k := Find(filter);
      if k == count { return false; }
      if id <= 0 { CloseFailed(stopOk); return false; }
      pendingUnsub, pendingIndex, deadline, stage := id, k, now + ACK_TIME, Subscribing;
      log := log + [AskedOff(filter, id, now + ACK_TIME)];
    }
  }

  lemma {:induction false} IndexUnique(items: seq<Sub>, filter: seq<Byte>, k: nat)
    requires k <= |items| && (forall j :: 0 <= j < k ==> items[j].filter != filter)
    requires k < |items| ==> items[k].filter == filter
    ensures IndexOf(items, filter) == k
  {
    if k > 0 { IndexUnique(items[1..], filter, k - 1); }
  }
}
