/** What every poll, request, start and stop of the owner leads to, read from the log alone:
    READY is reached by the acknowledgement asked for and by nothing else, and every other
    acknowledgement ends the session. */
module SubscriptionSteps {
  import opened Bytes
  import opened TextRules
  import opened Subscriptions

  /** The session has been ended for good; the list is kept. */
  predicate Closed(s: State, r: State) {
    r.faulted && r.stage == Failed && r.subs == s.subs && NothingPending(r)
  }

  lemma FailCloses(s: State, ok: bool)
    ensures var r := ClearPending(FailClosed(s, ok)); Closed(s, r)
    ensures var r := FailClosed(s, ok); r.faulted && r.stage == Failed && r.subs == s.subs
  {
  }

  /** The SUBACK answers the request in flight by id, before its deadline, and grants every
      filter asked for. */
  predicate Answers(m: Meaning, id: int, codes: seq<Byte>, at: int) {
    && m.open.Some? && m.open.value.Add? && m.open.value.id == id && at < m.open.value.deadline
    && var items := m.open.value.items;
       && 1 <= |codes| == |items| <= 8
       && forall i :: 0 <= i < |items| ==> codes[i] <= 1 && codes[i] <= items[i].qos
  }

  /** The UNSUBACK does. */
  predicate AnswersOff(m: Meaning, id: int, at: int) {
    m.open.Some? && m.open.value.Remove? && m.open.value.id == id && at < m.open.value.deadline
  }

  // ---------------------------------------------------------------- acknowledgements

  /** A SUBACK that arrives in time: the pending fields say what the log says. */
  lemma SubackCase(initial: seq<Sub>, s: State, id: int, codes: seq<Byte>, at: int)
    requires Inv(initial, s) && !s.faulted && (s.stage == Subscribing ==> at < s.deadline)
    ensures var items := if s.pendingByApp then [s.pendingItem] else s.subs;
            Answers(Read(initial, s.log), id, codes, at) <==>
            s.pendingSub > 0 && id == s.pendingSub && s.stage == Subscribing && |codes| == s.pendingCount
            && Grants(codes, items)
    ensures Answers(Read(initial, s.log), id, codes, at) ==>
              s.subs + (if Read(initial, s.log).open.value.byApp then Read(initial, s.log).open.value.items else [])
              == if s.pendingByApp then s.subs + [s.pendingItem] else s.subs
  {
    hide ListOk, Read, ReconnectsOk;
    assert s.subs + [] == s.subs;
  }

  lemma SubackDoes(initial: seq<Sub>, s: State, id: int, codes: seq<Byte>, at: int, now: int, n: int, stopOk: bool)
    requires Inv(initial, s) && !s.faulted
    ensures var r := Poll(s, false, Some(Arrival(Suback(id, codes), at)), now, n, stopOk);
            var m := Read(initial, s.log);
            if Answers(m, id, codes, at) then
              r.stage == Ready && !r.faulted
              && r.subs == m.desired + (if m.open.value.byApp then m.open.value.items else [])
            else r.faulted && r.stage == Failed && r.subs == m.desired
  {
    if s.stage == Subscribing && at >= s.deadline {
      LateIsNoAnswer(initial, s, id, codes, at);
      LateKeeps(initial, s, Arrival(Suback(id, codes), at), stopOk);
      FailCloses(Note(s, Told(id, codes, at)), stopOk);
    } else {
      SubackCase(initial, s, id, codes, at);
      FailCloses(Note(s, Told(id, codes, at)), stopOk);
    }
    assert Read(initial, s.log).desired == s.subs;
    hide Read, Inv, FailClosed, Grants;
  }

  lemma LateIsNoAnswer(initial: seq<Sub>, s: State, id: int, codes: seq<Byte>, at: int)
    requires Inv(initial, s) && s.stage == Subscribing && at >= s.deadline
    ensures !Answers(Read(initial, s.log), id, codes, at) && !AnswersOff(Read(initial, s.log), id, at)
  {
    hide ListOk, Read, ReconnectsOk;
  }

  /** In every reachable state: a SUBACK makes the runtime READY, with the list the log then
      stands for all granted, if and only if it answers the request in flight; any other
      one closes the session and leaves the list as it was. */
  lemma ReadyIffAnswered(initial: seq<Sub>, trace: seq<State>, steps: seq<Step>, t: nat,
      id: int, codes: seq<Byte>, at: int, now: int, n: int, stopOk: bool)
    requires ListOk(initial) && IsRun(initial, trace, steps) && t < |trace| && !trace[t].faulted
    ensures var s := trace[t];
            var r := Poll(s, false, Some(Arrival(Suback(id, codes), at)), now, n, stopOk);
            && (r.stage == Ready <==> Answers(Read(initial, s.log), id, codes, at))
            && (r.stage == Ready ==> !r.faulted && Read(initial, r.log) == Meaning(r.subs, r.subs, None))
            && (r.stage == Ready ==>
                  r.subs == s.subs + if Read(initial, s.log).open.value.byApp
                                     then Read(initial, s.log).open.value.items else [])
            && (r.stage != Ready ==> r.faulted && r.stage == Failed && r.subs == s.subs)
  {
    RunKeeps(initial, trace, steps, t);
    var s := trace[t];
    assert Read(initial, s.log).desired == s.subs;
    SubackDoes(initial, s, id, codes, at, now, n, stopOk);
    PollKeeps(initial, s, false, Some(Arrival(Suback(id, codes), at)), now, n, stopOk);
    var r := Poll(s, false, Some(Arrival(Suback(id, codes), at)), now, n, stopOk);
    hide Poll, IsRun, ListOk, Answers;
    ReadyReads(initial, r);
    hide Inv, Read;
  }

  lemma ReadyReads(initial: seq<Sub>, r: State)
    requires Inv(initial, r)
    ensures r.stage == Ready ==> Read(initial, r.log) == Meaning(r.subs, r.subs, None)
  {
    hide Read;
  }

  lemma UnsubackCase(initial: seq<Sub>, s: State, id: int, at: int)
    requires Inv(initial, s) && !s.faulted && (s.stage == Subscribing ==> at < s.deadline)
    ensures AnswersOff(Read(initial, s.log), id, at) <==>
            s.pendingUnsub > 0 && id == s.pendingUnsub && s.stage == Subscribing
    ensures AnswersOff(Read(initial, s.log), id, at) ==>
              CutAt(s.subs, s.pendingIndex) == WithoutFilter(s.subs, Read(initial, s.log).open.value.filter)
  {
    if s.stage == Subscribing && s.pendingSub <= 0 { CutIsWithout(s.subs, s.pendingIndex); }
    hide ListOk, Read, ReconnectsOk, CutAt, WithoutFilter;
  }

  lemma UnsubackDoes(initial: seq<Sub>, s: State, id: int, at: int, now: int, n: int, stopOk: bool)
    requires Inv(initial, s) && !s.faulted
    ensures var r := Poll(s, false, Some(Arrival(Unsuback(id), at)), now, n, stopOk);
            var m := Read(initial, s.log);
            if AnswersOff(m, id, at) then
              r.stage == Ready && !r.faulted && r.subs == WithoutFilter(m.desired, m.open.value.filter)
            else r.faulted && r.stage == Failed && r.subs == m.desired
  {
    if s.stage == Subscribing && at >= s.deadline {
      LateIsNoAnswer(initial, s, id, [], at);
      LateKeeps(initial, s, Arrival(Unsuback(id), at), stopOk);
      FailCloses(Note(s, ToldOff(id, at)), stopOk);
    } else {
      UnsubackCase(initial, s, id, at);
      FailCloses(Note(s, ToldOff(id, at)), stopOk);
    }
    assert Read(initial, s.log).desired == s.subs;
    hide Read, Inv, FailClosed, CutAt, WithoutFilter;
  }

  /** The same for an UNSUBACK: READY without the filter asked for, if and only if it answers
      the request in flight. */
  lemma RemovedIffAnswered(initial: seq<Sub>, trace: seq<State>, steps: seq<Step>, t: nat,
      id: int, at: int, now: int, n: int, stopOk: bool)
    requires ListOk(initial) && IsRun(initial, trace, steps) && t < |trace| && !trace[t].faulted
    ensures var s := trace[t];
            var r := Poll(s, false, Some(Arrival(Unsuback(id), at)), now, n, stopOk);
            && (r.stage == Ready <==> AnswersOff(Read(initial, s.log), id, at))
            && (r.stage == Ready ==> !r.faulted && Read(initial, r.log) == Meaning(r.subs, r.subs, None))
            && (r.stage == Ready ==> r.subs == WithoutFilter(s.subs, Read(initial, s.log).open.value.filter))
            && (r.stage != Ready ==> r.faulted && r.stage == Failed && r.subs == s.subs)
  {
    RunKeeps(initial, trace, steps, t);
    var s := trace[t];
    assert Read(initial, s.log).desired == s.subs;
    UnsubackDoes(initial, s, id, at, now, n, stopOk);
    PollKeeps(initial, s, false, Some(Arrival(Unsuback(id), at)), now, n, stopOk);
    var r := Poll(s, false, Some(Arrival(Unsuback(id), at)), now, n, stopOk);
    hide Poll, IsRun, ListOk, AnswersOff, WithoutFilter;
    ReadyReads(initial, r);
    hide Inv, Read;
  }

  // ---------------------------------------------------------------- connections

  /** The request in flight, if any, has run out at `at`. */
  predicate RanOut(m: Meaning, at: int) {
    m.open.Some? && at >= m.open.value.deadline
  }

  lemma DeadlineRead(initial: seq<Sub>, s: State, at: int)
    requires Inv(initial, s) && !s.faulted
    ensures RanOut(Read(initial, s.log), at) <==> s.stage == Subscribing && at >= s.deadline
    ensures Read(initial, s.log).desired == s.subs
  {
    hide ListOk, Read, ReconnectsOk;
  }

  /** In every reachable state: CONNECTED, unless a request in flight has run out, makes a
      runtime without filters READY and any other one ask for exactly its list, with ten
      seconds to answer; it closes the session if and only if asking fails, or too late. */
  lemma ConnectedAsks(initial: seq<Sub>, trace: seq<State>, steps: seq<Step>, t: nat,
      at: int, now: int, id: int, stopOk: bool)
    requires ListOk(initial) && IsRun(initial, trace, steps) && t < |trace| && !trace[t].faulted
    ensures var s := trace[t];
            var r := Poll(s, false, Some(Arrival(Online, at)), now, id, stopOk);
            var m := Read(initial, s.log);
            && r.subs == s.subs
            && if RanOut(m, at) || (m.desired != [] && id <= 0) then r.faulted && r.stage == Failed
               else if m.desired == [] then r.stage == Ready && !r.faulted
               else r.stage == Subscribing && !r.faulted
                    && Read(initial, r.log).open == Some(Add(m.desired, id, now + 10000000, false))
  {
    RunKeeps(initial, trace, steps, t);
    var s := trace[t];
    DeadlineRead(initial, s, at);
    OnlineDoes(initial, s, id, now, stopOk);
    FailCloses(s, stopOk);
    hide Read, Inv, FailClosed, OnOnline, IsRun, ListOk;
  }

  lemma OnlineDoes(initial: seq<Sub>, s: State, id: int, now: int, stopOk: bool)
    requires Inv(initial, s) && !s.faulted
    ensures var r := OnOnline(s, id, now, stopOk);
            && r.subs == s.subs
            && if s.subs != [] && id <= 0 then r.faulted && r.stage == Failed
               else if s.subs == [] then r.stage == Ready && !r.faulted
               else r.stage == Subscribing && !r.faulted
                    && Read(initial, r.log).open == Some(Add(s.subs, id, now + 10000000, false))
  {
    var u := Note(ClearPending(s), WentOnline);
    var t := Submit(u, s.subs, false, id, now);
    FailCloses(t, stopOk);
    if s.subs != [] && id > 0 { assert t.log[..|t.log| - 1] == u.log; }
    hide Inv, FailClosed, ListOk;
  }

  // ---------------------------------------------------------------- everything else a poll can find

  /** No notice: the session is closed if and only if the request in flight has run out. */
  lemma TimeoutCloses(initial: seq<Sub>, trace: seq<State>, steps: seq<Step>, t: nat, now: int, id: int, stopOk: bool)
    requires ListOk(initial) && IsRun(initial, trace, steps) && t < |trace| && !trace[t].faulted
    ensures var s := trace[t];
            var r := Poll(s, false, None, now, id, stopOk);
            if RanOut(Read(initial, s.log), now) then r.faulted && r.stage == Failed && r.subs == s.subs else r == s
  {
    RunKeeps(initial, trace, steps, t);
    DeadlineRead(initial, trace[t], now);
    FailCloses(trace[t], stopOk);
    hide Read, Inv, FailClosed, IsRun, ListOk;
  }

  /** After an overflow, or once the request in flight has run out, every notice closes the
      session. */
  lemma LostOrLateCloses(initial: seq<Sub>, trace: seq<State>, steps: seq<Step>, t: nat, a: Arrival,
      overflow: bool, now: int, id: int, stopOk: bool)
    requires ListOk(initial) && IsRun(initial, trace, steps) && t < |trace| && !trace[t].faulted
    requires overflow || RanOut(Read(initial, trace[t].log), a.at)
    ensures var r := Poll(trace[t], overflow, Some(a), now, id, stopOk);
            r.faulted && r.stage == Failed && r.subs == trace[t].subs
  {
    RunKeeps(initial, trace, steps, t);
    var s := trace[t];
    DeadlineRead(initial, s, a.at);
    FailCloses(s, stopOk);
    if !overflow { LateKeeps(initial, s, a, stopOk); LateFails(s, a, stopOk); }
    hide Read, Inv, FailClosed, OnLate, IsRun, ListOk;
  }

  lemma LateFails(s: State, a: Arrival, stopOk: bool)
    ensures OnLate(s, a, stopOk).stage == Failed
  {
  }

  /** The other notices, in time: DISCONNECTED drops the request in flight, a subscription
      error closes the session, a fragment error changes nothing, any other error fails the
      session without closing it. */
  lemma OtherNoticesDo(initial: seq<Sub>, trace: seq<State>, steps: seq<Step>, t: nat, a: Arrival,
      now: int, id: int, stopOk: bool)
    requires ListOk(initial) && IsRun(initial, trace, steps) && t < |trace| && !trace[t].faulted
    requires !RanOut(Read(initial, trace[t].log), a.at)
    requires a.notice.Offline? || a.notice.Trouble? || a.notice.Other?
    ensures var s := trace[t];
            var r := Poll(s, false, Some(a), now, id, stopOk);
            && r.subs == s.subs
            && if a.notice.Trouble? && a.notice.subscription then r.faulted && r.stage == Failed
               else if a.notice.Offline? then
                 r.stage == Disconnected && !r.faulted && Read(initial, r.log).open == None
               else if a.notice.Trouble? && !a.notice.fragment then r.stage == Failed && !r.faulted
               else r == s
  {
    RunKeeps(initial, trace, steps, t);
    var s := trace[t];
    DeadlineRead(initial, s, a.at);
    if a.notice.Offline? { OfflineReads(initial, s); } else { FailCloses(s, stopOk); }
    hide Read, Inv, FailClosed, OnLate, OnOnline, OnSuback, OnUnsuback, IsRun, ListOk, RanOut;
  }

  lemma OfflineReads(initial: seq<Sub>, s: State)
    ensures Read(initial, Note(ClearPending(s).(stage := Disconnected), WentOffline).log).open == None
  {
    ReadNote(initial, ClearPending(s).(stage := Disconnected), WentOffline);
  }

  // ---------------------------------------------------------------- requests of the application

  predicate NewFilter(items: seq<Sub>, filter: seq<Byte>) {
    forall i :: 0 <= i < |items| ==> items[i].filter != filter
  }

  lemma KnownOrNew(items: seq<Sub>, filter: seq<Byte>)
    ensures Knows(items, filter) <==> !NewFilter(items, filter)
  {
  }

  lemma AskedFor(initial: seq<Sub>, s: State, x: Sub, id: int, now: int)
    requires id > 0
    ensures var r := Submit(s.(pendingItem := x), [x], true, id, now);
            && r.stage == Subscribing && r.faulted == s.faulted && r.subs == s.subs
            && Read(initial, r.log).open == Some(Add([x], id, now + 10000000, true))
  {
    var r := Submit(s.(pendingItem := x), [x], true, id, now);
    assert r.log[..|r.log| - 1] == s.log;
  }

  /** A request for a new filter is sent if and only if the runtime is READY, the filter is
      valid and new, its QoS is 0 or 1 and there is room; then exactly that filter is asked
      for. If the SDK refuses it, the session is closed; in every other case nothing
      changes. */
  lemma SubscribeDoes(initial: seq<Sub>, s: State, filter: seq<Byte>, qos: nat, id: int, now: int, stopOk: bool)
    requires Inv(initial, s)
    ensures var r := Subscribe(s, filter, qos, id, now, stopOk);
            && r.subs == s.subs
            && if s.stage == Ready && qos <= 1 && TopicOk(filter, true)
                  && |s.subs| < 8 && NewFilter(s.subs, filter) then
                 if id > 0 then
                   r.stage == Subscribing && !r.faulted
                   && Read(initial, r.log).open == Some(Add([Sub(filter, qos)], id, now + 10000000, true))
                 else r.faulted && r.stage == Failed
               else r == s
  {
    ReadyAndRoom(initial, s);
    KnownOrNew(s.subs, filter);
    var t := Submit(s.(pendingItem := Sub(filter, qos)), [Sub(filter, qos)], true, id, now);
    assert t.subs == s.subs;
    FailCloses(t, stopOk);
    if id > 0 { AskedFor(initial, s, Sub(filter, qos), id, now); }
    hide Inv, TopicOk, Knows, NewFilter, FailClosed, Submit, Read;
  }

  lemma ReadyAndRoom(initial: seq<Sub>, s: State)
    requires Inv(initial, s)
    ensures |s.subs| <= 8 && (s.stage == Ready ==> !s.faulted)
  {
    hide Read, ReconnectsOk, TopicOk;
  }

  /** A request to remove a filter is sent if and only if the runtime is READY and has it. */
  lemma UnsubscribeDoes(initial: seq<Sub>, s: State, filter: seq<Byte>, id: int, now: int, stopOk: bool)
    requires Inv(initial, s)
    ensures var r := Unsubscribe(s, filter, id, now, stopOk);
            && r.subs == s.subs
            && if s.stage == Ready && exists i :: 0 <= i < |s.subs| && s.subs[i].filter == filter then
                 if id > 0 then
                   r.stage == Subscribing && !r.faulted
                   && Read(initial, r.log).open == Some(Remove(filter, id, now + 10000000))
                 else r.faulted && r.stage == Failed
               else r == s
  {
    var k := IndexOf(s.subs, filter);
    assert s.stage == Ready ==> !s.faulted;
    assert k < |s.subs| ==> TopicOk(s.subs[k].filter, true);
    hide Inv, TopicOk, IndexOf;
    FailCloses(s, stopOk);
    var u := s.(pendingUnsub := id, pendingIndex := k, deadline := now + ACK_TIME, stage := Subscribing);
    ReadNote(initial, u, AskedOff(filter, id, now + ACK_TIME));
    hide FailClosed;
  }

  /** A start needs a stopped runtime and a network; a stop that succeeds leaves it stopped
      with nothing pending, and both keep the list. */
  lemma StartStopDo(initial: seq<Sub>, s: State, ready: bool, ok: bool)
    ensures var r := Start(s, ready, ok);
            && r.subs == s.subs
            && if s.started || !ready then r == s
               else r.started == ok && r.stage == (if ok then Connecting else Failed) && NothingPending(r) && !r.faulted
                    && Read(initial, r.log).open == None
    ensures var r := Stop(s, ok);
            && r.subs == s.subs && Read(initial, r.log).open == None
            && (r.stage == Stopped <==> ok || !s.started) && (r.stage == Stopped ==> !r.started && NothingPending(r))
            && (r.stage != Stopped ==> r.stage == Failed && r.started && r.faulted == s.faulted)
  {
    ReadNote(initial, ClearPending(s).(faulted := false), WentOffline);
    ReadNote(initial, s.(stage := Failed), HadTrouble);
  }

  // ---------------------------------------------------------------- READY can be reached

  /** The QoS asked for each filter. */
  function Codes(items: seq<Sub>): (codes: seq<Byte>)
    requires forall i :: 0 <= i < |items| ==> items[i].qos <= 1
    ensures |codes| == |items|
  {
    seq(|items|, i requires 0 <= i < |items| => items[i].qos)
  }

  /** From every reachable state without a running session: start, CONNECTED and the SUBACK
      that grants what was asked for make the runtime READY with its list. */
  lemma BecomesReady(initial: seq<Sub>, trace: seq<State>, steps: seq<Step>, id: int, now: int)
    requires ListOk(initial) && IsRun(initial, trace, steps) && id > 0
    requires var s := trace[|steps|]; !s.started && s.subs != []
    ensures var s := trace[|steps|];
            var connected := Poll(Start(s, true, true), false, Some(Arrival(Online, now)), now, id, true);
            && (forall i :: 0 <= i < |s.subs| ==> s.subs[i].qos <= 1)
            && var r := Poll(connected, false, Some(Arrival(Suback(id, Codes(s.subs)), now)), now, id, true);
               r.stage == Ready && !r.faulted && r.subs == s.subs && Read(initial, r.log).granted == s.subs
  {
    RunKeeps(initial, trace, steps, |steps|);
    var s := trace[|steps|];
    assert ListOk(s.subs);
    hide IsRun;
    StartStopDo(initial, s, true, true);
    var a := Start(s, true, true);
    StepKeeps(initial, s, DoStart(true, true));
    assert Inv(initial, a);
    var b := Poll(a, false, Some(Arrival(Online, now)), now, id, true);
    OnlineDoes(initial, a, id, now, true);
    PollKeeps(initial, a, false, Some(Arrival(Online, now)), now, id, true);
    assert b == OnOnline(a, id, now, true);
    assert Grants(Codes(s.subs), s.subs);
    hide Poll, Start, OnOnline, Inv, ListOk, Read;
    SubackDoes(initial, b, id, Codes(s.subs), now, now, id, true);
    PollKeeps(initial, b, false, Some(Arrival(Suback(id, Codes(s.subs)), now)), now, id, true);
    ReadyReads(initial, Poll(b, false, Some(Arrival(Suback(id, Codes(s.subs)), now)), now, id, true));
    DesiredIs(initial, b);
  }

  lemma DesiredIs(initial: seq<Sub>, s: State)
    requires Inv(initial, s)
    ensures Read(initial, s.log).desired == s.subs
  {
    hide Read;
  }
}
