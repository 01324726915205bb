/** A run in which emqtt_poll returns a message although an earlier one was dropped: the
    owner empties the queue between the drop and the callback's store to the flag, tests
    the flag once more, and takes a message that completes after that store. */
module SlotRace {
  import opened Bytes
  import opened SlotPool
  import opened SlotBuffers
  import opened SlotOrder

  /** A run so far, and its last state. */
  datatype Story = Story(trace: seq<State>, steps: seq<Step>, now: State)

  ghost predicate Told(r: Story) {
    IsRun(r.trace, r.steps) && r.trace[|r.steps|] == r.now && |r.now.messages| == SLOTS
  }

  lemma Next(r: Story, a: Step) returns (q: Story)
    requires Told(r) && Enabled(r.now, a)
    ensures Told(q) && q.now == Exec(r.now, a)
  {
    hide CbExec, OwnerExec, CbEnabled, OwnerEnabled, Created;
    q := Story(r.trace + [Exec(r.now, a)], r.steps + [a], Exec(r.now, a));
    forall i | 0 <= i < |q.steps| ensures Takes(q.trace, q.steps, i) {
      if i < |r.steps| { assert Takes(r.trace, r.steps, i); }
    }
  }

  predicate Quiet(s: State) {
    s.cb == CbIdle && s.started && s.rxSlot == None && s.rxBuf == None
  }

  /** The buffer is allocated and its message complete. */
  function Arrived(s: State, c: seq<Byte>): (t: State) {
    var slot := if s.free == [] then None else Some(s.free[0]);
    s.(free := if s.free == [] then [] else s.free[1..], rxSlot := slot, rxBuf := Some(s.nextBuf),
       live := s.live + multiset{s.nextBuf}, nextBuf := s.nextBuf + 1,
       completed := s.completed + [c], cb := Whole(Tag(|s.completed|, c)))
  }

  lemma Arrive(r: Story, c: seq<Byte>) returns (q: Story)
    requires Told(r) && Quiet(r.now)
    ensures Told(q) && q.now == Arrived(r.now, c)
  {
    hide Told;
    q := Next(r, DataEvent);
    q := Next(q, Allocate(true));
    q := Next(q, Complete(c));
  }

  /** A message received, completed and posted. */
  function Received(s: State, c: seq<Byte>): (t: State)
    requires s.free != [] && s.free[0] < |s.messages|
  {
    var slot, tag := s.free[0], Tag(|s.completed|, c);
    s.(free := s.free[1..], messages := s.messages[slot := Some(Held(s.nextBuf, tag))],
       live := s.live + multiset{s.nextBuf}, nextBuf := s.nextBuf + 1,
       completed := s.completed + [c], notices := s.notices + [Message(slot, tag)])
  }

  lemma Receive(r: Story, c: seq<Byte>) returns (q: Story)
    requires Told(r) && Quiet(r.now) && |r.now.notices| < NOTICES
    requires r.now.free != [] && r.now.free[0] < SLOTS
    ensures Told(q) && q.now == Received(r.now, c)
  {
    q := Arrive(r, c);
    hide Told;
    q := PlaceIt(q);
    q := Next(q, CbGo);
  }

  lemma PlaceIt(r: Story) returns (q: Story)
    requires Told(r) && r.now.cb.Whole? && r.now.rxSlot.Some? && r.now.rxSlot.value < SLOTS && r.now.rxBuf.Some?
    ensures Told(q)
    ensures var s := r.now;
            && s.rxSlot.value < |s.messages|
            && q.now == s.(messages := s.messages[s.rxSlot.value := Some(Held(s.rxBuf.value, s.cb.tag))],
                           rxSlot := None, rxBuf := None, cb := Post(Message(s.rxSlot.value, s.cb.tag)))
  {
    assert |r.now.messages| == SLOTS;
    hide Told;
    q := Next(r, CbGo);
    q := Next(q, CbGo);
  }

  /** A message is dropped for want of a slot; the flag is still down. */
  lemma Lose(r: Story, c: seq<Byte>) returns (q: Story)
    requires Told(r) && Quiet(r.now) && r.now.free == [] && r.now.gap == None
    ensures Told(q)
    ensures q.now == Arrived(r.now, c).(gap := Some(|r.now.completed|), dropped := true, cb := Release(ThenFlag))
  {
    hide Told;
    q := Arrive(r, c);
    q := Next(q, CbGo);
  }

  lemma RaiseFlag(r: Story) returns (q: Story)
    requires Told(r) && r.now.cb == Release(ThenFlag) && r.now.rxSlot == None
    ensures Told(q)
    ensures q.now == r.now.(rxBuf := None, live := FreeOpt(r.now.live, r.now.rxBuf), overflow := true, cb := CbIdle)
  {
    hide Told, FreeOpt;
    q := Next(r, CbGo);
    q := Next(q, CbGo);
    q := FlagNow(q);
  }

  lemma FlagNow(r: Story) returns (q: Story)
    requires Told(r) && r.now.cb == ReturnSlot(None, ThenFlag)
    ensures Told(q) && q.now == r.now.(overflow := true, cb := CbIdle)
  {
    hide Told;
    q := Next(r, CbGo);
    q := Next(q, CbGo);
  }

  /** The head notice is a message whose pointer is in place. */
  predicate HeadReady(s: State) {
    s.notices != [] && s.notices[0].Message? && |s.messages| == SLOTS && TagAt(s, s.notices[0].slot, s.notices[0].tag)
  }

  lemma TakeAndCopy(r: Story) returns (q: Story)
    requires Told(r) && r.now.owner == Checked && HeadReady(r.now)
    ensures Told(q)
    ensures var s := r.now;
            q.now == s.(notices := s.notices[1..], delivered := s.delivered + [s.notices[0].tag],
                owner := Copied(s.notices[0].slot))
  {
    hide Told;
    q := Next(r, PollTake(false, false));
    q := Next(q, OwnerGo);
  }

  function Polled(s: State): (t: State)
    requires HeadReady(s)
  {
    var slot := s.notices[0].slot;
    s.(notices := s.notices[1..], delivered := s.delivered + [s.notices[0].tag],
       messages := s.messages[slot := None], live := FreeOpt(s.live, Some(s.messages[slot].value.buf)),
       free := s.free + [slot])
  }

  lemma Poll(r: Story) returns (q: Story)
    requires Told(r) && HeadReady(r.now) && |r.now.free| < SLOTS
    requires r.now.owner == OwnerIdle && !r.now.overflow && !r.now.faulted
    ensures Told(q) && q.now == Polled(r.now)
  {
    hide Told, FreeOpt;
    q := Next(r, PollCheck);
    q := TakeAndCopy(q);
    q := Next(q, OwnerGo);
    q := GiveCopyBack(q);
  }

  lemma GiveCopyBack(r: Story) returns (q: Story)
    requires Told(r) && r.now.owner.Loose? && |r.now.free| < SLOTS
    ensures Told(q)
    ensures q.now == r.now.(live := FreeOpt(r.now.live, Some(r.now.owner.buf)),
                            free := r.now.free + [r.now.owner.slot], owner := OwnerIdle)
  {
    hide Told, FreeOpt;
    q := Next(r, OwnerGo);
    q := Next(q, OwnerGo);
  }

  lemma UntilStarted() returns (r: Story)
    ensures Told(r) && r.now == Created().(started := true)
  {
    var s := Created();
    r := Story([s], [], s);
    assert Told(r);
    hide Told;
    r := Next(r, StartRuntime(true));
    assert Drain(s).live == multiset{};
  }

  lemma UntilFull(a: seq<Byte>) returns (r: Story)
    ensures Told(r) && r.now == Received(Received(Received(Created().(started := true), a), a), a)
  {
    hide Told;
    r := UntilStarted();
    r := Receive(r, a);
    r := Receive(r, a);
    r := Receive(r, a);
  }

  lemma FullState(a: seq<Byte>)
    ensures var s := Received(Received(Received(Created().(started := true), a), a), a);
            && Quiet(s) && s.free == [] && s.gap == None && s.completed == [a, a, a] && !s.overflow && !s.faulted
            && s.owner == OwnerIdle && s.delivered == []
            && s.notices == [Message(0, Tag(0, a)), Message(1, Tag(1, a)), Message(2, Tag(2, a))]
            && s.messages == [Some(Held(0, Tag(0, a))), Some(Held(1, Tag(1, a))), Some(Held(2, Tag(2, a)))]
  {
  }

  /** Three messages fill the pool, the fourth is dropped. */
  lemma UntilDrop(a: seq<Byte>) returns (r: Story)
    ensures Told(r)
    ensures var s := r.now;
            && s.cb == Release(ThenFlag) && s.rxSlot == None && s.started && !s.overflow && !s.faulted
            && s.owner == OwnerIdle && s.free == [] && s.gap == Some(3) && s.completed == [a, a, a, a]
            && s.delivered == [] && s.notices == [Message(0, Tag(0, a)), Message(1, Tag(1, a)), Message(2, Tag(2, a))]
            && s.messages == [Some(Held(0, Tag(0, a))), Some(Held(1, Tag(1, a))), Some(Held(2, Tag(2, a)))]
  {
    hide Told, Received;
    r := UntilFull(a);
    FullState(a);
    r := Lose(r, a);
  }

  lemma UntilEmpty(a: seq<Byte>) returns (r: Story)
    ensures Told(r)
    ensures var s := r.now;
            && s.cb == Release(ThenFlag) && s.rxSlot == None && s.started && !s.overflow && !s.faulted
            && s.owner == OwnerIdle && s.free == [0, 1, 2] && s.gap == Some(3) && s.completed == [a, a, a, a]
            && s.delivered == [Tag(0, a), Tag(1, a), Tag(2, a)] && s.notices == []
  {
    hide Told, FreeOpt;
    r := UntilDrop(a);
    r := Poll(r);
    r := Poll(r);
    r := Poll(r);
  }

  /** The dropped message is the fourth; the fifth is returned after the third. */
  lemma MessageAfterGap(a: seq<Byte>, b: seq<Byte>) returns (trace: seq<State>, steps: seq<Step>)
    requires a != b
    ensures IsRun(trace, steps)
    ensures var s := trace[|steps|];
            && s.completed == [a, a, a, a, b] && Contents(s.delivered) == [a, a, a, b] && s.gap == Some(3)
            && s.overflow && !(Contents(s.delivered) <= s.completed)
  {
    hide FreeOpt, IsRun;
    var q := UntilEmpty(a);
    q := Next(q, PollCheck);
    q := RaiseFlag(q);
    q := Receive(q, b);
    q := TakeAndCopy(q);
    trace, steps := q.trace, q.steps;
    var s := q.now;
    assert s.delivered == [Tag(0, a), Tag(1, a), Tag(2, a), Tag(4, b)];
    assert Contents(s.delivered) == [a, a, a, b];
    assert Contents(s.delivered)[3] != s.completed[3];
  }
}
