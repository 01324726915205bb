/** What the two tasks get done on the message path, whatever the interleaving: a link event
    or a rejected fragment empties the receiver, a message poll takes is returned and its
    slot and buffer given back, nothing is lost but for want of memory, slots or notices,
    and ERROR_QUEUE means a loss. */
module SlotSteps {
  import opened Bytes
  import opened SlotPool
  import opened SlotBuffers
  import opened SlotOrder

  // ---------------------------------------------------------------- giving the receiver up

  /** Receiver empty; `buf` is freed and `slot` is back in the pool. */
  predicate Released(s: State, slot: Option<nat>, buf: Option<nat>) {
    && s.rxSlot == None && s.rxBuf == None
    && (buf.Some? ==> s.live[buf.value] == 0)
    && (slot.Some? ==> slot.value in s.free)
  }

  /** On the way there, by the position of the callback. */
  predicate Releasing(s: State, slot: Option<nat>, buf: Option<nat>) {
    match s.cb
    case Release(_) => s.rxSlot == slot && s.rxBuf == buf
    case FreeBuf(gone, b, _) => s.rxSlot == None && s.rxBuf == None && gone == slot && b == buf
    case ReturnSlot(gone, _) =>
      s.rxSlot == None && s.rxBuf == None && gone == slot && (buf.Some? ==> s.live[buf.value] == 0)
    case Post(n) => n.Other? && Released(s, slot, buf)
    case Full(n) => n.Other? && Released(s, slot, buf)
    case Flag => Released(s, slot, buf)
    case CbIdle => Released(s, slot, buf)
    case _ => false
  }

  lemma ReleasingGoes(s: State, a: Step, slot: Option<nat>, buf: Option<nat>)
    requires CbEnabled(s, a) && s.cb != CbIdle && Releasing(s, slot, buf)
    ensures a == CbGo
  {
  }

  lemma ReleaseGoes(s: State, slot: Option<nat>, buf: Option<nat>)
    requires Releasing(s, slot, buf)
    ensures s.cb.Release? ==> Releasing(TakeReceiver(s), slot, buf)
    ensures s.cb.FreeBuf? && (buf.Some? ==> FreeBuffer(s).live[buf.value] == 0) ==> Releasing(FreeBuffer(s), slot, buf)
  {
    hide FreeOpt;
  }

  lemma ReturnGoes(s: State, slot: Option<nat>, buf: Option<nat>)
    requires s.cb.ReturnSlot? && Releasing(s, slot, buf) && (slot.Some? ==> |s.free| < SLOTS)
    ensures Releasing(Return(s), slot, buf)
  {
  }

  lemma PostGoes(s: State, slot: Option<nat>, buf: Option<nat>)
    requires Releasing(s, slot, buf) && |s.messages| == SLOTS
    ensures s.cb.Post? ==> Releasing(PostNotice(s), slot, buf)
    ensures s.cb.Full? ==> Releasing(Refuse(s), slot, buf)
    ensures s.cb.Flag? ==> Releasing(s.(overflow := true, cb := CbIdle), slot, buf)
  {
  }

  lemma CbReleases(s: State, a: Step, slot: Option<nat>, buf: Option<nat>)
    requires BufInv(s) && CbEnabled(s, a) && s.cb != CbIdle && Releasing(s, slot, buf)
    ensures |s.messages| == SLOTS && Releasing(CbExec(s, a), slot, buf)
  {
    LooseInPool(s);
    ReleasingGoes(s, a, slot, buf);
    if s.cb.FreeBuf? {
      if buf.Some? { assert BufferOk(s, buf.value); }
      FreesOne(s);
    }
    if s.cb.ReturnSlot? && slot.Some? { RoomToReturn(s, slot.value); }
    ReleaseGoes(s, slot, buf);
    if s.cb.ReturnSlot? { ReturnGoes(s, slot, buf); }
    PostGoes(s, slot, buf);
    hide BufInv, PutBack, ChooseSlot, Place, TakeReceiver, FreeBuffer, Return, PostNotice, Refuse, Fetch, Released;
  }

  lemma FreesOne(s: State)
    requires s.cb.FreeBuf? && |s.messages| == SLOTS && (s.cb.buf.Some? ==> BufferOk(s, s.cb.buf.value))
    ensures s.cb.buf.Some? ==> FreeBuffer(s).live[s.cb.buf.value] == 0
  {
    hide InMessages;
  }

  /** The owner leaves receiver and callback alone, and frees no slot but into the pool. */
  predicate OwnerLeft(s: State, r: State) {
    && r.cb == s.cb && r.rxSlot == s.rxSlot && r.rxBuf == s.rxBuf && r.live <= s.live && s.free <= r.free
    && r.nextBuf == s.nextBuf
  }

  lemma TakeLeaves(s: State, late: bool, fatal: bool)
    ensures OwnerLeft(s, Take(s, late, fatal)) && OwnerLeft(s, Check(s))
  {
  }

  lemma FreeLess(live: multiset<nat>, o: Option<nat>)
    ensures FreeOpt(live, o) <= live
  {
  }

  lemma GoLeaves(s: State)
    requires |s.messages| == SLOTS && OwnerEnabled(s, OwnerGo)
    ensures OwnerLeft(s, OwnerNext(s))
  {
    if s.owner.Loose? { FreeLess(s.live, Some(s.owner.buf)); }
    CopyLeaves(s);
    hide FreeOpt, CopyOut, Detach, GiveBack;
  }

  lemma CopyLeaves(s: State)
    requires |s.messages| == SLOTS
    ensures s.owner.InHand? ==> OwnerLeft(s, CopyOut(s))
    ensures s.owner.Copied? ==> OwnerLeft(s, Detach(s))
    ensures s.owner.Giving? ==> OwnerLeft(s, GiveBack(s))
  {
  }

  lemma OwnerLeaves(s: State, a: Step)
    requires |s.messages| == SLOTS && OwnerEnabled(s, a) && a != EndStop(true) && !a.StartRuntime?
    ensures OwnerLeft(s, OwnerExec(s, a))
  {
    hide Drain, Stopped, Take, Check, OwnerNext;
    match a
    case PollTake(late, fatal) => TakeLeaves(s, late, fatal);
    case PollCheck => TakeLeaves(s, true, true);
    case OwnerGo => GoLeaves(s);
    case BeginStop(_) =>
    case EndStop(_) =>
  }

  lemma DrainNeedsIdle(s: State, a: Step)
    requires OwnerEnabled(s, a) && s.cb != CbIdle
    ensures a != EndStop(true) && !a.StartRuntime?
  {
  }

  lemma OwnerReleases(s: State, a: Step, slot: Option<nat>, buf: Option<nat>)
    requires |s.messages| == SLOTS && OwnerEnabled(s, a) && s.cb != CbIdle && Releasing(s, slot, buf)
    ensures Releasing(OwnerExec(s, a), slot, buf)
  {
    DrainNeedsIdle(s, a);
    OwnerLeaves(s, a);
    hide OwnerExec, OwnerEnabled;
    var r := OwnerExec(s, a);
    if slot.Some? && slot.value in s.free { assert slot.value in r.free; }
  }

  lemma OneReleases(trace: seq<State>, steps: seq<Step>, i: nat, slot: Option<nat>, buf: Option<nat>)
    requires IsRun(trace, steps) && i < |steps| && Releasing(trace[i], slot, buf) && trace[i].cb != CbIdle
    ensures Releasing(trace[i + 1], slot, buf)
  {
    RunKeepsBuffers(trace, steps, i);
    assert Takes(trace, steps, i);
    hide IsRun, Releasing, BufInv;
    hide CbExec, OwnerExec, CbEnabled, OwnerEnabled;
    if CbEnabled(trace[i], steps[i]) {
      CbReleases(trace[i], steps[i], slot, buf);
    } else {
      OwnerReleases(trace[i], steps[i], slot, buf);
    }
  }

  lemma {:induction false} StaysReleasing(trace: seq<State>, steps: seq<Step>, i: nat, j: nat,
      slot: Option<nat>, buf: Option<nat>)
    requires IsRun(trace, steps) && i <= j < |trace| && Releasing(trace[i], slot, buf)
    requires forall k :: i <= k < j ==> trace[k].cb != CbIdle
    ensures Releasing(trace[j], slot, buf)
    decreases j - i
  {
    if i < j {
      assert |trace| == |steps| + 1;
      hide *;
      StaysReleasing(trace, steps, i, j - 1, slot, buf);
      OneReleases(trace, steps, j - 1, slot, buf);
    }
  }

  /** In every interleaving: when the callback of a CONNECTED or DISCONNECTED event, or of a
      rejected fragment, is through, the receiver is empty, the buffer that was in it is
      freed and its slot is back in the pool. */
  lemma ReceiverGivenUp(trace: seq<State>, steps: seq<Step>, i: nat, j: nat)
    requires IsRun(trace, steps) && i < |steps| && (steps[i] == LinkEvent || steps[i] == Rejected)
    requires i < j < |trace| && trace[j].cb == CbIdle && forall k :: i < k < j ==> trace[k].cb != CbIdle
    ensures Released(trace[j], trace[i].rxSlot, trace[i].rxBuf)
  {
    assert Takes(trace, steps, i);
    hide CbNext, Fetch;
    StaysReleasing(trace, steps, i + 1, j, trace[i].rxSlot, trace[i].rxBuf);
  }

  /** The receiver is empty and the callback is not about to fill it. */
  predicate NoReceiver(s: State) {
    && s.rxSlot == None && s.rxBuf == None
    && (s.cb.CbIdle? || s.cb.Release? || s.cb.FreeBuf? || s.cb.ReturnSlot? || s.cb.Flag? || s.cb.Post? || s.cb.Full?)
  }

  lemma EmptyGoes(s: State)
    requires |s.messages| == SLOTS && CbEnabled(s, CbGo) && NoReceiver(s)
    ensures NoReceiver(CbNext(s))
  {
    hide FreeOpt, GiveSlot, PutBack, ChooseSlot, Place;
    if s.cb.ReturnSlot? { ReturnEmpty(s); }
    if s.cb.Full? { RefuseEmpty(s); }
    hide Return, Refuse;
  }

  lemma ReturnEmpty(s: State)
    requires s.cb.ReturnSlot? && NoReceiver(s)
    ensures NoReceiver(Return(s))
  {
  }

  lemma RefuseEmpty(s: State)
    requires s.cb.Full? && NoReceiver(s) && |s.messages| == SLOTS
    ensures NoReceiver(Refuse(s))
  {
  }

  lemma DrainedEmpty(s: State, a: Step)
    requires |s.messages| == SLOTS && OwnerEnabled(s, a) && (a == EndStop(true) || a.StartRuntime?)
    ensures NoReceiver(OwnerExec(s, a))
  {
    hide FreeOpt, FreeHeld, Take, Check, OwnerNext, NotStopped;
  }

  lemma NoReceiverStep(s: State, a: Step)
    requires |s.messages| == SLOTS && Enabled(s, a) && NoReceiver(s) && a != DataEvent
    ensures NoReceiver(Exec(s, a))
  {
    hide CbNext, Fetch, OwnerExec, OwnerEnabled;
    if CbEnabled(s, a) {
      if a == CbGo { EmptyGoes(s); }
    } else if a == EndStop(true) || a.StartRuntime? {
      hide NoReceiver;
      DrainedEmpty(s, a);
    } else {
      OwnerLeaves(s, a);
    }
  }

  lemma {:induction false} StaysEmpty(trace: seq<State>, steps: seq<Step>, i: nat, j: nat)
    requires IsRun(trace, steps) && i <= j < |trace| && NoReceiver(trace[i])
    requires forall k :: i <= k < j ==> steps[k] != DataEvent
    ensures NoReceiver(trace[j])
    decreases j - i
  {
    if i < j {
      hide NoReceiver, Exec, Enabled, Created;
      assert Takes(trace, steps, j - 1);
      hide IsRun;
      StaysEmpty(trace, steps, i, j - 1);
      NoReceiverStep(trace[j - 1], steps[j - 1]);
    }
  }

  /** After that the first DATA event, however much later, asks for a new buffer: nothing of
      the message before is gone on with. */
  lemma NextDataStartsAfresh(trace: seq<State>, steps: seq<Step>, i: nat, j: nat, m: nat)
    requires IsRun(trace, steps) && i < |steps| && (steps[i] == LinkEvent || steps[i] == Rejected)
    requires i < j < |trace| && trace[j].cb == CbIdle && forall k :: i < k < j ==> trace[k].cb != CbIdle
    requires j <= m < |steps| && steps[m] == DataEvent && forall k :: j <= k < m ==> steps[k] != DataEvent
    ensures trace[m + 1].cb == Fetched && trace[m + 1].rxBuf == None
  {
    ReceiverGivenUp(trace, steps, i, j);
    StaysEmpty(trace, steps, j, m);
    assert Takes(trace, steps, m);
    hide CbNext;
  }

  /** The callback is on its way to a notice that carries no message. */
  predicate Noticing(pc: CbPc) {
    match pc
    case Release(next) => next == ThenPost
    case FreeBuf(_, _, next) => next == ThenPost
    case ReturnSlot(_, next) => next == ThenPost
    case Post(n) => n.Other?
    case _ => false
  }

  lemma NoticingStep(s: State, a: Step)
    requires |s.messages| == SLOTS && Enabled(s, a) && Noticing(s.cb) && !s.cb.Post?
    ensures Noticing(Exec(s, a).cb)
  {
    hide OwnerExec, OwnerEnabled, Fetch, PutBack, ChooseSlot, Place, PostNotice, Refuse, GiveSlot, FreeOpt;
    if !CbEnabled(s, a) {
      DrainNeedsIdle(s, a);
      OwnerLeaves(s, a);
    }
  }

  lemma OneNotices(trace: seq<State>, steps: seq<Step>, i: nat)
    requires IsRun(trace, steps) && i < |steps| && Noticing(trace[i].cb) && !trace[i].cb.Post?
    ensures Noticing(trace[i + 1].cb)
  {
    assert Takes(trace, steps, i);
    hide IsRun, Noticing, Exec, Enabled;
    NoticingStep(trace[i], steps[i]);
  }

  lemma {:induction false} ReachesPost(trace: seq<State>, steps: seq<Step>, i: nat, j: nat) returns (k: nat)
    requires IsRun(trace, steps) && i < j < |trace| && Noticing(trace[i].cb) && trace[j].cb == CbIdle
    ensures i <= k < j && trace[k].cb == Post(Other)
    decreases j - i
  {
    if trace[i].cb.Post? {
      k := i;
    } else {
      assert |trace| == |steps| + 1;
      OneNotices(trace, steps, i);
      hide IsRun;
      k := ReachesPost(trace, steps, i + 1, j);
    }
  }

  /** In every interleaving: the callback of a link event, of any other event without a
      message, of a malformed size and of a rejected fragment does not return without
      posting its notice. */
  lemma EventIsPosted(trace: seq<State>, steps: seq<Step>, i: nat, j: nat) returns (k: nat)
    requires IsRun(trace, steps) && i < j < |trace| && trace[j].cb == CbIdle
    requires steps[i] == LinkEvent || steps[i] == OtherEvent || steps[i] == BadSize || steps[i] == Rejected
    requires forall m :: i < m < j ==> trace[m].cb != CbIdle
    ensures i < k < j && trace[k].cb == Post(Other)
  {
    assert Takes(trace, steps, i);
    hide CbNext, Fetch;
    k := ReachesPost(trace, steps, i + 1, j);
  }

  // ---------------------------------------------------------------- a message received in part

  /** The receiver holds a message of which more is to come. */
  predicate Holding(s: State, slot: Option<nat>, buf: nat) {
    && s.rxSlot == slot && s.rxBuf == Some(buf)
    && (s.cb.CbIdle? || s.cb.Flag? || ((s.cb.Post? || s.cb.Full?) && s.cb.n.Other?))
  }

  /** Steps that leave it alone: neither DATA nor a link event nor a drain. */
  predicate Unrelated(a: Step) {
    a != LinkEvent && a != DataEvent && a != EndStop(true) && !a.StartRuntime?
  }

  lemma HoldingStep(s: State, a: Step, slot: Option<nat>, buf: nat)
    requires |s.messages| == SLOTS && Enabled(s, a) && Holding(s, slot, buf) && Unrelated(a)
    ensures Holding(Exec(s, a), slot, buf)
  {
    hide OwnerExec, OwnerEnabled, Fetch, PutBack, ChooseSlot, Place, TakeReceiver, FreeBuffer, Return;
    if !CbEnabled(s, a) { OwnerLeaves(s, a); }
  }

  lemma OneHolds(trace: seq<State>, steps: seq<Step>, i: nat, slot: Option<nat>, buf: nat)
    requires IsRun(trace, steps) && i < |steps| && Holding(trace[i], slot, buf) && Unrelated(steps[i])
    ensures Holding(trace[i + 1], slot, buf)
  {
    assert Takes(trace, steps, i);
    hide IsRun, Holding, Exec, Enabled;
    HoldingStep(trace[i], steps[i], slot, buf);
  }

  lemma {:induction false} StaysHolding(trace: seq<State>, steps: seq<Step>, i: nat, j: nat,
      slot: Option<nat>, buf: nat)
    requires IsRun(trace, steps) && i <= j < |trace| && Holding(trace[i], slot, buf)
    requires forall k :: i <= k < j ==> Unrelated(steps[k])
    ensures Holding(trace[j], slot, buf)
    decreases j - i
  {
    if i < j {
      assert |trace| == |steps| + 1;
      hide *;
      StaysHolding(trace, steps, i, j - 1, slot, buf);
      OneHolds(trace, steps, j - 1, slot, buf);
    }
  }

  /** In every interleaving: what was received of a message stays in the receiver, and the
      next DATA event goes on in the same buffer and slot, unless a link event or a drain
      comes between. */
  lemma PartialIsKept(trace: seq<State>, steps: seq<Step>, i: nat, m: nat)
    requires IsRun(trace, steps) && i < m < |steps| && steps[i] == More && steps[m] == DataEvent
    requires forall k :: i < k < m ==> Unrelated(steps[k])
    ensures trace[i].rxBuf.Some? && trace[m + 1].cb == Filling
    ensures trace[m + 1].rxBuf == trace[i].rxBuf && trace[m + 1].rxSlot == trace[i].rxSlot
  {
    RunKeepsBuffers(trace, steps, i);
    assert Takes(trace, steps, i);
    assert trace[i].rxBuf.Some?;
    hide BufInv, CbNext;
    StaysHolding(trace, steps, i + 1, m, trace[i].rxSlot, trace[i].rxBuf.value);
    assert Takes(trace, steps, m);
  }

  // ---------------------------------------------------------------- a message that poll takes

  /** The owner returns the message `tag` in `slot`, held in buffer `b`; `before` were
      returned earlier. */
  predicate Returning(s: State, slot: nat, tag: Tag, b: nat, before: seq<Tag>) {
    b < s.nextBuf &&
    match s.owner
    case InHand(x, t) =>
      x == slot && t == tag && s.delivered == before
      && slot < |s.messages| && s.messages[slot].Some? && s.messages[slot].value.buf == b
    case Copied(x) =>
      x == slot && s.delivered == before + [tag]
      && slot < |s.messages| && s.messages[slot].Some? && s.messages[slot].value.buf == b
    case Loose(x, c) => x == slot && c == b && s.delivered == before + [tag]
    case Giving(x) => x == slot && s.live[b] == 0 && s.delivered == before + [tag]
    case OwnerIdle => slot in s.free && s.live[b] == 0 && s.delivered == before + [tag]
    case _ => false
  }

  lemma OwnerReturns(s: State, a: Step, slot: nat, tag: Tag, b: nat, before: seq<Tag>)
    requires BufInv(s) && OwnerEnabled(s, a) && s.owner != OwnerIdle && Returning(s, slot, tag, b, before)
    ensures |s.messages| == SLOTS && Returning(OwnerExec(s, a), slot, tag, b, before)
  {
    LooseInPool(s);
    assert BufferOk(s, b);
    if s.owner.InHand? { assert TagAt(s, s.owner.slot, s.owner.tag); }
    RoomToReturn(s, OwnerSlot(s).value);
    hide MsgInv, Buffers, Drain, Stopped, NotStopped, Take, Check, InMessages;
  }

  /** The callback leaves the message alone that the owner has in its hands. */
  predicate CbLeft(s: State, r: State, slot: nat) {
    && r.owner == s.owner && r.delivered == s.delivered && s.nextBuf <= r.nextBuf
    && slot < |s.messages| == |r.messages|
    && (s.owner.InHand? || s.owner.Copied? ==> r.messages[slot] == s.messages[slot])
    && (forall b: nat :: b < s.nextBuf ==> r.live[b] <= s.live[b])
  }

  lemma EventLeaves(s: State, a: Step, slot: nat)
    requires |s.messages| == SLOTS && CbEnabled(s, a) && a != CbGo && slot < SLOTS
    ensures CbLeft(s, CbExec(s, a), slot)
  {
    hide CbNext;
  }

  lemma PlaceLeaves(s: State, slot: nat)
    requires MsgInv(s) && slot < SLOTS && |s.messages| == SLOTS
    requires s.owner.InHand? || s.owner.Copied? ==> s.owner.slot == slot
    ensures s.cb.Placed? ==> CbLeft(s, Place(s), slot)
    ensures s.cb.Full? ==> CbLeft(s, Refuse(s), slot)
  {
    if s.owner.InHand? { assert TagAt(s, slot, s.owner.tag); }
    if s.cb.Placed? { NoPointerYet(s); }
    if s.cb.Full? && s.cb.n.Message? { RefuseFacts(s); }
    hide MsgInv;
  }

  predicate SameForOwner(s: State, r: State) {
    && r.owner == s.owner && r.delivered == s.delivered && r.nextBuf == s.nextBuf && r.messages == s.messages
    && r.live <= s.live
  }

  lemma ReceiverSame(s: State)
    ensures s.cb.NoMemory? ==> SameForOwner(s, PutBack(s))
    ensures s.cb.Whole? ==> SameForOwner(s, ChooseSlot(s))
    ensures s.cb.Release? ==> SameForOwner(s, TakeReceiver(s))
  {
  }

  lemma ReturnSame(s: State)
    ensures s.cb.ReturnSlot? ==> SameForOwner(s, Return(s))
    ensures s.cb.Post? ==> SameForOwner(s, PostNotice(s))
  {
  }

  lemma FreeSame(s: State)
    ensures s.cb.FreeBuf? ==> SameForOwner(s, FreeBuffer(s))
  {
    if s.cb.FreeBuf? { FreeLess(s.live, s.cb.buf); }
    hide FreeOpt;
  }

  lemma RestLeaves(s: State, slot: nat)
    requires |s.messages| == SLOTS && slot < SLOTS && CbEnabled(s, CbGo) && !s.cb.Placed? && !s.cb.Full?
    ensures CbLeft(s, CbNext(s), slot)
  {
    ReceiverSame(s);
    ReturnSame(s);
    FreeSame(s);
    hide PutBack, ChooseSlot, TakeReceiver, FreeBuffer, Return, PostNotice, Place, Refuse;
    assert SameForOwner(s, CbNext(s));
    hide CbNext, CbEnabled;
  }

  lemma CbLeaves(s: State, a: Step, slot: nat)
    requires MsgInv(s) && CbEnabled(s, a) && slot < SLOTS
    requires s.owner.InHand? || s.owner.Copied? ==> s.owner.slot == slot
    ensures |s.messages| == SLOTS && CbLeft(s, CbExec(s, a), slot)
  {
    LooseInPool(s);
    if a != CbGo {
      EventLeaves(s, a, slot);
    } else if s.cb.Placed? || s.cb.Full? {
      hide Place, Refuse, CbLeft, MsgInv, PutBack, ChooseSlot, TakeReceiver, FreeBuffer, Return, PostNotice;
      PlaceLeaves(s, slot);
    } else {
      RestLeaves(s, slot);
    }
    hide CbNext, CbLeft, MsgInv;
  }

  lemma StepReturns(s: State, a: Step, slot: nat, tag: Tag, b: nat, before: seq<Tag>)
    requires BufInv(s) && |s.messages| == SLOTS && Enabled(s, a) && s.owner != OwnerIdle
    requires slot < SLOTS && Returning(s, slot, tag, b, before)
    ensures Returning(Exec(s, a), slot, tag, b, before)
  {
    if CbEnabled(s, a) {
      hide Buffers, CbExec, CbEnabled, MsgInv, OwnerEnabled;
      CbLeaves(s, a, slot);
    } else {
      hide OwnerExec, OwnerEnabled, CbEnabled, Returning, BufInv;
      OwnerReturns(s, a, slot, tag, b, before);
    }
  }

  lemma OneReturns(trace: seq<State>, steps: seq<Step>, i: nat, slot: nat, tag: Tag, b: nat, before: seq<Tag>)
    requires IsRun(trace, steps) && i < |steps| && slot < SLOTS && Returning(trace[i], slot, tag, b, before)
    requires trace[i].owner != OwnerIdle
    ensures Returning(trace[i + 1], slot, tag, b, before)
  {
    RunKeepsBuffers(trace, steps, i);
    assert Takes(trace, steps, i);
    hide IsRun, Returning, BufInv;
    StepReturns(trace[i], steps[i], slot, tag, b, before);
    hide Exec, Enabled;
  }

  lemma {:induction false} StaysReturning(trace: seq<State>, steps: seq<Step>, i: nat, j: nat,
      slot: nat, tag: Tag, b: nat, before: seq<Tag>)
    requires IsRun(trace, steps) && i <= j < |trace| && slot < SLOTS && Returning(trace[i], slot, tag, b, before)
    requires forall k :: i <= k < j ==> trace[k].owner != OwnerIdle
    ensures Returning(trace[j], slot, tag, b, before)
    decreases j - i
  {
    if i < j {
      assert |trace| == |steps| + 1;
      hide *;
      StaysReturning(trace, steps, i, j - 1, slot, tag, b, before);
      OneReturns(trace, steps, j - 1, slot, tag, b, before);
    }
  }

  /** In every interleaving: a message that poll takes in time is returned by that poll, with
      the bytes the notice stands for; when poll is through, its slot is back in the pool
      and its buffer is freed. */
  lemma TakenIsReturned(trace: seq<State>, steps: seq<Step>, i: nat, j: nat)
    requires IsRun(trace, steps) && i < j < |trace| && steps[i].PollTake? && !steps[i].late
    requires trace[i].notices != [] && trace[i].notices[0].Message?
    requires trace[j].owner == OwnerIdle && forall k :: i < k < j ==> trace[k].owner != OwnerIdle
    ensures var n := trace[i].notices[0];
            && trace[j].delivered == trace[i].delivered + [n.tag]
            && n.slot in trace[j].free && n.slot < |trace[i].messages|
            && trace[i].messages[n.slot].Some? && trace[j].live[trace[i].messages[n.slot].value.buf] == 0
  {
    var s, n := trace[i], trace[i].notices[0];
    RunKeepsBuffers(trace, steps, i);
    assert Takes(trace, steps, i);
    LooseInPool(s);
    assert NoticeOk(s, s.notices[0]);
    var b := s.messages[n.slot].value.buf;
    assert BufferOk(s, b);
    hide BufInv, Buffers, Tags, Pointers, SlotInv;
    MessageLive(s, n.slot);
    TakesHead(s, steps[i]);
    StaysReturning(trace, steps, i + 1, j, n.slot, n.tag, b, s.delivered);
  }

  lemma MessageLive(s: State, slot: nat)
    requires slot < |s.messages| && s.messages[slot].Some? && BufferOk(s, s.messages[slot].value.buf)
    ensures s.messages[slot].value.buf < s.nextBuf
  {
    assert slot == 0 || slot == 1 || slot == 2;
  }

  lemma TakesHead(s: State, a: Step)
    requires Enabled(s, a) && a.PollTake? && !a.late && |s.messages| == SLOTS
    requires s.notices != [] && s.notices[0].Message?
    ensures var r := Exec(s, a);
            r == s.(notices := s.notices[1..], owner := InHand(s.notices[0].slot, s.notices[0].tag))
  {
  }

  // ---------------------------------------------------------------- losses

  /** What is under way, oldest first: in the owner's hand, queued, in the callback's. */
  function UnderWay(s: State): (tags: seq<Tag>) {
    OwnerTags(s.owner) + (NoticeTags(s.notices) + CbTags(s.cb))
  }

  /** As long as no completed message was dropped and the session is not being ended, the
      messages returned and those under way are together all that completed, in order and
      byte for byte. */
  lemma NothingLost(trace: seq<State>, steps: seq<Step>, t: nat)
    requires IsRun(trace, steps) && t < |trace|
    requires var s := trace[t];
             s.gap == None && !s.faulted && !(s.owner.Closing? && s.owner.held.Some?)
    ensures Contents(trace[t].delivered + UnderWay(trace[t])) == trace[t].completed
  {
    RunKeepsOrder(trace, steps, t);
    AllThere(trace[t]);
  }

  lemma AllThere(s: State)
    requires ViewOk(ViewOf(s)) && s.gap == None && !s.faulted && !(s.owner.Closing? && s.owner.held.Some?)
    ensures Contents(s.delivered + UnderWay(s)) == s.completed
  {
    hide NoticeTags, OwnerTags, CbTags, WillFlag;
    var c := Chain(ViewOf(s));
    assert c == s.delivered + UnderWay(s);
    assert InOrder(c, s.completed, None, true);
    OrderedContents(c, s.completed, None);
  }

  /** A message or notice is dropped exactly when memory for a buffer is refused, when a
      complete message finds no slot, or when the notice queue is full. */
  lemma DropsIff(s: State, a: Step)
    requires |s.messages| == SLOTS && CbEnabled(s, a) && !s.dropped && SlotInv(s) && Pointers(s) && Tags(s)
    ensures CbExec(s, a).dropped <==>
            || a == Allocate(false)
            || (a == CbGo && s.cb.Whole? && s.rxSlot == None && s.free == [])
            || (a == CbGo && s.cb.Full?)
  {
    if s.cb.Full? && s.cb.n.Message? { RefuseFacts(s); }
    hide SlotInv, Pointers, Tags, FreeOpt;
    DroppedSame(s);
    hide Place, PutBack, TakeReceiver, FreeBuffer, Return, PostNotice, Fetch;
  }

  /** A notice is refused exactly when sixteen are queued; else it is the last. */
  lemma PostDoes(s: State)
    requires |s.messages| == SLOTS && s.cb.Post?
    ensures var r := CbExec(s, CbGo);
            if |s.notices| < 16 then r == s.(notices := s.notices + [s.cb.n], cb := CbIdle)
            else r == s.(cb := Full(s.cb.n))
  {
    hide PutBack, ChooseSlot, Place, TakeReceiver, FreeBuffer, Return, Refuse, Fetch;
  }

  lemma DroppedSame(s: State)
    ensures Fetch(s).dropped == s.dropped && PutBack(s).dropped == s.dropped
    ensures s.cb.Placed? && |s.messages| == SLOTS ==> Place(s).dropped == s.dropped
    ensures s.cb.Release? ==> TakeReceiver(s).dropped == s.dropped
    ensures s.cb.FreeBuf? ==> FreeBuffer(s).dropped == s.dropped
    ensures s.cb.ReturnSlot? ==> Return(s).dropped == s.dropped
    ensures s.cb.Post? ==> PostNotice(s).dropped == s.dropped
  {
  }

  /** The flag is never set without a loss. */
  predicate FlagMeansLoss(s: State) {
    s.overflow || WillFlag(s.cb) ==> s.dropped
  }

  lemma EventFlags(s: State, a: Step)
    requires |s.messages| == SLOTS && CbEnabled(s, a) && a != CbGo && FlagMeansLoss(s)
    ensures FlagMeansLoss(CbExec(s, a))
  {
    hide CbNext;
  }

  lemma ReceiverFlags(s: State)
    requires FlagMeansLoss(s) && |s.messages| == SLOTS
    ensures s.cb.NoMemory? ==> FlagMeansLoss(PutBack(s))
    ensures s.cb.Whole? ==> FlagMeansLoss(ChooseSlot(s))
    ensures s.cb.Placed? ==> FlagMeansLoss(Place(s))
    ensures s.cb.Release? ==> FlagMeansLoss(TakeReceiver(s))
    ensures s.cb.FreeBuf? ==> FlagMeansLoss(FreeBuffer(s))
  {
    hide FreeOpt;
  }

  lemma ReturnFlags(s: State)
    requires FlagMeansLoss(s) && |s.messages| == SLOTS
    ensures s.cb.ReturnSlot? && (s.cb.gone.Some? ==> |s.free| < SLOTS) ==> FlagMeansLoss(Return(s))
    ensures s.cb.Post? ==> FlagMeansLoss(PostNotice(s))
    ensures s.cb.Full? ==> FlagMeansLoss(Refuse(s))
  {
  }

  lemma CbFlags(s: State, a: Step)
    requires |s.messages| == SLOTS && CbEnabled(s, a) && FlagMeansLoss(s)
    requires s.cb.ReturnSlot? && s.cb.gone.Some? ==> |s.free| < SLOTS
    ensures FlagMeansLoss(CbExec(s, a))
  {
    if a != CbGo { EventFlags(s, a); }
    ReceiverFlags(s);
    ReturnFlags(s);
    hide PutBack, ChooseSlot, Place, TakeReceiver, FreeBuffer, Return, PostNotice, Refuse, Fetch;
  }

  lemma OwnerFlags(s: State, a: Step)
    requires |s.messages| == SLOTS && OwnerEnabled(s, a) && FlagMeansLoss(s)
    requires s.owner.Giving? ==> |s.free| < SLOTS
    ensures FlagMeansLoss(OwnerExec(s, a))
  {
    hide FreeOpt, FreeHeld, WillFlag;
    assert WillFlag(CbIdle) == false by { IdleParts(); }
    if a == OwnerGo { OwnerGoFlags(s); }
    hide OwnerNext;
  }

  lemma OwnerGoFlags(s: State)
    requires |s.messages| == SLOTS && OwnerEnabled(s, OwnerGo) && FlagMeansLoss(s)
    requires s.owner.Giving? ==> |s.free| < SLOTS
    ensures FlagMeansLoss(OwnerNext(s))
  {
    hide FreeOpt, WillFlag;
  }

  lemma {:induction false} RunFlags(trace: seq<State>, steps: seq<Step>, t: nat)
    requires IsRun(trace, steps) && t < |trace|
    ensures FlagMeansLoss(trace[t])
  {
    if t > 0 {
      assert Takes(trace, steps, t - 1);
      hide FlagMeansLoss, CbExec, OwnerExec, CbEnabled, OwnerEnabled, IsRun;
      RunFlags(trace, steps, t - 1);
      ReturnsNeverFail(trace, steps, t - 1);
      var s, a := trace[t - 1], steps[t - 1];
      if CbEnabled(s, a) { CbFlags(s, a); } else { OwnerFlags(s, a); }
    }
  }

  /** Once the callback has stored the flag, a poll ends the session with ERROR_QUEUE if and
      only if something was dropped since the last drain. */
  lemma ErrorIffLoss(trace: seq<State>, steps: seq<Step>, t: nat)
    requires IsRun(trace, steps) && t < |trace|
    requires !WillFlag(trace[t].cb) && OwnerEnabled(trace[t], PollCheck)
    ensures Check(trace[t]).owner == Closing(Lost, None) <==> trace[t].dropped
    ensures Check(trace[t]).owner == Checked <==> !trace[t].dropped
  {
    RunFlags(trace, steps, t);
    if trace[t].dropped { LossIsReported(trace, steps, t, true); }
    hide WillFlag;
  }

  // ---------------------------------------------------------------- the rest of a poll, stops and starts

  /** What a poll takes from the queue of notices: the head, or nothing; a message past its
      deadline keeps its slot until the session is stopped. */
  lemma TakeDoes(s: State, late: bool, fatal: bool)
    requires s.owner == Checked && |s.messages| == SLOTS
    ensures var r := OwnerExec(s, PollTake(late, fatal));
            && r == s.(notices := r.notices, owner := r.owner)
            && s.notices == (if s.notices == [] then [] else [s.notices[0]]) + r.notices
            && (r.owner.Closing? <==> late || (fatal && s.notices != [] && s.notices[0].Other?))
            && (r.owner.Closing? ==> r.owner.why == Failed)
            && (r.owner.Closing? ==>
                  r.owner.held == if late && s.notices != [] && s.notices[0].Message? then Some(s.notices[0].slot)
                                  else None)
            && (!r.owner.Closing? ==>
                  r.owner == if s.notices != [] && s.notices[0].Message?
                             then InHand(s.notices[0].slot, s.notices[0].tag) else OwnerIdle)
  {
  }

  /** A stop that the SDK accepts leaves the runtime stopped and drained; one it refuses
      leaves everything as it was. Either way the runtime is faulted unless the
      application asked. */
  lemma StopDoes(s: State, ok: bool)
    requires OwnerEnabled(s, EndStop(ok)) && |s.messages| == SLOTS
    ensures var r := OwnerExec(s, EndStop(ok));
            && r.owner == OwnerIdle && r.cb == s.cb
            && (if ok then !r.started && (r.faulted <==> s.owner.why != Asked) && !r.overflow && !r.dropped
                           && r.notices == [] && r.free == [0, 1, 2] && r.completed == [] && r.delivered == []
                else r.started == s.started && (r.faulted <==> s.faulted || s.owner.why != Asked)
                     && r.notices == s.notices && r.free == s.free && r.messages == s.messages && r.live == s.live)
  {
    hide FreeOpt, FreeHeld;
  }

  /** A start drains what an earlier session left and runs if and only if the SDK starts. */
  lemma StartDoes(s: State, ok: bool)
    requires OwnerEnabled(s, StartRuntime(ok)) && |s.messages| == SLOTS
    ensures var r := OwnerExec(s, StartRuntime(ok));
            && (r.started <==> ok) && r.owner == OwnerIdle && r.cb == s.cb && !r.faulted && !r.overflow && !r.dropped
            && r.notices == [] && r.free == [0, 1, 2] && r.completed == [] && r.delivered == []
  {
    hide FreeOpt, FreeHeld, Take, Check, OwnerNext, NotStopped;
  }

  /** The first fragment of a message reserves the slot at the head of the pool, if there is
      one; a later one goes on in the buffer at hand. */
  lemma DataDoes(s: State)
    requires |s.messages| == SLOTS && CbEnabled(s, DataEvent)
    ensures var r := CbExec(s, DataEvent);
            && r == s.(rxSlot := r.rxSlot, free := r.free, cb := r.cb)
            && (s.rxBuf.Some? ==> r == s.(cb := Filling))
            && (s.rxBuf == None ==> r.cb == Fetched)
            && (s.rxBuf == None && s.free == [] ==> r.rxSlot == None && r.free == [])
            && (s.rxBuf == None && s.free != [] ==> r.rxSlot == Some(s.free[0]) && s.free == [s.free[0]] + r.free)
  {
    hide CbNext;
  }
}
