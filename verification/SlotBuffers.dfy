/** Message pointers and buffers of the slot pool: a pointer is set exactly while its slot
    is in a message notice, every allocated buffer has one place, and at most four live. */
module SlotBuffers {
  import opened Bytes
  import opened SlotPool

  // ---------------------------------------------------------------- pointers

  /** The message notice in the callback's hands, its pointer set. */
  function CbNotice(s: State): (n: Option<Notice>) {
    if (s.cb.Post? || s.cb.Full?) && s.cb.n.Message? then Some(s.cb.n) else None
  }

  function CbFilled(s: State): (slot: Option<nat>) {
    if CbNotice(s).Some? then SlotOf(CbNotice(s).value) else None
  }

  function OwnerFilled(s: State): (slot: Option<nat>) {
    match s.owner
    case InHand(slot, _) => Some(slot)
    case Copied(slot) => Some(slot)
    case Closing(_, held) => held
    case _ => None
  }

  /** Message notices, wherever they are, that name slot `x`. */
  function Named(s: State, x: nat): (n: nat) {
    CountNotices(s.notices, x) + Eq(CbFilled(s), x) + Eq(OwnerFilled(s), x) + Count(s.leaked, x)
  }

  predicate PointerAt(s: State, x: nat) {
    x < |s.messages| && Named(s, x) == if s.messages[x].Some? then 1 else 0
  }

  predicate Pointers(s: State) {
    |s.messages| == SLOTS && PointerAt(s, 0) && PointerAt(s, 1) && PointerAt(s, 2)
  }

  /** The pointer holds the message the notice stands for. */
  predicate TagAt(s: State, slot: nat, tag: Tag) {
    slot < |s.messages| && s.messages[slot].Some? && s.messages[slot].value.tag == tag
  }

  predicate NoticeOk(s: State, n: Notice) {
    n.Message? ==> TagAt(s, n.slot, n.tag)
  }

  predicate Tags(s: State) {
    && (forall i :: 0 <= i < |s.notices| ==> NoticeOk(s, s.notices[i]))
    && (CbNotice(s).Some? ==> NoticeOk(s, CbNotice(s).value))
    && (s.owner.InHand? ==> TagAt(s, s.owner.slot, s.owner.tag))
    && (s.owner.Copied? ==> s.owner.slot < |s.messages| && s.messages[s.owner.slot].Some?)
  }

  ghost predicate MsgInv(s: State) {
    SlotInv(s) && Pointers(s) && Tags(s)
  }

  /** Nothing about message notices changed, except that a message was copied out. */
  predicate SameMessages(s: State, r: State) {
    && r.messages == s.messages && r.notices == s.notices && r.leaked == s.leaked
    && CbNotice(r) == CbNotice(s) && OwnerFilled(r) == OwnerFilled(s)
    && (r.owner.InHand? ==> r.owner == s.owner)
    && (r.owner.Copied? ==> r.owner == s.owner || (s.owner.InHand? && s.owner.slot == r.owner.slot))
  }

  lemma SameKeepsMsg(s: State, r: State)
    requires Pointers(s) && Tags(s) && SameMessages(s, r)
    ensures Pointers(r) && Tags(r)
  {
    hide Count, CountNotices;
    forall i | 0 <= i < |r.notices| ensures NoticeOk(r, r.notices[i]) {
      assert NoticeOk(s, s.notices[i]);
    }
  }

  lemma {:induction false} NoticeCounted(q: seq<Notice>, i: nat)
    requires i < |q| && q[i].Message?
    ensures CountNotices(q, q[i].slot) >= 1
  {
    if i < |q| - 1 { NoticeCounted(q[..|q| - 1], i); }
  }

  /** A slot being filled has no pointer yet. */
  lemma NoPointerYet(s: State)
    requires MsgInv(s) && s.cb.Placed?
    ensures s.cb.slot < SLOTS && s.messages[s.cb.slot] == None && s.rxBuf.Some?
  {
    var x := s.cb.slot;
    hide Tags, Count, CountNotices;
    assert Places(s, x) == if x < SLOTS then 1 else 0;
    assert Named(s, x) == 0;
  }

  lemma PlaceTags(s: State)
    requires Tags(s) && s.cb.Placed? && |s.messages| == SLOTS && s.cb.slot < SLOTS && s.messages[s.cb.slot] == None
             && s.rxBuf.Some?
    ensures Tags(Place(s))
  {
    var r := Place(s);
    forall i | 0 <= i < |r.notices| ensures NoticeOk(r, r.notices[i]) {
      assert NoticeOk(s, s.notices[i]);
    }
  }

  lemma PlacePointer(s: State, x: nat)
    requires s.cb.Placed? && |s.messages| == SLOTS && s.cb.slot < SLOTS && s.messages[s.cb.slot] == None
             && s.rxBuf.Some?
    requires PointerAt(s, x)
    ensures PointerAt(Place(s), x)
  {
    hide Count, CountNotices;
  }

  lemma PlaceMsg(s: State)
    requires MsgInv(s) && s.cb.Placed?
    ensures Pointers(Place(s)) && Tags(Place(s))
  {
    NoPointerYet(s);
    hide PointerAt, Tags, Partition, Positions;
    PlaceTags(s);
    PlacePointer(s, 0);
    PlacePointer(s, 1);
    PlacePointer(s, 2);
    assert |Place(s).messages| == SLOTS;
  }

  lemma PostTags(s: State)
    requires Tags(s) && s.cb.Post?
    ensures Tags(PostNotice(s))
  {
    var r := PostNotice(s);
    forall i | 0 <= i < |r.notices| ensures NoticeOk(r, r.notices[i]) {
      if i < |s.notices| { assert NoticeOk(s, s.notices[i]); }
    }
  }

  lemma PostPointer(s: State, x: nat)
    requires PointerAt(s, x) && s.cb.Post?
    ensures PointerAt(PostNotice(s), x)
  {
    hide Count, CountNotices;
    CountNoticesSnoc(s.notices, s.cb.n, x);
  }

  lemma PostMsg(s: State)
    requires MsgInv(s) && s.cb.Post?
    ensures Pointers(PostNotice(s)) && Tags(PostNotice(s))
  {
    hide PointerAt, Tags, Partition, Positions;
    PostTags(s);
    PostPointer(s, 0);
    PostPointer(s, 1);
    PostPointer(s, 2);
    assert |PostNotice(s).messages| == SLOTS;
  }

  /** Clearing the pointer of a slot touches no other notice. */
  lemma ClearKeepsTags(s: State, x: nat, r: State)
    requires Tags(s) && CountNotices(s.notices, x) == 0 && x < |s.messages|
    requires r.messages == s.messages[x := None] && r.notices == s.notices
    requires CbNotice(r) == None || (CbNotice(r) == CbNotice(s) && CbFilled(s) != Some(x))
    requires r.owner.InHand? || r.owner.Copied? ==> r.owner == s.owner && r.owner.slot != x
    ensures Tags(r)
  {
    hide Count, CountNotices;
    forall i | 0 <= i < |r.notices| ensures NoticeOk(r, r.notices[i]) {
      assert NoticeOk(s, s.notices[i]);
      if s.notices[i].Message? { NoticeCounted(s.notices, i); }
    }
  }

  lemma RefuseFacts(s: State)
    requires MsgInv(s) && s.cb.Full? && s.cb.n.Message?
    ensures var x := s.cb.n.slot;
            x < SLOTS && s.messages[x].Some? && CountNotices(s.notices, x) == 0 && OwnerSlot(s) != Some(x)
  {
    var x := s.cb.n.slot;
    assert NoticeOk(s, s.cb.n);
    hide Count, CountNotices, Pointers, Positions;
    assert Places(s, x) == if x < SLOTS then 1 else 0;
  }

  lemma RefusePointer(s: State, x: nat)
    requires s.cb.Full? && s.cb.n.Message? && |s.messages| == SLOTS && s.cb.n.slot < SLOTS
             && s.messages[s.cb.n.slot].Some?
    requires PointerAt(s, x)
    ensures PointerAt(Refuse(s), x)
  {
    hide Count, CountNotices;
  }

  lemma RefuseMsg(s: State)
    requires MsgInv(s) && s.cb.Full?
    ensures Pointers(Refuse(s)) && Tags(Refuse(s))
  {
    var r := Refuse(s);
    if s.cb.n.Message? {
      RefuseFacts(s);
      hide PointerAt, Tags, Partition, Positions;
      ClearKeepsTags(s, s.cb.n.slot, r);
      RefusePointer(s, 0);
      RefusePointer(s, 1);
      RefusePointer(s, 2);
    } else {
      hide Pointers, Tags, Partition, Positions;
      SameKeepsMsg(s, r);
    }
  }

  lemma DetachFacts(s: State)
    requires MsgInv(s) && s.owner.Copied?
    ensures var x := s.owner.slot;
            x < SLOTS && s.messages[x].Some? && CountNotices(s.notices, x) == 0 && CbFilled(s) != Some(x)
  {
    var x := s.owner.slot;
    hide Count, CountNotices, Pointers, Positions;
    assert Places(s, x) == if x < SLOTS then 1 else 0;
  }

  lemma DetachPointer(s: State, x: nat)
    requires s.owner.Copied? && |s.messages| == SLOTS && s.owner.slot < SLOTS && s.messages[s.owner.slot].Some?
    requires PointerAt(s, x)
    ensures PointerAt(Detach(s), x)
  {
    hide Count, CountNotices;
  }

  lemma DetachMsg(s: State)
    requires MsgInv(s) && s.owner.Copied?
    ensures Pointers(Detach(s)) && Tags(Detach(s))
  {
    DetachFacts(s);
    hide PointerAt, Tags, Partition, Positions;
    ClearKeepsTags(s, s.owner.slot, Detach(s));
    DetachPointer(s, 0);
    DetachPointer(s, 1);
    DetachPointer(s, 2);
  }

  lemma TakePointer(s: State, late: bool, fatal: bool, x: nat)
    requires PointerAt(s, x) && s.owner == Checked
    ensures PointerAt(Take(s, late, fatal), x)
  {
    hide Count, CountNotices;
    if s.notices != [] { CountNoticesHead(s.notices, x); }
  }

  lemma TakeTags(s: State, late: bool, fatal: bool)
    requires Tags(s) && s.owner == Checked
    ensures Tags(Take(s, late, fatal))
  {
    var r := Take(s, late, fatal);
    if s.notices != [] {
      assert NoticeOk(s, s.notices[0]);
      forall i | 0 <= i < |r.notices| ensures NoticeOk(r, r.notices[i]) {
        assert NoticeOk(s, s.notices[i + 1]);
      }
    }
  }

  lemma TakeMsg(s: State, late: bool, fatal: bool)
    requires MsgInv(s) && s.owner == Checked
    ensures Pointers(Take(s, late, fatal)) && Tags(Take(s, late, fatal))
  {
    hide PointerAt, Tags, Partition, Positions;
    TakeTags(s, late, fatal);
    TakePointer(s, late, fatal, 0);
    TakePointer(s, late, fatal, 1);
    TakePointer(s, late, fatal, 2);
    assert |Take(s, late, fatal).messages| == SLOTS;
  }

  lemma NotStoppedPointer(s: State, x: nat)
    requires PointerAt(s, x) && s.owner.Closing?
    ensures PointerAt(NotStopped(s), x)
  {
    hide Count, CountNotices;
    if s.owner.held.Some? {
      CountSnoc(s.leaked, s.owner.held.value, x);
    } else {
      assert s.leaked + [] == s.leaked;
    }
  }

  lemma NotStoppedTags(s: State)
    requires Tags(s) && s.owner.Closing?
    ensures Tags(NotStopped(s))
  {
    var r := NotStopped(s);
    forall i | 0 <= i < |r.notices| ensures NoticeOk(r, r.notices[i]) {
      assert NoticeOk(s, s.notices[i]);
    }
  }

  lemma NotStoppedMsg(s: State)
    requires MsgInv(s) && s.owner.Closing?
    ensures Pointers(NotStopped(s)) && Tags(NotStopped(s))
  {
    hide PointerAt, Tags, Partition, Positions;
    NotStoppedTags(s);
    NotStoppedPointer(s, 0);
    NotStoppedPointer(s, 1);
    NotStoppedPointer(s, 2);
    assert |NotStopped(s).messages| == SLOTS;
  }

  lemma EmptyMsg(r: State)
    requires r.messages == [None, None, None] && r.notices == [] && r.leaked == []
    requires CbNotice(r) == None && (r.owner == OwnerIdle)
    ensures Pointers(r) && Tags(r)
  {
    CountAll(0);
    CountAll(1);
    CountAll(2);
    hide Count, CountNotices;
  }

  lemma EventSame(s: State, a: Step)
    requires Positions(s) && CbEnabled(s, a) && a != CbGo
    ensures SameMessages(s, CbExec(s, a))
  {
    hide CbNext, Fetch;
    if a == DataEvent {
      FetchSame(s);
    } else if a.Allocate? || a.Complete? || a.More? || a.Rejected? {
      FillSame(s, a);
    }
  }

  lemma FillSame(s: State, a: Step)
    requires |s.messages| == SLOTS && CbEnabled(s, a) && (a.Allocate? || a.Complete? || a.More? || a.Rejected?)
    ensures SameMessages(s, CbExec(s, a))
  {
    hide CbNext, Fetch;
  }

  lemma FetchSame(s: State)
    requires s.cb == CbIdle
    ensures SameMessages(s, Fetch(s))
  {
  }

  lemma PutBackSame(s: State)
    requires s.cb.NoMemory?
    ensures SameMessages(s, PutBack(s))
  {
  }

  lemma ChooseSame(s: State)
    requires s.cb.Whole?
    ensures SameMessages(s, ChooseSlot(s))
  {
  }

  lemma ReceiverSame(s: State)
    requires Positions(s) && (s.cb.NoMemory? || s.cb.SlotBack? || s.cb.Whole?)
    ensures SameMessages(s, CbNext(s))
  {
    hide Place, TakeReceiver, FreeBuffer, Return, PostNotice, Refuse, PutBack, ChooseSlot, Positions;
    if s.cb.NoMemory? { PutBackSame(s); }
    if s.cb.Whole? { ChooseSame(s); }
  }

  lemma ReleaseSame(s: State)
    requires Positions(s) && (s.cb.Release? || s.cb.FreeBuf? || s.cb.ReturnSlot? || s.cb.Flag?)
    ensures SameMessages(s, CbNext(s))
  {
    hide TakeReceiver, FreeBuffer, Return, Place, PutBack, ChooseSlot, PostNotice, Refuse;
    match s.cb
    case Release(_) => FreeSame(s);
    case FreeBuf(_, _, _) => FreeSame(s);
    case ReturnSlot(_, _) => ReturnSame(s);
    case Flag =>
  }

  lemma FreeSame(s: State)
    ensures s.cb.Release? ==> SameMessages(s, TakeReceiver(s))
    ensures s.cb.FreeBuf? ==> SameMessages(s, FreeBuffer(s))
  {
    hide FreeOpt;
  }

  lemma ReturnSame(s: State)
    requires s.cb.ReturnSlot?
    ensures SameMessages(s, Return(s))
  {
  }

  lemma CbRest(s: State, a: Step)
    requires Positions(s) && CbEnabled(s, a) && (a == CbGo ==> !s.cb.Placed? && !s.cb.Post? && !s.cb.Full?)
    ensures SameMessages(s, CbExec(s, a))
  {
    hide CbNext, SameMessages, Positions;
    if a != CbGo {
      EventSame(s, a);
    } else if s.cb.NoMemory? || s.cb.SlotBack? || s.cb.Whole? {
      ReceiverSame(s);
    } else {
      ReleaseSame(s);
    }
  }

  lemma CbKeepsMsg(s: State, a: Step)
    requires MsgInv(s) && CbEnabled(s, a)
    ensures MsgInv(CbExec(s, a))
  {
    hide Pointers, Tags, Place, PostNotice, Refuse, Partition;
    CbKeepsSlots(s, a);
    if a == CbGo && s.cb.Placed? {
      PlaceMsg(s);
    } else if a == CbGo && s.cb.Post? {
      PostMsg(s);
    } else if a == CbGo && s.cb.Full? {
      RefuseMsg(s);
    } else {
      hide CbNext, CbExec, SameMessages, Positions;
      CbRest(s, a);
      SameKeepsMsg(s, CbExec(s, a));
    }
  }

  lemma OwnerSame(s: State, a: Step)
    requires Positions(s) && OwnerEnabled(s, a) && (a.PollCheck? || a.BeginStop?)
    ensures SameMessages(s, OwnerExec(s, a))
  {
    hide OwnerNext, Take, Stopped, NotStopped, Drain;
  }

  lemma CopySame(s: State)
    requires s.owner.InHand? && |s.messages| == SLOTS && TagAt(s, s.owner.slot, s.owner.tag)
    ensures SameMessages(s, CopyOut(s))
  {
  }

  lemma GiveSame(s: State)
    requires |s.messages| == SLOTS && OwnerEnabled(s, OwnerGo) && (s.owner.Loose? || s.owner.Giving?)
    ensures SameMessages(s, OwnerNext(s))
  {
    hide Detach, CopyOut, FreeOpt;
  }

  lemma OwnerRest(s: State, a: Step)
    requires Positions(s) && Tags(s) && OwnerEnabled(s, a) && (a == OwnerGo ==> !s.owner.Copied?)
    requires a.OwnerGo? || a.PollCheck? || a.BeginStop?
    ensures SameMessages(s, OwnerExec(s, a))
  {
    if a == OwnerGo {
      if s.owner.InHand? {
        hide CopyOut, SameMessages, Positions;
        CopySame(s);
      } else {
        hide OwnerNext, SameMessages;
        GiveSame(s);
      }
    } else {
      hide OwnerExec, SameMessages, Positions, Tags;
      OwnerSame(s, a);
    }
  }

  lemma DrainedMsg(s: State, a: Step)
    requires Positions(s) && OwnerEnabled(s, a) && (a == EndStop(true) || a.StartRuntime?)
    ensures Pointers(OwnerExec(s, a)) && Tags(OwnerExec(s, a))
  {
    hide Pointers, Tags, FreeHeld, FreeOpt, OwnerNext, Take, Check, NotStopped;
    EmptyMsg(OwnerExec(s, a));
  }

  lemma OwnerKeepsMsg(s: State, a: Step)
    requires MsgInv(s) && OwnerEnabled(s, a)
    ensures MsgInv(OwnerExec(s, a))
  {
    assert |s.messages| == SLOTS;
    hide Pointers, Tags, Detach, Take, NotStopped, Partition, Stopped, Drain, Check, CopyOut, GiveBack, Positions;
    OwnerKeepsSlots(s, a);
    if a == OwnerGo && s.owner.Copied? {
      DetachMsg(s);
    } else if a.PollTake? {
      TakeMsg(s, a.late, a.fatal);
    } else if a == EndStop(false) {
      NotStoppedMsg(s);
    } else {
      hide OwnerExec, OwnerNext, SameMessages;
      if a == EndStop(true) || a.StartRuntime? {
        DrainedMsg(s, a);
      } else {
        OwnerRest(s, a);
        SameKeepsMsg(s, OwnerExec(s, a));
      }
    }
  }

  // ---------------------------------------------------------------- buffers

  function BufOf(h: Option<Held>): (b: Option<nat>) {
    match h
    case None => None
    case Some(x) => Some(x.buf)
  }

  function CbBuf(s: State): (b: Option<nat>) {
    if s.cb.FreeBuf? then s.cb.buf else None
  }

  function OwnerBuf(s: State): (b: Option<nat>) {
    if s.owner.Loose? then Some(s.owner.buf) else None
  }

  function InMessages(messages: seq<Option<Held>>, b: nat): (n: nat)
    requires |messages| == SLOTS
  {
    Eq(BufOf(messages[0]), b) + Eq(BufOf(messages[1]), b) + Eq(BufOf(messages[2]), b)
  }

  lemma SetMessage(messages: seq<Option<Held>>, x: nat, h: Option<Held>, b: nat)
    requires |messages| == SLOTS && x < SLOTS
    ensures InMessages(messages[x := h], b) + Eq(BufOf(messages[x]), b) == InMessages(messages, b) + Eq(BufOf(h), b)
  {
    assert x == 0 || x == 1 || x == 2;
  }

  /** How many places hold buffer `b`. */
  function Holders(s: State, b: nat): (n: nat)
    requires |s.messages| == SLOTS
  {
    InMessages(s.messages, b) + Eq(s.rxBuf, b) + Eq(CbBuf(s), b) + Eq(OwnerBuf(s), b)
  }

  predicate BufferOk(s: State, b: nat) {
    |s.messages| == SLOTS && s.live[b] == Holders(s, b) <= 1 && (b >= s.nextBuf ==> s.live[b] == 0)
  }

  ghost predicate Buffers(s: State) {
    forall b: nat :: BufferOk(s, b)
  }

  ghost predicate BufInv(s: State) {
    MsgInv(s) && Buffers(s)
  }

  predicate SameBuffers(s: State, r: State) {
    && r.messages == s.messages && r.live == s.live && r.nextBuf == s.nextBuf
    && r.rxBuf == s.rxBuf && CbBuf(r) == CbBuf(s) && OwnerBuf(r) == OwnerBuf(s)
  }

  lemma AllocateBuffer(s: State, ok: bool, b: nat)
    requires Positions(s) && s.cb == Fetched && BufferOk(s, b)
    ensures BufferOk(CbExec(s, Allocate(ok)), b)
  {
    hide CbNext, Fetch;
  }

  lemma PlaceBuffer(s: State, b: nat)
    requires s.cb.Placed? && BufferOk(s, b) && s.cb.slot < SLOTS && s.messages[s.cb.slot] == None
    ensures BufferOk(Place(s), b)
  {
    hide InMessages;
    if s.rxBuf.Some? { SetMessage(s.messages, s.cb.slot, Some(Held(s.rxBuf.value, s.cb.tag)), b); }
  }

  lemma FreeOneBuffer(s: State, b: nat)
    requires BufferOk(s, b) && Positions(s)
    ensures s.cb.Release? ==> BufferOk(TakeReceiver(s), b)
    ensures s.cb.FreeBuf? ==> BufferOk(FreeBuffer(s), b)
  {
  }

  lemma RefuseBuffer(s: State, b: nat)
    requires s.cb.Full? && BufferOk(s, b)
    ensures BufferOk(Refuse(s), b)
  {
    hide InMessages;
    if s.cb.n.Message? && s.cb.n.slot < SLOTS { SetMessage(s.messages, s.cb.n.slot, None, b); }
  }

  lemma DetachBuffer(s: State, b: nat)
    requires s.owner.Copied? && BufferOk(s, b)
    ensures BufferOk(Detach(s), b)
  {
    hide InMessages;
    if s.owner.slot < SLOTS { SetMessage(s.messages, s.owner.slot, None, b); }
  }

  lemma OwnerBuffer(s: State, b: nat)
    requires OwnerEnabled(s, OwnerGo) && BufferOk(s, b)
    ensures BufferOk(OwnerNext(s), b)
  {
    hide InMessages, Detach, CopyOut, GiveBack;
    match s.owner
    case InHand(_, _) => CopyBuffer(s, b);
    case Copied(_) => DetachBuffer(s, b);
    case Loose(_, _) =>
    case Giving(_) => CopyBuffer(s, b);
  }

  lemma CopyBuffer(s: State, b: nat)
    requires BufferOk(s, b)
    ensures s.owner.InHand? ==> BufferOk(CopyOut(s), b)
    ensures s.owner.Giving? ==> BufferOk(GiveBack(s), b)
  {
    hide InMessages;
  }

  lemma DrainBuffer(s: State, b: nat)
    requires BufferOk(s, b) && CbBuf(s) == None && OwnerBuf(s) == None
    ensures Drain(s).live[b] == 0
  {
    var l0 := FreeOpt(s.live, s.rxBuf);
    var l1 := FreeHeld(l0, s.messages[0]);
    var l2 := FreeHeld(l1, s.messages[1]);
    FreeOptCount(s.live, s.rxBuf, b);
    FreeHeldCount(l0, s.messages[0], b);
    FreeHeldCount(l1, s.messages[1], b);
    FreeHeldCount(l2, s.messages[2], b);
    hide FreeOpt, FreeHeld, BufOf;
  }

  lemma FreeOptCount(live: multiset<nat>, o: Option<nat>, b: nat)
    ensures FreeOpt(live, o)[b] == if live[b] >= Eq(o, b) then live[b] - Eq(o, b) else 0
  {
  }

  lemma FreeHeldCount(live: multiset<nat>, h: Option<Held>, b: nat)
    ensures FreeHeld(live, h)[b] == if live[b] >= Eq(BufOf(h), b) then live[b] - Eq(BufOf(h), b) else 0
  {
  }

  lemma SameKeepsBuffer(s: State, r: State, b: nat)
    requires SameBuffers(s, r) && BufferOk(s, b)
    ensures BufferOk(r, b)
  {
  }

  lemma CbSameBuffers(s: State, a: Step)
    requires Positions(s) && CbEnabled(s, a) && a != Allocate(true)
    requires a == CbGo ==> !s.cb.Placed? && !s.cb.Release? && !s.cb.FreeBuf? && !(s.cb.Full? && s.cb.n.Message?)
    ensures SameBuffers(s, CbExec(s, a))
  {
    hide Place, TakeReceiver, FreeBuffer, CbNext;
    if a == CbGo { CbNextSameBuffers(s); }
  }

  lemma CbNextSameBuffers(s: State)
    requires Positions(s) && CbEnabled(s, CbGo)
    requires !s.cb.Placed? && !s.cb.Release? && !s.cb.FreeBuf? && !(s.cb.Full? && s.cb.n.Message?)
    ensures SameBuffers(s, CbNext(s))
  {
    hide Place, TakeReceiver, FreeBuffer, Refuse, PutBack, ChooseSlot, Return, PostNotice;
    ReceiverSameBuffers(s);
    PostSameBuffers(s);
  }

  lemma ReceiverSameBuffers(s: State)
    requires Positions(s)
    ensures s.cb.NoMemory? ==> SameBuffers(s, PutBack(s))
    ensures s.cb.Whole? ==> SameBuffers(s, ChooseSlot(s))
  {
  }

  lemma PostSameBuffers(s: State)
    requires Positions(s)
    ensures s.cb.ReturnSlot? ==> SameBuffers(s, Return(s))
    ensures s.cb.Post? ==> SameBuffers(s, PostNotice(s))
    ensures s.cb.Full? && s.cb.n.Other? ==> SameBuffers(s, Refuse(s))
  {
  }

  lemma CbBuffer(s: State, a: Step, b: nat)
    requires MsgInv(s) && CbEnabled(s, a) && BufferOk(s, b)
    ensures BufferOk(CbExec(s, a), b)
  {
    if a == CbGo && s.cb.Placed? { NoPointerYet(s); }
    hide BufferOk, Pointers, Tags, Partition, Place, TakeReceiver, FreeBuffer, Refuse, PutBack, ChooseSlot, Return,
        PostNotice, Fetch;
    if a.Allocate? {
      AllocateBuffer(s, a.ok, b);
    } else if a == CbGo && s.cb.Placed? {
      PlaceBuffer(s, b);
    } else if a == CbGo && (s.cb.Release? || s.cb.FreeBuf?) {
      FreeOneBuffer(s, b);
    } else if a == CbGo && s.cb.Full? {
      RefuseBuffer(s, b);
    } else {
      hide CbExec, CbNext, SameBuffers, Positions;
      CbSameBuffers(s, a);
      SameKeepsBuffer(s, CbExec(s, a), b);
    }
  }

  lemma CbKeepsBuffers(s: State, a: Step)
    requires BufInv(s) && CbEnabled(s, a)
    ensures BufInv(CbExec(s, a))
  {
    CbKeepsMsg(s, a);
    hide CbExec, BufferOk, MsgInv, CbEnabled;
    forall b: nat ensures BufferOk(CbExec(s, a), b) {
      CbBuffer(s, a, b);
    }
  }

  /** Without holders, and not live. */
  lemma NowhereOk(r: State, b: nat)
    requires r.messages == [None, None, None] && r.rxBuf == None && CbBuf(r) == None && OwnerBuf(r) == None
    requires r.live[b] == 0
    ensures BufferOk(r, b)
  {
  }

  lemma DrainedBuffer(s: State, a: Step, b: nat)
    requires Positions(s) && OwnerEnabled(s, a) && (a == EndStop(true) || a.StartRuntime?) && BufferOk(s, b)
    ensures BufferOk(OwnerExec(s, a), b)
  {
    DrainBuffer(s, b);
    hide FreeHeld, FreeOpt, OwnerNext, Take, Check, NotStopped, BufferOk;
    NowhereOk(OwnerExec(s, a), b);
  }

  lemma TakeSameBuffers(s: State, late: bool, fatal: bool)
    requires s.owner == Checked
    ensures SameBuffers(s, Take(s, late, fatal))
  {
  }

  lemma OwnerSameBuffers(s: State, a: Step)
    requires Positions(s) && OwnerEnabled(s, a) && a != OwnerGo && a != EndStop(true) && !a.StartRuntime?
    ensures SameBuffers(s, OwnerExec(s, a))
  {
    hide Drain, OwnerNext, Stopped, Take, Positions;
    if a.PollTake? { TakeSameBuffers(s, a.late, a.fatal); }
  }

  lemma OwnerKeepsBuffer(s: State, a: Step, b: nat)
    requires MsgInv(s) && OwnerEnabled(s, a) && BufferOk(s, b)
    ensures BufferOk(OwnerExec(s, a), b)
  {
    assert Positions(s);
    hide Pointers, Tags, Partition, Positions;
    if a == OwnerGo {
      hide OwnerNext, BufferOk;
      OwnerBuffer(s, b);
    } else {
      hide OwnerExec, BufferOk, SameBuffers;
      if a == EndStop(true) || a.StartRuntime? {
        DrainedBuffer(s, a, b);
      } else {
        OwnerSameBuffers(s, a);
        SameKeepsBuffer(s, OwnerExec(s, a), b);
      }
    }
  }

  lemma OwnerKeepsBuffers(s: State, a: Step)
    requires BufInv(s) && OwnerEnabled(s, a)
    ensures BufInv(OwnerExec(s, a))
  {
    OwnerKeepsMsg(s, a);
    hide OwnerExec, BufferOk, MsgInv, OwnerEnabled;
    forall b: nat ensures BufferOk(OwnerExec(s, a), b) {
      OwnerKeepsBuffer(s, a, b);
    }
  }

  // ---------------------------------------------------------------- the claims

  ghost predicate Takes(trace: seq<State>, steps: seq<Step>, i: nat)
    requires |trace| == |steps| + 1 && i < |steps|
  {
    |trace[i].messages| == SLOTS && Enabled(trace[i], steps[i]) && trace[i + 1] == Exec(trace[i], steps[i])
  }

  /** A run of both tasks from creation, interleaved in this order: `trace[i]` is the
      state before `steps[i]`. */
  ghost predicate IsRun(trace: seq<State>, steps: seq<Step>) {
    && |trace| == |steps| + 1 && trace[0] == Created()
    && forall i :: 0 <= i < |steps| ==> Takes(trace, steps, i)
  }

  /** All slots in the pool, nothing anywhere else. */
  predicate Rested(s: State) {
    && s.free == [0, 1, 2] && s.notices == [] && s.messages == [None, None, None] && s.rxSlot == None && s.rxBuf == None
    && !s.started && s.cb == CbIdle && s.owner == OwnerIdle && s.live == multiset{} && s.leaked == []
  }

  lemma RestedPlaces(s: State, x: nat)
    requires Rested(s)
    ensures Places(s, x) == if x < SLOTS then 1 else 0
  {
    CountAll(x);
    hide Count, CountNotices;
  }

  lemma RestedOk(s: State)
    requires Rested(s)
    ensures BufInv(s)
  {
    hide Pointers, Tags, Places, Buffers;
    EmptyMsg(s);
    NoBuffers(s);
    forall x: nat ensures Places(s, x) == if x < SLOTS then 1 else 0 {
      RestedPlaces(s, x);
    }
  }

  lemma NoBuffers(s: State)
    requires s.messages == [None, None, None] && s.rxBuf == None && s.cb == CbIdle && s.owner == OwnerIdle
             && s.live == multiset{}
    ensures Buffers(s)
  {
  }

  lemma {:induction false} RunKeepsBuffers(trace: seq<State>, steps: seq<Step>, t: nat)
    requires IsRun(trace, steps) && t < |trace|
    ensures BufInv(trace[t])
  {
    assert Rested(Created());
    hide BufInv, CbExec, OwnerExec, CbEnabled, OwnerEnabled, Created, Rested;
    if t == 0 {
      RestedOk(trace[0]);
    } else {
      RunKeepsBuffers(trace, steps, t - 1);
      assert Takes(trace, steps, t - 1);
      var s, a := trace[t - 1], steps[t - 1];
      if CbEnabled(s, a) { CbKeepsBuffers(s, a); } else { OwnerKeepsBuffers(s, a); }
    }
  }

  /** Every slot is in exactly one place, in every reachable state and whatever the
      interleaving; a notice that was leaked needs a stop that failed, which faults the
      runtime, so before that the places are the pool, the receiver, a message notice and
      the hands of the two tasks. */
  lemma SlotsPartitioned(trace: seq<State>, steps: seq<Step>, t: nat, x: nat)
    requires IsRun(trace, steps) && t < |trace|
    ensures Places(trace[t], x) == if x < SLOTS then 1 else 0
    ensures !trace[t].faulted ==> trace[t].leaked == []
    ensures x < SLOTS ==> |trace[t].messages| == SLOTS && (trace[t].messages[x].Some? <==> Named(trace[t], x) == 1)
  {
    RunKeepsBuffers(trace, steps, t);
    assert x == 0 || x == 1 || x == 2 || x >= SLOTS;
  }

  /** Returning a slot never finds the pool full, so it never sets the overflow flag. */
  lemma ReturnsNeverFail(trace: seq<State>, steps: seq<Step>, t: nat)
    requires IsRun(trace, steps) && t < |trace|
    ensures var s := trace[t];
            && (s.cb.ReturnSlot? && s.cb.gone.Some? ==> |s.free| < SLOTS)
            && (s.cb.NoMemory? && s.rxSlot.Some? ==> |s.free| < SLOTS)
            && (s.owner.Giving? ==> |s.free| < SLOTS)
  {
    RunKeepsBuffers(trace, steps, t);
    var s := trace[t];
    if CbSlot(s).Some? { RoomToReturn(s, CbSlot(s).value); }
    if RxSlot(s).Some? { RoomToReturn(s, RxSlot(s).value); }
    if OwnerSlot(s).Some? { RoomToReturn(s, OwnerSlot(s).value); }
  }

  function OptSet(o: Option<nat>): (m: multiset<nat>) {
    match o
    case None => multiset{}
    case Some(b) => multiset{b}
  }

  function MessageBuffers(messages: seq<Option<Held>>): (m: multiset<nat>)
    requires |messages| == SLOTS
  {
    OptSet(BufOf(messages[0])) + OptSet(BufOf(messages[1])) + OptSet(BufOf(messages[2]))
  }

  lemma CountOpt(o: Option<nat>, b: nat)
    ensures OptSet(o)[b] == Eq(o, b)
  {
  }

  lemma CountMessageBuffers(messages: seq<Option<Held>>, b: nat)
    requires |messages| == SLOTS
    ensures MessageBuffers(messages)[b] == InMessages(messages, b)
  {
    hide OptSet, Eq;
    CountOpt(BufOf(messages[0]), b);
    CountOpt(BufOf(messages[1]), b);
    CountOpt(BufOf(messages[2]), b);
  }

  lemma BuffersAre(s: State)
    requires BufInv(s)
    ensures |s.messages| == SLOTS
    ensures s.live == MessageBuffers(s.messages) + OptSet(s.rxBuf) + OptSet(CbBuf(s)) + OptSet(OwnerBuf(s))
  {
    LooseInPool(s);
    hide MsgInv, MessageBuffers, OptSet, InMessages, Eq;
    var all := MessageBuffers(s.messages) + OptSet(s.rxBuf) + OptSet(CbBuf(s)) + OptSet(OwnerBuf(s));
    forall b: nat ensures s.live[b] == all[b] {
      assert BufferOk(s, b);
      CountMessageBuffers(s.messages, b);
      CountOpt(s.rxBuf, b);
      CountOpt(CbBuf(s), b);
      CountOpt(OwnerBuf(s), b);
    }
    assert s.live == all;
  }

  function Filled(s: State, x: nat): (n: nat)
    requires |s.messages| == SLOTS && x < SLOTS
  {
    (if s.messages[x].Some? then 1 else 0) + if s.owner.Loose? && s.owner.slot == x then 1 else 0
  }

  /** A slot accounts for one buffer, a pointer or one just detached by the owner. */
  lemma OneBufferPerSlot(s: State, x: nat)
    requires MsgInv(s) && x < SLOTS
    ensures Filled(s, x) <= 1
  {
    assert Places(s, x) == 1;
    assert x == 0 || x == 1 || x == 2;
    assert PointerAt(s, x);
    hide Count, CountNotices, Tags, Positions;
  }

  lemma LiveBound(s: State)
    requires BufInv(s)
    ensures |s.live| <= 4
  {
    BuffersAre(s);
    OneBufferPerSlot(s, 0);
    OneBufferPerSlot(s, 1);
    OneBufferPerSlot(s, 2);
    LooseInPool(s);
    hide BufInv;
    MessageBuffersSize(s.messages);
    assert |s.live| == |MessageBuffers(s.messages)| + |OptSet(s.rxBuf)| + |OptSet(CbBuf(s))| + |OptSet(OwnerBuf(s))|;
    hide MessageBuffers;
  }

  lemma MessageBuffersSize(messages: seq<Option<Held>>)
    requires |messages| == SLOTS
    ensures |MessageBuffers(messages)| == (if messages[0].Some? then 1 else 0) + (if messages[1].Some? then 1 else 0)
            + (if messages[2].Some? then 1 else 0)
  {
  }

  /** No more than four message buffers are ever allocated at once, none has two places
      and none is lost. */
  lemma AtMostFourBuffers(trace: seq<State>, steps: seq<Step>, t: nat)
    requires IsRun(trace, steps) && t < |trace|
    ensures var s := trace[t];
            && |s.live| <= 4 && (forall b: nat :: s.live[b] <= 1)
            && |s.messages| == SLOTS
            && s.live == MessageBuffers(s.messages) + OptSet(s.rxBuf) + OptSet(CbBuf(s)) + OptSet(OwnerBuf(s))
  {
    RunKeepsBuffers(trace, steps, t);
    var s := trace[t];
    BuffersAre(s);
    LiveBound(s);
    forall b: nat ensures s.live[b] <= 1 {
      assert BufferOk(s, b);
    }
  }

  lemma LooseInPool(s: State)
    requires MsgInv(s)
    ensures s.owner.Loose? ==> s.owner.slot < SLOTS
    ensures s.cb.FreeBuf? ==> s.rxBuf == None
    ensures |s.messages| == SLOTS
  {
    if s.owner.Loose? { assert Places(s, s.owner.slot) == if s.owner.slot < SLOTS then 1 else 0; }
  }

  /** What is freed was allocated and not freed before; what poll copies out still is. */
  lemma FreedOnce(trace: seq<State>, steps: seq<Step>, t: nat)
    requires IsRun(trace, steps) && t < |trace|
    ensures var s := trace[t];
            && (s.cb.FreeBuf? && s.cb.buf.Some? ==> s.live[s.cb.buf.value] == 1)
            && (s.owner.Loose? ==> s.live[s.owner.buf] == 1)
            && (s.owner.InHand? ==>
                  TagAt(s, s.owner.slot, s.owner.tag) && s.live[s.messages[s.owner.slot].value.buf] == 1)
  {
    RunKeepsBuffers(trace, steps, t);
    var s := trace[t];
    if s.cb.FreeBuf? && s.cb.buf.Some? { assert BufferOk(s, s.cb.buf.value); }
    if s.owner.Loose? { assert BufferOk(s, s.owner.buf); }
    if s.owner.InHand? {
      var x := s.owner.slot;
      assert x == 0 || x == 1 || x == 2;
      assert BufferOk(s, s.messages[x].value.buf);
    }
  }

  /** The drain of a stop that succeeded frees every buffer, and leaves all slots in the
      pool. */
  lemma DrainFreesAll(trace: seq<State>, steps: seq<Step>, t: nat)
    requires IsRun(trace, steps) && t < |steps| && steps[t] == EndStop(true)
    ensures trace[t + 1].live == multiset{} && trace[t + 1].free == [0, 1, 2] && trace[t + 1].leaked == []
  {
    RunKeepsBuffers(trace, steps, t);
    assert Takes(trace, steps, t);
    hide BufInv;
    DrainedEmpty(trace[t]);
    hide FreeHeld, FreeOpt;
  }

  lemma DrainedEmpty(s: State)
    requires BufInv(s) && s.cb == CbIdle && OwnerBuf(s) == None
    ensures |s.messages| == SLOTS && Drain(s).live == multiset{}
  {
    LooseInPool(s);
    forall b: nat ensures Drain(s).live[b] == 0 {
      assert BufferOk(s, b);
      DrainBuffer(s, b);
    }
    hide Drain;
    assert Drain(s).live == multiset{};
  }
}
