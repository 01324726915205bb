/** The message path of runtime/emqtt.c: an SDK callback task and the owner task share a
    pool of three slots, a queue of sixteen notices, three message pointers, one receiver
    and an overflow flag. Every access is a step; the two tasks interleave in any order. */
module SlotPool {
  import opened Bytes

  const SLOTS: nat := 3
  const NOTICES: nat := 16

  /** A message whose reassembly completed: its place in completion order, its bytes. */
  datatype Tag = Tag(index: nat, content: seq<Byte>)

  /** An owned buffer in `messages`. */
  datatype Held = Held(buf: nat, tag: Tag)

  datatype Notice = Message(slot: nat, tag: Tag) | Other

  /** What follows release_receiver_slot or a returned slot. */
  datatype Then = ThenPost | ThenFlag

  /** Where the callback is. */
  datatype CbPc =
    | CbIdle
    | Fetched                                                // a slot was asked for, a buffer comes next
    | NoMemory                                               // no buffer: the slot goes back
    | SlotBack                                               // and receiver_slot still names it
    | Filling                                                // the fragment core runs
    | Whole(tag: Tag)                                        // complete, needs a slot
    | Placed(slot: nat, tag: Tag)                            // has one, not yet in `messages`
    | Release(next: Then)                                    // release_receiver_slot begins
    | FreeBuf(gone: Option<nat>, buf: Option<nat>, next: Then)
    | ReturnSlot(gone: Option<nat>, next: Then)
    | Flag                                                   // about to set overflow
    | Post(n: Notice)
    | Full(n: Notice)                                        // the notice queue refused it

  datatype Why = Lost | Failed | Asked

  /** Where the owner is. */
  datatype OwnerPc =
    | OwnerIdle
    | Checked                                  // emqtt_poll saw no overflow
    | InHand(slot: nat, tag: Tag)              // took a message notice
    | Copied(slot: nat)
    | Loose(slot: nat, buf: nat)               // detached
    | Giving(slot: nat)                        // freed, the slot goes back
    | Closing(why: Why, held: Option<nat>)     // stopping the SDK; `held`: slot of a notice taken too late

  datatype State = State(
    free: seq<nat>,
    notices: seq<Notice>,
    messages: seq<Option<Held>>,
    rxSlot: Option<nat>,
    rxBuf: Option<nat>,
    overflow: bool,
    started: bool,
    faulted: bool,
    cb: CbPc,
    owner: OwnerPc,
    // for the claims only
    live: multiset<nat>,          // buffers allocated and not freed
    nextBuf: nat,
    leaked: seq<nat>,             // slots of late notices when the SDK did not stop
    completed: seq<seq<Byte>>,    // since the last drain
    delivered: seq<Tag>,
    gap: Option<nat>,             // first completed message that was dropped
    dropped: bool,                // a message or notice was dropped
    queueErrors: nat)             // polls that returned ERROR_QUEUE

  datatype Step =
    // callback
    | LinkEvent | OtherEvent | BadSize | DataEvent
    | Allocate(ok: bool)
    | More | Rejected | Complete(content: seq<Byte>)
    | CbGo
    // owner
    | PollCheck
    | PollTake(late: bool, fatal: bool)
    | OwnerGo
    | BeginStop(why: Why)
    | EndStop(ok: bool)
    | StartRuntime(ok: bool)

  // ---------------------------------------------------------------- callback

  predicate CbEnabled(s: State, a: Step) {
    match a
    case LinkEvent => s.cb == CbIdle && s.started
    case OtherEvent => s.cb == CbIdle && s.started
    case BadSize => s.cb == CbIdle && s.started && s.rxBuf == None
    case DataEvent => s.cb == CbIdle && s.started
    case Allocate(_) => s.cb == Fetched
    case More => s.cb == Filling
    case Rejected => s.cb == Filling
    case Complete(_) => s.cb == Filling
    case CbGo => s.cb.NoMemory? || s.cb.SlotBack? || s.cb.Whole? || s.cb.Placed? || s.cb.Release? || s.cb.FreeBuf?
        || s.cb.ReturnSlot? || s.cb.Flag? || s.cb.Post? || s.cb.Full?
    case _ => false
  }

  function AfterRelease(next: Then): (pc: CbPc) {
    if next == ThenPost then Post(Other) else Flag
  }

  /** xQueueSend on the pool: refused when it is full. */
  function GiveSlot(s: State, slot: nat): (r: State)
    ensures |r.messages| == |s.messages|
  {
    if |s.free| < SLOTS then s.(free := s.free + [slot]) else s.(overflow := true)
  }

  function FreeOpt(live: multiset<nat>, buf: Option<nat>): (left: multiset<nat>) {
    match buf
    case None => live
    case Some(b) => live - multiset{b}
  }

  /** No buffer: the slot goes back, the result of the send is ignored. */
  function PutBack(s: State): (r: State)
    ensures |r.messages| == |s.messages|
  {
    var free := if s.rxSlot.Some? && |s.free| < SLOTS then s.free + [s.rxSlot.value] else s.free;
    s.(free := free, cb := SlotBack)
  }

  /** A complete message uses the receiver's slot, else takes one, else is dropped. */
  function ChooseSlot(s: State): (r: State)
    requires s.cb.Whole?
    ensures |r.messages| == |s.messages|
  {
    if s.rxSlot.Some? then s.(cb := Placed(s.rxSlot.value, s.cb.tag))
    else if s.free != [] then s.(free := s.free[1..], cb := Placed(s.free[0], s.cb.tag))
    else Drop(s, s.cb.tag, Release(ThenFlag))
  }

  /** The buffer moves from the receiver to `messages`. */
  function Place(s: State): (r: State)
    requires s.cb.Placed? && |s.messages| == SLOTS
    ensures |r.messages| == |s.messages|
  {
    var (slot, tag) := (s.cb.slot, s.cb.tag);
    if slot < SLOTS && s.rxBuf.Some? then
      s.(messages := s.messages[slot := Some(Held(s.rxBuf.value, tag))], rxSlot := None, rxBuf := None,
          cb := Post(Message(slot, tag)))
    else s
  }

  function TakeReceiver(s: State): (r: State)
    requires s.cb.Release?
    ensures |r.messages| == |s.messages|
  {
    s.(rxSlot := None, rxBuf := None, cb := FreeBuf(s.rxSlot, s.rxBuf, s.cb.next))
  }

  function FreeBuffer(s: State): (r: State)
    requires s.cb.FreeBuf?
    ensures |r.messages| == |s.messages|
  {
    s.(live := FreeOpt(s.live, s.cb.buf), cb := ReturnSlot(s.cb.gone, s.cb.next))
  }

  function Return(s: State): (r: State)
    requires s.cb.ReturnSlot?
    ensures |r.messages| == |s.messages|
  {
    var t := if s.cb.gone.Some? then GiveSlot(s, s.cb.gone.value) else s;
    t.(cb := AfterRelease(s.cb.next))
  }

  function PostNotice(s: State): (r: State)
    requires s.cb.Post?
    ensures |r.messages| == |s.messages|
  {
    if |s.notices| < NOTICES then s.(notices := s.notices + [s.cb.n], cb := CbIdle) else s.(cb := Full(s.cb.n))
  }

  /** The notice is dropped; a message's buffer is detached again. */
  function Refuse(s: State): (r: State)
    requires s.cb.Full? && |s.messages| == SLOTS
    ensures |r.messages| == |s.messages|
  {
    var n := s.cb.n;
    if n.Other? then s.(dropped := true, cb := Flag)
    else if n.slot < SLOTS && s.messages[n.slot].Some? then
      Drop(s.(messages := s.messages[n.slot := None]), n.tag,
          FreeBuf(Some(n.slot), Some(s.messages[n.slot].value.buf), ThenFlag))
    else s
  }

  /** The callback goes on by itself. */
  function CbNext(s: State): (r: State)
    requires CbEnabled(s, CbGo) && |s.messages| == SLOTS
    ensures |r.messages| == |s.messages|
  {
    match s.cb
    case NoMemory => PutBack(s)
    case SlotBack => s.(rxSlot := None, cb := Flag)
    case Whole(_) => ChooseSlot(s)
    case Placed(_, _) => Place(s)
    case Release(_) => TakeReceiver(s)
    case FreeBuf(_, _, _) => FreeBuffer(s)
    case ReturnSlot(_, _) => Return(s)
    case Flag => s.(overflow := true, cb := CbIdle)
    case Post(_) => PostNotice(s)
    case Full(_) => Refuse(s)
    case _ => s
  }

  /** A completed message is lost. */
  function Drop(s: State, tag: Tag, cb: CbPc): (r: State)
    ensures |r.messages| == |s.messages|
  {
    s.(gap := if s.gap == None then Some(tag.index) else s.gap, dropped := true, cb := cb)
  }

  function Fetch(s: State): (r: State)
    ensures |r.messages| == |s.messages|
  {
    if s.rxBuf.Some? then s.(cb := Filling)
    else if s.free != [] then s.(rxSlot := Some(s.free[0]), free := s.free[1..], cb := Fetched)
    else s.(rxSlot := None, cb := Fetched)
  }

  function CbExec(s: State, a: Step): (r: State)
    requires CbEnabled(s, a) && |s.messages| == SLOTS
    ensures |r.messages| == |s.messages|
  {
    match a
    case LinkEvent => s.(cb := Release(ThenPost))
    case OtherEvent => s.(cb := Post(Other))
    case BadSize => s.(cb := Post(Other))
    case DataEvent => Fetch(s)
    case Allocate(ok) =>
      if ok then s.(rxBuf := Some(s.nextBuf), live := s.live + multiset{s.nextBuf}, nextBuf := s.nextBuf + 1,
          cb := Filling)
      else s.(dropped := true, cb := NoMemory)
    case More => s.(cb := CbIdle)
    case Rejected => s.(cb := Release(ThenPost))
    case Complete(content) => s.(completed := s.completed + [content], cb := Whole(Tag(|s.completed|, content)))
    case CbGo => CbNext(s)
    case _ => s
  }

  // ---------------------------------------------------------------- owner

  predicate OwnerEnabled(s: State, a: Step) {
    match a
    case PollCheck => s.owner == OwnerIdle && !s.faulted
    case PollTake(_, _) => s.owner == Checked
    case OwnerGo => s.owner.InHand? || s.owner.Copied? || s.owner.Loose? || s.owner.Giving?
    case BeginStop(why) => s.owner == OwnerIdle && why != Lost
    case EndStop(ok) => s.owner.Closing? && if ok then s.cb == CbIdle else s.started
    case StartRuntime(_) => s.owner == OwnerIdle && !s.started && s.cb == CbIdle
    case _ => false
  }

  /** The message is copied out: poll will return it. */
  function CopyOut(s: State): (r: State)
    requires s.owner.InHand? && |s.messages| == SLOTS
    ensures |r.messages| == |s.messages|
  {
    var slot := s.owner.slot;
    if slot < SLOTS && s.messages[slot].Some? then
      s.(delivered := s.delivered + [s.messages[slot].value.tag], owner := Copied(slot))
    else s
  }

  function Detach(s: State): (r: State)
    requires s.owner.Copied? && |s.messages| == SLOTS
    ensures |r.messages| == |s.messages|
  {
    var slot := s.owner.slot;
    if slot < SLOTS && s.messages[slot].Some? then
      s.(messages := s.messages[slot := None], owner := Loose(slot, s.messages[slot].value.buf))
    else s
  }

  function GiveBack(s: State): (r: State)
    requires s.owner.Giving?
    ensures |r.messages| == |s.messages|
  {
    var t := GiveSlot(s, s.owner.slot);
    t.(owner := OwnerIdle)
  }

  function OwnerNext(s: State): (r: State)
    requires OwnerEnabled(s, OwnerGo) && |s.messages| == SLOTS
    ensures |r.messages| == |s.messages|
  {
    match s.owner
    case InHand(_, _) => CopyOut(s)
    case Copied(_) => Detach(s)
    case Loose(slot, buf) => s.(live := FreeOpt(s.live, Some(buf)), owner := Giving(slot))
    case Giving(_) => GiveBack(s)
    case _ => s
  }

  function FreeHeld(live: multiset<nat>, h: Option<Held>): (left: multiset<nat>) {
    match h
    case None => live
    case Some(x) => live - multiset{x.buf}
  }

  /** drain, called when no callback can run. */
  function Drain(s: State): (r: State)
    requires |s.messages| == SLOTS
    ensures |r.messages| == |s.messages|
  {
    s.(live := FreeHeld(FreeHeld(FreeHeld(FreeOpt(s.live, s.rxBuf), s.messages[0]), s.messages[1]), s.messages[2]),
       rxSlot := None, rxBuf := None, notices := [], messages := [None, None, None], free := [0, 1, 2],
       overflow := false, faulted := false,
       leaked := [], completed := [], delivered := [], gap := None, dropped := false)
  }

  function Check(s: State): (r: State)
    ensures |r.messages| == |s.messages|
  {
    if s.overflow then s.(overflow := false, owner := Closing(Lost, None)) else s.(owner := Checked)
  }

  function Take(s: State, late: bool, fatal: bool): (r: State)
    ensures |r.messages| == |s.messages|
  {
    if s.notices == [] then s.(owner := if late then Closing(Failed, None) else OwnerIdle)
    else
      var n := s.notices[0];
      var owner := if late then Closing(Failed, SlotOf(n))
                   else if n.Message? then InHand(n.slot, n.tag)
                   else if fatal then Closing(Failed, None) else OwnerIdle;
      s.(notices := s.notices[1..], owner := owner)
  }

  /** The SDK stopped: drain. */
  function Stopped(s: State): (r: State)
    requires s.owner.Closing? && |s.messages| == SLOTS
    ensures |r.messages| == |s.messages|
  {
    var d := Drain(s);
    d.(started := false, owner := OwnerIdle, faulted := s.owner.why != Asked,
       queueErrors := s.queueErrors + if s.owner.why == Lost then 1 else 0)
  }

  /** The SDK did not stop: no drain. */
  function NotStopped(s: State): (r: State)
    requires s.owner.Closing?
    ensures |r.messages| == |s.messages|
  {
    s.(leaked := s.leaked + if s.owner.held.Some? then [s.owner.held.value] else [],
       owner := OwnerIdle, faulted := s.faulted || s.owner.why != Asked,
       queueErrors := s.queueErrors + if s.owner.why == Lost then 1 else 0)
  }

  function OwnerExec(s: State, a: Step): (r: State)
    requires OwnerEnabled(s, a) && |s.messages| == SLOTS
    ensures |r.messages| == |s.messages|
  {
    match a
    case PollCheck => Check(s)
    case PollTake(late, fatal) => Take(s, late, fatal)
    case BeginStop(why) => s.(owner := Closing(why, None))
    case EndStop(ok) => if ok then Stopped(s) else NotStopped(s)
    case StartRuntime(ok) =>
      var d := Drain(s);
      d.(started := ok)
    case OwnerGo => OwnerNext(s)
    case _ => s
  }

  // ---------------------------------------------------------------- runs

  predicate Enabled(s: State, a: Step) {
    CbEnabled(s, a) || OwnerEnabled(s, a)
  }

  function Exec(s: State, a: Step): (r: State)
    requires Enabled(s, a) && |s.messages| == SLOTS
    ensures |r.messages| == |s.messages|
  {
    if CbEnabled(s, a) then CbExec(s, a) else OwnerExec(s, a)
  }

  /** After emqtt_create. */
  function Created(): (s: State) {
    State([0, 1, 2], [], [None, None, None], None, None, false, false, false, CbIdle, OwnerIdle,
          multiset{}, 0, [], [], [], None, false, 0)
  }

  // ---------------------------------------------------------------- counting slots

  function Eq(o: Option<nat>, x: nat): (n: nat) { if o == Some(x) then 1 else 0 }

  function Count(q: seq<nat>, x: nat): (n: nat) {
    if q == [] then 0 else Count(q[..|q| - 1], x) + if q[|q| - 1] == x then 1 else 0
  }

  function SlotOf(n: Notice): (slot: Option<nat>) { if n.Message? then Some(n.slot) else None }

  function CountNotices(q: seq<Notice>, x: nat): (n: nat) {
    if q == [] then 0 else CountNotices(q[..|q| - 1], x) + Eq(SlotOf(q[|q| - 1]), x)
  }

  lemma {:induction false} CountHead(q: seq<nat>, x: nat)
    requires q != []
    ensures Count(q, x) == (if q[0] == x then 1 else 0) + Count(q[1..], x)
  {
    if |q| > 1 {
      CountHead(q[..|q| - 1], x);
      assert q[..|q| - 1][1..] == q[1..][..|q| - 2];
    }
  }

  lemma {:induction false} CountNoticesHead(q: seq<Notice>, x: nat)
    requires q != []
    ensures CountNotices(q, x) == Eq(SlotOf(q[0]), x) + CountNotices(q[1..], x)
  {
    if |q| > 1 {
      CountNoticesHead(q[..|q| - 1], x);
      assert q[..|q| - 1][1..] == q[1..][..|q| - 2];
    }
  }

  lemma CountSnoc(q: seq<nat>, y: nat, x: nat)
    ensures Count(q + [y], x) == Count(q, x) + if y == x then 1 else 0
  {
    assert (q + [y])[..|q|] == q;
  }

  lemma CountNoticesSnoc(q: seq<Notice>, n: Notice, x: nat)
    ensures CountNotices(q + [n], x) == CountNotices(q, x) + Eq(SlotOf(n), x)
  {
    assert (q + [n])[..|q|] == q;
  }

  // ---------------------------------------------------------------- each slot in one place

  /** Slots in the callback's hands, `messages` filled or not. */
  function CbSlot(s: State): (slot: Option<nat>) {
    match s.cb
    case Placed(slot, _) => if s.rxSlot == None then Some(slot) else None
    case FreeBuf(slot, _, _) => slot
    case ReturnSlot(slot, _) => slot
    case Post(n) => SlotOf(n)
    case Full(n) => SlotOf(n)
    case _ => None
  }

  function OwnerSlot(s: State): (slot: Option<nat>) {
    match s.owner
    case InHand(slot, _) => Some(slot)
    case Copied(slot) => Some(slot)
    case Loose(slot, _) => Some(slot)
    case Giving(slot) => Some(slot)
    case Closing(_, held) => held
    case _ => None
  }

  /** The receiver's slot, unless it has just gone back. */
  function RxSlot(s: State): (slot: Option<nat>) {
    if s.cb == SlotBack then None else s.rxSlot
  }

  /** How often slot `x` occurs. */
  function Places(s: State, x: nat): (n: nat) {
    Count(s.free, x) + CountNotices(s.notices, x) + Eq(RxSlot(s), x) + Eq(CbSlot(s), x) + Eq(OwnerSlot(s), x)
        + Count(s.leaked, x)
  }

  ghost predicate Partition(s: State) {
    forall x: nat :: Places(s, x) == if x < SLOTS then 1 else 0
  }

  /** What the positions say. */
  predicate Positions(s: State) {
    && |s.messages| == SLOTS && |s.notices| <= NOTICES
    && (!s.started ==> s.cb == CbIdle)
    && (s.rxBuf == None ==> s.rxSlot == None || s.cb.Fetched? || s.cb.NoMemory? || s.cb.SlotBack?)
    && (s.cb.Fetched? || s.cb.NoMemory? || s.cb.SlotBack? || s.cb.FreeBuf? ==> s.rxBuf == None)
    && ((s.cb.Post? || s.cb.Full?) && s.cb.n.Message? ==> s.rxBuf == None)
    && (s.cb.Filling? || s.cb.Whole? || s.cb.Placed? ==> s.rxBuf.Some?)
    && (s.cb.Placed? && s.rxSlot.Some? ==> s.rxSlot == Some(s.cb.slot))
    && (s.owner.Closing? && s.owner.held.Some? ==> s.owner.why != Asked)
    && (s.leaked != [] ==> s.faulted)
  }

  ghost predicate SlotInv(s: State) {
    Positions(s) && Partition(s)
  }

  lemma {:induction false} CountTotal(q: seq<nat>)
    requires forall x: nat :: x >= SLOTS ==> Count(q, x) == 0
    ensures |q| == Count(q, 0) + Count(q, 1) + Count(q, 2)
  {
    if q != [] {
      var p, y := q[..|q| - 1], q[|q| - 1];
      assert Count(q, y) >= 1;
      forall x: nat | x >= SLOTS ensures Count(p, x) == 0 {
        assert Count(q, x) == 0;
      }
      CountTotal(p);
    }
  }

  /** While a slot is anywhere else, the pool has room for it. */
  lemma RoomToReturn(s: State, x: nat)
    requires Partition(s) && Count(s.free, x) < Places(s, x)
    ensures |s.free| < SLOTS
  {
    assert Places(s, x) == if x < SLOTS then 1 else 0;
    forall y: nat | y >= SLOTS ensures Count(s.free, y) == 0 {
      assert Places(s, y) == 0;
    }
    assert Places(s, 0) == 1 && Places(s, 1) == 1 && Places(s, 2) == 1;
    CountTotal(s.free);
  }

  lemma PutBackKeeps(s: State, x: nat)
    requires Positions(s) && s.cb.NoMemory? && (s.rxSlot.Some? ==> |s.free| < SLOTS)
    ensures Positions(PutBack(s)) && Places(PutBack(s), x) == Places(s, x)
  {
    hide Count, CountNotices;
    if s.rxSlot.Some? { CountSnoc(s.free, s.rxSlot.value, x); }
  }

  lemma ChooseSlotPositions(s: State)
    requires Positions(s) && s.cb.Whole?
    ensures Positions(ChooseSlot(s))
  {
  }

  lemma ChooseSlotPlaces(s: State, x: nat)
    requires s.cb.Whole? && s.rxSlot == None
    ensures Places(ChooseSlot(s), x) == Places(s, x)
  {
    hide Count, CountNotices;
    if s.free != [] { CountHead(s.free, x); }
  }

  lemma KeepSlotPlaces(s: State, x: nat)
    requires s.cb.Whole? && s.rxSlot.Some?
    ensures Places(ChooseSlot(s), x) == Places(s, x)
  {
    hide Count, CountNotices, Drop;
  }

  lemma ChooseSlotKeeps(s: State, x: nat)
    requires Positions(s) && s.cb.Whole?
    ensures Positions(ChooseSlot(s)) && Places(ChooseSlot(s), x) == Places(s, x)
  {
    hide ChooseSlot, Positions, Places;
    ChooseSlotPositions(s);
    if s.rxSlot.Some? { KeepSlotPlaces(s, x); } else { ChooseSlotPlaces(s, x); }
  }

  lemma PlaceKeeps(s: State, x: nat)
    requires Positions(s) && s.cb.Placed?
    ensures Positions(Place(s)) && Places(Place(s), x) == Places(s, x)
  {
    hide Count, CountNotices;
  }

  lemma TakeReceiverKeeps(s: State, x: nat)
    requires Positions(s) && s.cb.Release?
    ensures Positions(TakeReceiver(s)) && Places(TakeReceiver(s), x) == Places(s, x)
  {
    hide Count, CountNotices;
  }

  lemma FreeBufferKeeps(s: State, x: nat)
    requires Positions(s) && s.cb.FreeBuf?
    ensures Positions(FreeBuffer(s)) && Places(FreeBuffer(s), x) == Places(s, x)
  {
    hide Count, CountNotices;
  }

  lemma ReturnKeeps(s: State, x: nat)
    requires Positions(s) && s.cb.ReturnSlot? && (s.cb.gone.Some? ==> |s.free| < SLOTS)
    ensures Positions(Return(s)) && Places(Return(s), x) == Places(s, x)
  {
    hide Count, CountNotices;
    if s.cb.gone.Some? { CountSnoc(s.free, s.cb.gone.value, x); }
  }

  lemma PostNoticeKeeps(s: State, x: nat)
    requires Positions(s) && s.cb.Post?
    ensures Positions(PostNotice(s)) && Places(PostNotice(s), x) == Places(s, x)
  {
    hide Count, CountNotices;
    CountNoticesSnoc(s.notices, s.cb.n, x);
  }

  lemma RefuseKeeps(s: State, x: nat)
    requires Positions(s) && s.cb.Full?
    ensures Positions(Refuse(s)) && Places(Refuse(s), x) == Places(s, x)
  {
    hide Count, CountNotices;
  }

  lemma FetchKeeps(s: State, x: nat)
    requires Positions(s) && s.cb == CbIdle && s.started
    ensures Positions(Fetch(s)) && Places(Fetch(s), x) == Places(s, x)
  {
    hide Count, CountNotices;
    if s.free != [] { CountHead(s.free, x); }
  }

  lemma EventPositions(s: State, a: Step)
    requires Positions(s) && CbEnabled(s, a) && a != CbGo && a != DataEvent
    ensures Positions(CbExec(s, a))
  {
    hide CbNext, Fetch;
  }

  lemma IdlePlaces(s: State, a: Step, x: nat)
    requires CbEnabled(s, a) && (a.LinkEvent? || a.OtherEvent? || a.BadSize?) && |s.messages| == SLOTS
    ensures Places(CbExec(s, a), x) == Places(s, x)
  {
    hide Count, CountNotices, CbNext, Fetch;
  }

  lemma FillPlaces(s: State, a: Step, x: nat)
    requires CbEnabled(s, a) && (a.Allocate? || a.More? || a.Rejected? || a.Complete?) && |s.messages| == SLOTS
    ensures Places(CbExec(s, a), x) == Places(s, x)
  {
    hide Count, CountNotices, CbNext, Fetch;
    var r := CbExec(s, a);
    assert r.free == s.free && r.notices == s.notices && r.leaked == s.leaked;
    assert r.rxSlot == s.rxSlot && r.owner == s.owner;
    assert r.cb.CbIdle? || r.cb.Filling? || r.cb.NoMemory? || r.cb.Release? || r.cb.Whole?;
    hide CbExec, CbEnabled;
  }

  lemma EventKeeps(s: State, a: Step, x: nat)
    requires Positions(s) && CbEnabled(s, a) && a != CbGo && a != DataEvent
    ensures Positions(CbExec(s, a)) && Places(CbExec(s, a), x) == Places(s, x)
  {
    EventPositions(s, a);
    assert |s.messages| == SLOTS;
    hide CbExec, Positions, Places;
    if a.LinkEvent? || a.OtherEvent? || a.BadSize? { IdlePlaces(s, a, x); } else { FillPlaces(s, a, x); }
  }

  lemma CbNextKeeps(s: State, x: nat)
    requires Positions(s) && CbEnabled(s, CbGo)
    requires CbSlot(s).Some? || RxSlot(s).Some? ==> |s.free| < SLOTS
    ensures Positions(CbNext(s)) && Places(CbNext(s), x) == Places(s, x)
  {
    hide Count, CountNotices, PutBack, ChooseSlot, Place, TakeReceiver, FreeBuffer, Return, PostNotice, Refuse;
    match s.cb
    case NoMemory => PutBackKeeps(s, x);
    case SlotBack =>
    case Whole(_) => ChooseSlotKeeps(s, x);
    case Placed(_, _) => PlaceKeeps(s, x);
    case Release(_) => TakeReceiverKeeps(s, x);
    case FreeBuf(_, _, _) => FreeBufferKeeps(s, x);
    case ReturnSlot(_, _) => ReturnKeeps(s, x);
    case Flag =>
    case Post(_) => PostNoticeKeeps(s, x);
    case Full(_) => RefuseKeeps(s, x);
  }

  lemma CbKeepsPlaces(s: State, a: Step, x: nat)
    requires SlotInv(s) && CbEnabled(s, a)
    ensures Positions(CbExec(s, a)) && Places(CbExec(s, a), x) == Places(s, x)
  {
    if CbSlot(s).Some? { RoomToReturn(s, CbSlot(s).value); }
    if RxSlot(s).Some? { RoomToReturn(s, RxSlot(s).value); }
    hide CbNext, Fetch, Places, Positions;
    if a == CbGo {
      CbNextKeeps(s, x);
    } else if a == DataEvent {
      FetchKeeps(s, x);
    } else {
      EventKeeps(s, a, x);
    }
  }

  lemma CbKeepsSlots(s: State, a: Step)
    requires SlotInv(s) && CbEnabled(s, a)
    ensures SlotInv(CbExec(s, a))
  {
    CbKeepsPlaces(s, a, 0);
    hide CbExec, Places, Positions, CbEnabled;
    forall x: nat ensures Places(CbExec(s, a), x) == if x < SLOTS then 1 else 0 {
      CbKeepsPlaces(s, a, x);
      assert Places(s, x) == if x < SLOTS then 1 else 0;
    }
  }

  lemma CopyOutKeeps(s: State, x: nat)
    requires Positions(s) && s.owner.InHand?
    ensures Positions(CopyOut(s)) && Places(CopyOut(s), x) == Places(s, x)
  {
    hide Count, CountNotices;
  }

  lemma DetachKeeps(s: State, x: nat)
    requires Positions(s) && s.owner.Copied?
    ensures Positions(Detach(s)) && Places(Detach(s), x) == Places(s, x)
  {
    hide Count, CountNotices;
  }

  lemma GiveBackKeeps(s: State, x: nat)
    requires Positions(s) && s.owner.Giving? && |s.free| < SLOTS
    ensures Positions(GiveBack(s)) && Places(GiveBack(s), x) == Places(s, x)
  {
    hide Count, CountNotices;
    CountSnoc(s.free, s.owner.slot, x);
  }

  lemma CheckKeeps(s: State, x: nat)
    requires Positions(s) && s.owner == OwnerIdle
    ensures Positions(Check(s)) && Places(Check(s), x) == Places(s, x)
  {
    hide Count, CountNotices;
  }

  lemma TakeKeeps(s: State, late: bool, fatal: bool, x: nat)
    requires Positions(s) && s.owner == Checked
    ensures Positions(Take(s, late, fatal)) && Places(Take(s, late, fatal), x) == Places(s, x)
  {
    hide Count, CountNotices;
    if s.notices != [] { CountNoticesHead(s.notices, x); }
  }

  lemma NotStoppedKeeps(s: State, x: nat)
    requires Positions(s) && s.owner.Closing? && s.started
    ensures Positions(NotStopped(s)) && Places(NotStopped(s), x) == Places(s, x)
  {
    hide Count, CountNotices;
    if s.owner.held.Some? { CountSnoc(s.leaked, s.owner.held.value, x); }
    assert s.leaked + [] == s.leaked;
  }

  lemma CountAll(x: nat)
    ensures Count([0, 1, 2], x) == if x < SLOTS then 1 else 0
    ensures Count([], x) == 0 && CountNotices([], x) == 0
  {
    CountSnoc([], 0, x);
    CountSnoc([0], 1, x);
    CountSnoc([0, 1], 2, x);
    assert [] + [0] == [0] && [0] + [1] == [0, 1] && [0, 1] + [2] == [0, 1, 2];
  }

  /** From any state at all, once no callback runs, drain puts every slot back in the pool
      and leaves nothing anywhere else. */
  lemma DrainRestores(s: State, x: nat)
    requires |s.messages| == SLOTS && s.cb == CbIdle
    ensures var r := Drain(s);
            && Count(r.free, x) == (if x < SLOTS then 1 else 0)
            && r.notices == [] && r.rxSlot == None && r.rxBuf == None && !r.overflow && !r.faulted
            && r.messages == [None, None, None]
  {
    CountAll(x);
    hide Count;
  }

  lemma StoppedKeeps(s: State, x: nat)
    requires Positions(s) && s.owner.Closing? && s.cb == CbIdle
    ensures Positions(Stopped(s)) && Places(Stopped(s), x) == if x < SLOTS then 1 else 0
  {
    CountAll(x);
    hide Count, CountNotices, FreeHeld, FreeOpt;
  }

  lemma StartKeeps(s: State, ok: bool, x: nat)
    requires Positions(s) && OwnerEnabled(s, StartRuntime(ok))
    ensures var r := OwnerExec(s, StartRuntime(ok)); Positions(r) && Places(r, x) == if x < SLOTS then 1 else 0
  {
    CountAll(x);
    hide Count, CountNotices, FreeHeld, FreeOpt, Take, Check, Stopped, NotStopped;
  }

  lemma OwnerNextPositions(s: State)
    requires Positions(s) && OwnerEnabled(s, OwnerGo)
    ensures Positions(OwnerNext(s))
  {
    hide GiveSlot;
    if s.owner.Giving? { GiveSlotPositions(s); }
  }

  lemma GiveSlotPositions(s: State)
    requires Positions(s) && s.owner.Giving?
    ensures Positions(GiveBack(s))
  {
  }

  lemma LoosePlaces(s: State, x: nat)
    requires s.owner.Loose?
    ensures Places(s.(live := FreeOpt(s.live, Some(s.owner.buf)), owner := Giving(s.owner.slot)), x) == Places(s, x)
  {
    hide Count, CountNotices;
  }

  lemma StopAsked(s: State, why: Why, x: nat)
    requires Positions(s) && OwnerEnabled(s, BeginStop(why))
    ensures var r := s.(owner := Closing(why, None)); Positions(r) && Places(r, x) == Places(s, x)
  {
    hide Count, CountNotices;
  }

  lemma OwnerGoPlaces(s: State)
    requires SlotInv(s) && OwnerEnabled(s, OwnerGo)
    ensures SlotInv(OwnerNext(s))
  {
    RoomToReturn(s, OwnerSlot(s).value);
    OwnerNextPositions(s);
    forall x: nat ensures Places(OwnerNext(s), x) == if x < SLOTS then 1 else 0 {
      assert Places(s, x) == if x < SLOTS then 1 else 0;
      hide CopyOut, Detach, GiveBack, Places, Positions, FreeOpt;
      match s.owner
      case InHand(_, _) => CopyOutKeeps(s, x);
      case Copied(_) => DetachKeeps(s, x);
      case Loose(_, _) => LoosePlaces(s, x);
      case Giving(_) => GiveBackKeeps(s, x);
    }
  }

  lemma OwnerKeepsSlots(s: State, a: Step)
    requires SlotInv(s) && OwnerEnabled(s, a)
    ensures SlotInv(OwnerExec(s, a))
  {
    assert |s.messages| == SLOTS;
    hide Places, Positions, OwnerNext, Drain, Take, Check, Stopped, NotStopped;
    if a == OwnerGo {
      OwnerGoPlaces(s);
    } else {
      forall x: nat ensures Positions(OwnerExec(s, a)) && Places(OwnerExec(s, a), x) == if x < SLOTS then 1 else 0 {
        assert Places(s, x) == if x < SLOTS then 1 else 0;
        match a
        case PollCheck => CheckKeeps(s, x);
        case PollTake(late, fatal) => TakeKeeps(s, late, fatal, x);
        case BeginStop(why) => StopAsked(s, why, x);
        case EndStop(ok) => if ok { StoppedKeeps(s, x); } else { NotStoppedKeeps(s, x); }
        case StartRuntime(ok) => StartKeeps(s, ok, x);
      }
      assert Places(OwnerExec(s, a), 0) == 1;
    }
  }
}
