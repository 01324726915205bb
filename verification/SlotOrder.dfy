/** Order and loss on the message path: what emqtt_poll returns follows completion order,
    and a dropped message or notice ends in ERROR_QUEUE. */
module SlotOrder {
  import opened Bytes
  import opened SlotPool
  import opened SlotBuffers

  // ---------------------------------------------------------------- what matters for order

  /** The messages on their way, oldest first, and the state of the alarm. */
  datatype View = View(
    delivered: seq<Tag>,
    inHand: seq<Tag>,        // taken by the owner, not yet copied out
    queued: seq<Tag>,
    inCb: seq<Tag>,          // complete, not yet queued
    completed: seq<seq<Byte>>,
    gap: Option<nat>,
    dropped: bool,
    overflow: bool,
    willFlag: bool,          // the callback is about to set overflow
    faulted: bool,
    checked: bool,           // emqtt_poll is past its overflow check
    alarm: bool,             // emqtt_poll saw the overflow and stops the session
    late: bool)              // a message was taken too late and the session is being stopped

  function Chain(v: View): (tags: seq<Tag>) {
    v.delivered + (v.inHand + (v.queued + v.inCb))
  }

  predicate Intact(v: View) { !v.faulted && !v.late }

  /** Tags of completed messages in order: each with its own index before the gap, beyond
      the gap after it; `full`: none is missing before the gap. */
  ghost predicate InOrder(chain: seq<Tag>, completed: seq<seq<Byte>>, gap: Option<nat>, full: bool) {
    && (gap.Some? ==> gap.value < |completed|)
    && |chain| <= |completed|
    && (forall i :: 0 <= i < |chain| ==> chain[i].index < |completed| && chain[i].content == completed[chain[i].index])
    && (forall i, j :: 0 <= i < j < |chain| ==> chain[i].index < chain[j].index)
    && (forall i :: 0 <= i < |chain| ==>
         if gap.Some? && i >= gap.value then chain[i].index > gap.value else chain[i].index == i)
    && (full ==> if gap.Some? then gap.value <= |chain| else |chain| == |completed|)
  }

  /** The alarm has been raised or will be. */
  predicate Alarmed(v: View) {
    v.overflow || v.alarm || v.faulted
  }

  ghost predicate OrderOk(v: View) {
    && (Intact(v) ==> InOrder(Chain(v), v.completed, v.gap, true))
    && InOrder(v.delivered, v.completed, v.gap, false)
    && (v.gap == None ==> |v.delivered| + |v.inHand| + |v.inCb| <= |v.completed|)
    && (v.inCb != [] ==>
          && |v.inCb| == 1 && !v.willFlag && v.completed != []
          && v.inCb[0] == Tag(|v.completed| - 1, v.completed[|v.completed| - 1]))
    && (v.inHand != [] ==> |v.inHand| == 1 && Intact(v) && !v.checked)
    && (v.checked ==> Intact(v) && !v.alarm)
  }

  predicate LossOk(v: View) {
    && (v.gap.Some? ==> v.dropped)
    && (v.dropped ==> Alarmed(v) || v.willFlag)
    && (v.gap.Some? && !Alarmed(v) && Intact(v) ==> v.willFlag && |Chain(v)| == v.gap.value)
    && (v.gap.Some? ==> |v.delivered| + |v.inHand| <= v.gap.value + 1)
    && (v.gap.Some? && v.checked ==> |v.delivered| <= v.gap.value)
  }

  ghost predicate ViewOk(v: View) { OrderOk(v) && LossOk(v) }

  // ---------------------------------------------------------------- moves of a view

  lemma OrderPrefix(chain: seq<Tag>, k: nat, completed: seq<seq<Byte>>, gap: Option<nat>, full: bool)
    requires InOrder(chain, completed, gap, full) && k <= |chain|
    ensures InOrder(chain[..k], completed, gap, false)
  {
  }

  /** The callback raises the flag, or commits to; nothing else moves. */
  lemma Quiet(v: View, w: View)
    requires ViewOk(v) && w == v.(overflow := w.overflow, dropped := w.dropped, willFlag := w.willFlag)
    requires v.overflow ==> w.overflow
    requires w.dropped ==> v.dropped || w.willFlag
    requires v.dropped ==> w.dropped
    requires v.willFlag ==> w.willFlag || w.overflow
    requires w.willFlag ==> v.inCb == []
    ensures ViewOk(w)
  {
    assert Chain(w) == Chain(v);
  }

  lemma OrderGrows(chain: seq<Tag>, completed: seq<seq<Byte>>, gap: Option<nat>, full: bool, c: seq<Byte>)
    requires InOrder(chain, completed, gap, full)
    ensures InOrder(chain, completed + [c], gap, false)
    ensures full ==> InOrder(chain + [Tag(|completed|, c)], completed + [c], gap, true)
  {
  }

  lemma OrderDrops(p: seq<Tag>, t: Tag, completed: seq<seq<Byte>>, gap: Option<nat>)
    requires InOrder(p + [t], completed, gap, true) && t.index == |completed| - 1
    ensures InOrder(p, completed, if gap == None then Some(t.index) else gap, true)
  {
    var c := p + [t];
    assert c[|p|] == t;
    forall i | 0 <= i < |p| ensures p[i] == c[i] {
    }
  }

  lemma Completes(v: View, c: seq<Byte>)
    requires ViewOk(v) && v.inCb == [] && !v.willFlag
    ensures ViewOk(v.(completed := v.completed + [c], inCb := [Tag(|v.completed|, c)]))
  {
    var t := Tag(|v.completed|, c);
    var w := v.(completed := v.completed + [c], inCb := [t]);
    assert Chain(w) == Chain(v.(inCb := [t]));
    OrderGrows(v.delivered, v.completed, v.gap, false, c);
    if Intact(v) { OrderGrows(Chain(v), v.completed, v.gap, true, c); }
    hide InOrder;
    ChainSnoc(v, t);
    hide Chain;
    assert |Chain(w)| == |Chain(v)| + 1;
  }

  lemma ChainSnoc(v: View, t: Tag)
    requires v.inCb == []
    ensures Chain(v.(inCb := [t])) == Chain(v) + [t]
  {
    assert v.queued + [] == v.queued;
    assert v.inHand + (v.queued + [t]) == (v.inHand + v.queued) + [t];
  }

  lemma TagAssoc(a: seq<Tag>, b: seq<Tag>, c: seq<Tag>)
    ensures (a + b) + c == a + (b + c)
  {
  }

  lemma TagNil(a: seq<Tag>)
    ensures [] + a == a && a + [] == a
  {
  }

  lemma TagPrefix(a: seq<Tag>, b: seq<Tag>)
    ensures (a + b)[..|a|] == a
  {
  }

  lemma ChainDrops(v: View)
    requires |v.inCb| == 1
    ensures Chain(v) == Chain(v.(inCb := [])) + [v.inCb[0]]
  {
    var t := v.inCb[0];
    assert v.inCb == [t];
    TagNil(v.queued);
    TagAssoc(v.inHand, v.queued, [t]);
    TagAssoc(v.delivered, v.inHand + v.queued, [t]);
  }

  lemma SameChain(v: View, w: View)
    requires v.delivered == w.delivered && v.inHand == w.inHand && v.queued == w.queued && v.inCb == w.inCb
    ensures Chain(v) == Chain(w)
  {
  }

  lemma Drops(v: View)
    requires ViewOk(v) && v.inCb != []
    ensures ViewOk(v.(inCb := [], gap := if v.gap == None then Some(v.inCb[0].index) else v.gap, dropped := true,
            willFlag := true))
  {
    hide Chain, InOrder;
    var t := v.inCb[0];
    var w := v.(inCb := [], gap := if v.gap == None then Some(t.index) else v.gap, dropped := true, willFlag := true);
    ChainDrops(v);
    SameChain(w, v.(inCb := []));
    DeliveredAfterDrop(v);
    FullLength(v);
    if Intact(v) { OrderDrops(Chain(w), t, v.completed, v.gap); }
  }

  lemma DeliveredAfterDrop(v: View)
    requires OrderOk(v) && v.inCb != []
    ensures InOrder(v.delivered, v.completed, if v.gap == None then Some(v.inCb[0].index) else v.gap, false)
  {
    hide Chain;
  }

  lemma FullLength(v: View)
    requires OrderOk(v)
    ensures Intact(v) && v.gap == None ==> |Chain(v)| == |v.completed|
  {
  }

  lemma Queues(v: View)
    requires ViewOk(v)
    ensures ViewOk(v.(queued := v.queued + v.inCb, inCb := []))
  {
    var w := v.(queued := v.queued + v.inCb, inCb := []);
    assert w.queued + w.inCb == v.queued + v.inCb;
    assert Chain(w) == Chain(v);
  }

  lemma Checks(v: View)
    requires ViewOk(v) && !v.faulted && !v.late && !v.alarm && !v.checked && v.inHand == []
    ensures ViewOk(if v.overflow then v.(overflow := false, alarm := true) else v.(checked := true))
  {
    var w := if v.overflow then v.(overflow := false, alarm := true) else v.(checked := true);
    assert Chain(w) == Chain(v);
  }

  lemma TakesOne(v: View)
    requires ViewOk(v) && v.checked && v.queued != []
    ensures v.inHand == []
    ensures ViewOk(v.(checked := false, inHand := [v.queued[0]], queued := v.queued[1..]))
    ensures ViewOk(v.(checked := false, late := true, queued := v.queued[1..]))
  {
    var w := v.(checked := false, inHand := [v.queued[0]], queued := v.queued[1..]);
    assert w.inHand + (w.queued + w.inCb) == v.queued + v.inCb;
    assert Chain(w) == Chain(v);
  }

  lemma LeavesCheck(v: View)
    requires ViewOk(v)
    ensures ViewOk(v.(checked := false))
  {
    assert Chain(v.(checked := false)) == Chain(v);
  }

  lemma ChainDelivers(v: View)
    ensures Chain(v.(delivered := v.delivered + v.inHand, inHand := [])) == Chain(v)
    ensures |v.delivered + v.inHand| <= |Chain(v)| && Chain(v)[..|v.delivered + v.inHand|] == v.delivered + v.inHand
  {
    var rest := v.queued + v.inCb;
    TagNil(rest);
    TagAssoc(v.delivered, v.inHand, rest);
    TagPrefix(v.delivered + v.inHand, rest);
  }

  lemma Delivers(v: View)
    requires ViewOk(v)
    ensures ViewOk(v.(delivered := v.delivered + v.inHand, inHand := []))
  {
    hide InOrder, Chain;
    ChainDelivers(v);
    if v.inHand == [] {
      assert v.delivered + v.inHand == v.delivered;
    } else {
      OrderPrefix(Chain(v), |v.delivered + v.inHand|, v.completed, v.gap, true);
    }
  }

  /** The stop failed: a session that was being closed stays faulted. */
  lemma StaysOpen(v: View, faulted: bool)
    requires ViewOk(v) && !v.checked && v.inHand == [] && (v.alarm || v.late || v.faulted ==> faulted)
    ensures ViewOk(v.(faulted := faulted, alarm := false, late := false))
  {
    var w := v.(faulted := faulted, alarm := false, late := false);
    assert Chain(w) == Chain(v);
  }

  lemma Fresh(v: View)
    requires Chain(v) == [] && v.completed == [] && v.gap == None && !v.dropped && !v.checked
    ensures ViewOk(v)
  {
  }

  // ---------------------------------------------------------------- the view of a state

  predicate WillFlag(pc: CbPc) {
    match pc
    case Flag => true
    case NoMemory => true
    case SlotBack => true
    case Release(next) => next == ThenFlag
    case FreeBuf(_, _, next) => next == ThenFlag
    case ReturnSlot(_, next) => next == ThenFlag
    case _ => false
  }

  function TagsOf(n: Notice): (tags: seq<Tag>) {
    if n.Message? then [n.tag] else []
  }

  function CbTags(pc: CbPc): (tags: seq<Tag>) {
    match pc
    case Whole(tag) => [tag]
    case Placed(_, tag) => [tag]
    case Post(n) => TagsOf(n)
    case Full(n) => TagsOf(n)
    case _ => []
  }

  function NoticeTags(q: seq<Notice>): (tags: seq<Tag>) {
    if q == [] then [] else NoticeTags(q[..|q| - 1]) + TagsOf(q[|q| - 1])
  }

  lemma NoticeTagsSnoc(q: seq<Notice>, n: Notice)
    ensures NoticeTags(q + [n]) == NoticeTags(q) + TagsOf(n)
  {
    assert (q + [n])[..|q|] == q;
  }

  lemma {:induction false} NoticeTagsHead(q: seq<Notice>)
    requires q != []
    ensures NoticeTags(q) == TagsOf(q[0]) + NoticeTags(q[1..])
  {
    if |q| == 1 {
      assert q[..0] == [] && q[1..] == [];
      TagNil(TagsOf(q[0]));
    } else {
      var p, n := q[..|q| - 1], q[|q| - 1];
      NoticeTagsHead(p);
      assert p[1..] == q[1..][..|q| - 2];
      assert NoticeTags(q[1..]) == NoticeTags(p[1..]) + TagsOf(n);
      TagAssoc(TagsOf(q[0]), NoticeTags(p[1..]), TagsOf(n));
    }
  }

  function OwnerTags(pc: OwnerPc): (tags: seq<Tag>) {
    if pc.InHand? then [pc.tag] else []
  }

  function ViewOf(s: State): (v: View) {
    View(s.delivered, OwnerTags(s.owner), NoticeTags(s.notices), CbTags(s.cb), s.completed, s.gap, s.dropped,
         s.overflow, WillFlag(s.cb), s.faulted, s.owner == Checked,
         s.owner.Closing? && s.owner.why == Lost, s.owner.Closing? && s.owner.held.Some?)
  }

  // ---------------------------------------------------------------- steps of the callback

  lemma EventView(s: State, a: Step)
    requires CbEnabled(s, a) && |s.messages| == SLOTS && a != CbGo && a != Allocate(false) && !a.Complete?
    ensures ViewOf(CbExec(s, a)) == ViewOf(s)
  {
    hide CbNext, NoticeTags, Fetch;
    if a == DataEvent { FetchView(s); }
  }

  lemma FetchView(s: State)
    requires s.cb == CbIdle
    ensures ViewOf(Fetch(s)) == ViewOf(s)
  {
    var r := Fetch(s);
    assert r == s.(rxSlot := r.rxSlot, free := r.free, cb := r.cb) && (r.cb == Filling || r.cb == Fetched);
    IdleParts();
    hide NoticeTags, CbTags, WillFlag, OwnerTags, Fetch;
  }

  lemma IdleParts()
    ensures forall pc: CbPc :: pc == CbIdle || pc == Fetched || pc == Filling ==> CbTags(pc) == [] && !WillFlag(pc)
  {
  }

  lemma EventOrder(s: State, a: Step)
    requires ViewOk(ViewOf(s)) && CbEnabled(s, a) && |s.messages| == SLOTS && a != CbGo
    ensures ViewOk(ViewOf(CbExec(s, a)))
  {
    hide CbNext, ViewOk, NoticeTags, Fetch;
    if a.Complete? {
      Completes(ViewOf(s), a.content);
    } else if a == Allocate(false) {
      Quiet(ViewOf(s), ViewOf(CbExec(s, a)));
    } else {
      hide ViewOf, CbExec;
      EventView(s, a);
    }
  }

  lemma ReceiverView(s: State)
    requires |s.messages| == SLOTS
    ensures s.cb.NoMemory? ==> ViewOf(PutBack(s)) == ViewOf(s)
    ensures s.cb.Placed? ==> ViewOf(Place(s)) == ViewOf(s)
  {
    hide NoticeTags;
  }

  lemma ReleaseView(s: State)
    ensures s.cb.Release? ==> ViewOf(TakeReceiver(s)) == ViewOf(s)
    ensures s.cb.FreeBuf? ==> ViewOf(FreeBuffer(s)) == ViewOf(s)
  {
    hide NoticeTags, FreeOpt;
  }

  lemma ChooseOrder(s: State)
    requires ViewOk(ViewOf(s)) && s.cb.Whole?
    ensures ViewOk(ViewOf(ChooseSlot(s)))
  {
    hide ViewOk, NoticeTags;
    if s.rxSlot.Some? || s.free != [] {
      assert ViewOf(ChooseSlot(s)) == ViewOf(s);
    } else {
      Drops(ViewOf(s));
    }
  }

  lemma ReturnOrder(s: State)
    requires ViewOk(ViewOf(s)) && s.cb.ReturnSlot?
    ensures ViewOk(ViewOf(Return(s)))
  {
    ReturnView(s);
    hide ViewOk, ViewOf, Return;
    Quiet(ViewOf(s), ViewOf(Return(s)));
  }

  lemma GiveSlotView(s: State, slot: nat)
    ensures var r := GiveSlot(s, slot);
            r == s.(free := r.free, overflow := r.overflow) && (s.overflow ==> r.overflow)
  {
  }

  lemma ReturnParts(next: Then)
    ensures CbTags(AfterRelease(next)) == [] && (WillFlag(AfterRelease(next)) <==> next == ThenFlag)
    ensures forall pc: CbPc :: pc.ReturnSlot? ==> CbTags(pc) == []
  {
  }

  lemma ReturnView(s: State)
    requires s.cb.ReturnSlot?
    ensures ViewOf(Return(s)) == ViewOf(s).(overflow := Return(s).overflow)
    ensures s.overflow ==> Return(s).overflow
    ensures ViewOf(s).overflow == s.overflow && (ViewOf(s).willFlag ==> ViewOf(s).inCb == [])
  {
    ReturnParts(s.cb.next);
    hide NoticeTags, GiveSlot, OwnerTags, AfterRelease, CbTags;
    if s.cb.gone.Some? { GiveSlotView(s, s.cb.gone.value); }
  }

  lemma PostOrder(s: State)
    requires ViewOk(ViewOf(s)) && s.cb.Post?
    ensures ViewOk(ViewOf(PostNotice(s)))
  {
    hide ViewOk, NoticeTags;
    if |s.notices| < NOTICES {
      NoticeTagsSnoc(s.notices, s.cb.n);
      Queues(ViewOf(s));
    } else {
      assert ViewOf(PostNotice(s)) == ViewOf(s);
    }
  }

  lemma RefuseOrder(s: State)
    requires ViewOk(ViewOf(s)) && s.cb.Full? && |s.messages| == SLOTS
    ensures ViewOk(ViewOf(Refuse(s)))
  {
    hide ViewOk, NoticeTags;
    if s.cb.n.Other? {
      Quiet(ViewOf(s), ViewOf(Refuse(s)));
    } else if s.cb.n.slot < SLOTS && s.messages[s.cb.n.slot].Some? {
      Drops(ViewOf(s));
    }
  }

  lemma CbKeepsOrder(s: State, a: Step)
    requires ViewOk(ViewOf(s)) && CbEnabled(s, a) && |s.messages| == SLOTS
    ensures ViewOk(ViewOf(CbExec(s, a)))
  {
    hide ViewOk, ViewOf, PutBack, ChooseSlot, Place, TakeReceiver, FreeBuffer, Return, PostNotice, Refuse, Fetch;
    if a != CbGo {
      EventOrder(s, a);
    } else {
      match s.cb
      case Whole(_) => ChooseOrder(s);
      case ReturnSlot(_, _) => ReturnOrder(s);
      case Post(_) => PostOrder(s);
      case Full(_) => RefuseOrder(s);
      case SlotBack => FlagOrder(s);
      case Flag => FlagOrder(s);
      case _ => ReceiverView(s); ReleaseView(s);
    }
  }

  lemma FlagOrder(s: State)
    requires ViewOk(ViewOf(s))
    ensures s.cb.SlotBack? ==> ViewOk(ViewOf(s.(rxSlot := None, cb := Flag)))
    ensures s.cb.Flag? ==> ViewOk(ViewOf(s.(overflow := true, cb := CbIdle)))
  {
    hide ViewOk, NoticeTags;
    if s.cb.SlotBack? { Quiet(ViewOf(s), ViewOf(s.(rxSlot := None, cb := Flag))); }
    if s.cb.Flag? { Quiet(ViewOf(s), ViewOf(s.(overflow := true, cb := CbIdle))); }
  }

  // ---------------------------------------------------------------- steps of the owner

  lemma TakeOrder(s: State, late: bool, fatal: bool)
    requires ViewOk(ViewOf(s)) && s.owner == Checked
    ensures ViewOk(ViewOf(Take(s, late, fatal)))
  {
    hide ViewOk, NoticeTags;
    LeavesCheck(ViewOf(s));
    if s.notices != [] {
      NoticeTagsHead(s.notices);
      var t := NoticeTags(s.notices[1..]);
      if s.notices[0].Message? {
        assert NoticeTags(s.notices)[0] == s.notices[0].tag && NoticeTags(s.notices)[1..] == t;
        TakesOne(ViewOf(s));
      } else {
        assert [] + t == t;
      }
    }
  }

  lemma GoOrder(s: State)
    requires ViewOk(ViewOf(s)) && OwnerEnabled(s, OwnerGo) && |s.messages| == SLOTS
    requires s.owner.InHand? ==> TagAt(s, s.owner.slot, s.owner.tag)
    ensures ViewOk(ViewOf(OwnerNext(s)))
  {
    hide ViewOk, ViewOf, CopyOut, Detach, GiveBack;
    match s.owner
    case InHand(_, _) => CopyView(s); Delivers(ViewOf(s));
    case Copied(_) => DetachView(s);
    case Loose(_, _) => LooseView(s);
    case Giving(_) => GiveView(s); Quiet(ViewOf(s), ViewOf(GiveBack(s)));
  }

  lemma CopyView(s: State)
    requires s.owner.InHand? && |s.messages| == SLOTS && TagAt(s, s.owner.slot, s.owner.tag)
    ensures ViewOf(CopyOut(s)) == ViewOf(s).(delivered := ViewOf(s).delivered + ViewOf(s).inHand, inHand := [])
  {
    hide NoticeTags;
  }

  lemma DetachView(s: State)
    requires s.owner.Copied? && |s.messages| == SLOTS
    ensures ViewOf(Detach(s)) == ViewOf(s)
  {
    hide NoticeTags;
  }

  lemma LooseView(s: State)
    requires s.owner.Loose?
    ensures ViewOf(s.(live := FreeOpt(s.live, Some(s.owner.buf)), owner := Giving(s.owner.slot))) == ViewOf(s)
  {
    hide NoticeTags;
  }

  lemma GiveView(s: State)
    requires s.owner.Giving?
    ensures ViewOf(GiveBack(s)) == ViewOf(s).(overflow := GiveBack(s).overflow)
    ensures s.overflow ==> GiveBack(s).overflow
    ensures ViewOf(s).overflow == s.overflow && (ViewOf(s).willFlag ==> ViewOf(s).inCb == [])
  {
    hide NoticeTags;
  }

  lemma StopOrder(s: State)
    requires ViewOk(ViewOf(s)) && s.owner.Closing? && |s.messages| == SLOTS
             && (s.owner.held.Some? ==> s.owner.why != Asked)
    ensures ViewOk(ViewOf(NotStopped(s)))
    ensures s.cb == CbIdle ==> ViewOk(ViewOf(Stopped(s)))
  {
    hide ViewOk, FreeOpt, FreeHeld;
    StaysOpen(ViewOf(s), NotStopped(s).faulted);
    if s.cb == CbIdle { Fresh(ViewOf(Stopped(s))); }
  }

  lemma OwnerKeepsOrder(s: State, a: Step)
    requires MsgInv(s) && ViewOk(ViewOf(s)) && OwnerEnabled(s, a)
    ensures ViewOk(ViewOf(OwnerExec(s, a)))
  {
    assert Positions(s);
    assert s.owner.InHand? ==> TagAt(s, s.owner.slot, s.owner.tag);
    assert s.owner.Closing? && s.owner.held.Some? ==> s.owner.why != Asked;
    assert |s.messages| == SLOTS;
    hide MsgInv, ViewOk, NoticeTags, Take, OwnerNext, Stopped, NotStopped, FreeOpt, FreeHeld, Positions;
    match a
    case PollCheck => Checks(ViewOf(s));
    case PollTake(late, fatal) => TakeOrder(s, late, fatal);
    case OwnerGo => GoOrder(s);
    case BeginStop(_) => Quiet(ViewOf(s), ViewOf(OwnerExec(s, a)));
    case EndStop(_) => StopOrder(s);
    case StartRuntime(_) => StartOrder(s, a);
  }

  lemma StartOrder(s: State, a: Step)
    requires OwnerEnabled(s, a) && a.StartRuntime? && |s.messages| == SLOTS
    ensures ViewOk(ViewOf(OwnerExec(s, a)))
  {
    hide ViewOk, FreeOpt, FreeHeld;
    Fresh(ViewOf(OwnerExec(s, a)));
  }

  // ---------------------------------------------------------------- the claims

  lemma CreatedOrder()
    ensures ViewOk(ViewOf(Created()))
  {
    hide ViewOk;
    Fresh(ViewOf(Created()));
  }

  lemma {:induction false} RunKeepsOrder(trace: seq<State>, steps: seq<Step>, t: nat)
    requires IsRun(trace, steps) && t < |trace|
    ensures ViewOk(ViewOf(trace[t]))
  {
    hide ViewOk, ViewOf, CbExec, OwnerExec, CbEnabled, OwnerEnabled, Created, BufInv;
    if t == 0 {
      CreatedOrder();
    } else {
      RunKeepsOrder(trace, steps, t - 1);
      RunKeepsBuffers(trace, steps, t - 1);
      assert Takes(trace, steps, t - 1);
      var s, a := trace[t - 1], steps[t - 1];
      if CbEnabled(s, a) {
        CbKeepsOrder(s, a);
      } else {
        assert MsgInv(s) by { BufHasMsg(s); }
        OwnerKeepsOrder(s, a);
      }
    }
  }

  lemma BufHasMsg(s: State)
    requires BufInv(s)
    ensures MsgInv(s)
  {
  }

  function Contents(tags: seq<Tag>): (r: seq<seq<Byte>>)
    ensures |r| == |tags|
  {
    seq(|tags|, i requires 0 <= i < |tags| => tags[i].content)
  }

  lemma OrderedContents(tags: seq<Tag>, completed: seq<seq<Byte>>, gap: Option<nat>)
    requires InOrder(tags, completed, gap, false) && (gap == None || |tags| <= gap.value)
    ensures Contents(tags) <= completed
  {
    assert forall i :: 0 <= i < |tags| ==> Contents(tags)[i] == completed[i];
  }

  /** Since the last drain, and unless a message completed after a dropped one has already
      been returned, the messages emqtt_poll returned are a prefix, in completion order
      and byte for byte, of those whose reassembly completed. At most one message past the
      first dropped one is ever returned, the last; then the session is already being
      stopped or the next poll stops it. */
  lemma PolledInOrder(trace: seq<State>, steps: seq<Step>, t: nat)
    requires IsRun(trace, steps) && t < |trace|
    ensures var s := trace[t];
            && (forall k :: 0 <= k < |s.delivered| ==>
                  s.delivered[k].index < |s.completed| && s.delivered[k].content == s.completed[s.delivered[k].index])
            && (forall j, k :: 0 <= j < k < |s.delivered| ==> s.delivered[j].index < s.delivered[k].index)
            && (s.gap == None || |s.delivered| <= s.gap.value ==> Contents(s.delivered) <= s.completed)
            && (s.gap.Some? && |s.delivered| > s.gap.value ==>
                  && |s.delivered| == s.gap.value + 1
                  && Contents(s.delivered[..s.gap.value]) <= s.completed
                  && s.delivered[s.gap.value].index > s.gap.value
                  && (s.overflow || s.faulted || s.owner.Closing?))
  {
    RunKeepsOrder(trace, steps, t);
    var s := trace[t];
    if s.gap == None || |s.delivered| <= s.gap.value {
      OrderedContents(s.delivered, s.completed, s.gap);
    } else {
      OrderPrefix(s.delivered, s.gap.value, s.completed, s.gap, false);
      OrderedContents(s.delivered[..s.gap.value], s.completed, s.gap);
      assert |Chain(ViewOf(s))| >= |s.delivered|;
    }
  }

  /** Once a message or a notice was dropped and the callback has returned, the next poll
      reports ERROR_QUEUE and faults the runtime, whether or not the SDK can be stopped. */
  lemma LossIsReported(trace: seq<State>, steps: seq<Step>, t: nat, ok: bool)
    requires IsRun(trace, steps) && t < |trace|
    requires trace[t].dropped && !WillFlag(trace[t].cb) && OwnerEnabled(trace[t], PollCheck)
    ensures var s := Check(trace[t]);
            && s.owner == Closing(Lost, None) && |s.messages| == SLOTS
            && (OwnerEnabled(s, EndStop(ok)) ==>
                  && OwnerExec(s, EndStop(ok)).faulted
                  && OwnerExec(s, EndStop(ok)).queueErrors == trace[t].queueErrors + 1)
  {
    RunKeepsOrder(trace, steps, t);
    RunKeepsBuffers(trace, steps, t);
    assert |trace[t].messages| == SLOTS by { LooseInPool(trace[t]); }
    hide OrderOk, Drain, BufInv;
  }

  /** A take returns the next completed message, unless exactly all messages before the
      first dropped one have been returned; then overflow was set after this poll tested
      it. */
  lemma TakeBreaksOrderIff(trace: seq<State>, steps: seq<Step>, t: nat)
    requires IsRun(trace, steps) && t < |trace|
    requires var s := trace[t]; s.owner == Checked && s.notices != [] && s.notices[0].Message?
    ensures var s := trace[t];
            && (s.notices[0].tag.index != |s.delivered| <==> s.gap == Some(|s.delivered|))
            && (s.gap == Some(|s.delivered|) ==> s.overflow)
  {
    RunKeepsOrder(trace, steps, t);
    hide NoticeTags, ViewOk;
    var s := trace[t];
    NoticeTagsHead(s.notices);
    NextQueued(ViewOf(s));
  }

  lemma NextQueued(v: View)
    requires ViewOk(v) && v.checked && v.queued != []
    ensures v.queued[0].index != |v.delivered| <==> v.gap == Some(|v.delivered|)
    ensures v.gap == Some(|v.delivered|) ==> v.overflow
  {
    assert v.inHand == [];
    assert Chain(v)[|v.delivered|] == v.queued[0];
    assert |Chain(v)| > |v.delivered|;
  }
}
