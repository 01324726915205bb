/** The requeue loop of an MQTT 5.0 reconnect (mqtt_requeue_transmitted_messages): marking
    goes by id, so the loop ends exactly when each transmitted item is the first with its
    id, and then has the effect it is meant to have. */
module Requeue {
  import opened Publish311
  import opened Outbox
  import opened Session
  import opened SessionBase

  /** Marking by id reaches every transmitted item. */
  ghost predicate Addressable(items: seq<Item>) {
    forall k :: 0 <= k < |items| && items[k].pending == Transmitted ==> First(items, ById(items[k].id)) == k
  }

  /** One turn of the loop: DUP in the first transmitted item, then mark by its id. */
  function Turn(items: seq<Item>): (r: seq<Item>)
    ensures |r| == |items|
  {
    var k := First(items, ByPending(Transmitted));
    if k == |items| then items
    else SetPendingAt(items[k := Dup(items[k])], items[k].id, Queued)
  }

  function Turns(items: seq<Item>, n: nat): (r: seq<Item>)
    ensures |r| == |items|
    decreases n
  {
    if n == 0 then items else Turn(Turns(items, n - 1))
  }

  predicate Done(items: seq<Item>) {
    First(items, ByPending(Transmitted)) == |items|
  }

  // ---------------------------------------------------------------- one turn

  lemma SameIdsSameFirst(a: seq<Item>, b: seq<Item>, id: nat)
    requires |a| == |b| && forall i :: 0 <= i < |a| ==> a[i].id == b[i].id
    ensures First(a, ById(id)) == First(b, ById(id))
  {
    var k := First(b, ById(id));
    FirstIs(a, ById(id), k);
  }

  lemma FirstAtMost(items: seq<Item>, q: Query, k: nat)
    requires k < |items| && Hit(q, items[k])
    ensures First(items, q) <= k
  {
  }

  /** A turn on an addressable item requeues that item and nothing else. */
  lemma TurnRequeues(items: seq<Item>, k: nat)
    requires k == First(items, ByPending(Transmitted)) < |items| && First(items, ById(items[k].id)) == k
    ensures Turn(items) == items[k := Requeued(items[k])]
  {
    SameIdsSameFirst(items, items[k := Dup(items[k])], items[k].id);
  }

  /** Number of transmitted items. */
  function InFlight(items: seq<Item>): (n: nat) {
    if items == [] then 0 else InFlight(items[1..]) + if items[0].pending == Transmitted then 1 else 0
  }

  lemma {:induction false} InFlightDrops(items: seq<Item>, k: nat, x: Item)
    requires k < |items| && items[k].pending == Transmitted && x.pending != Transmitted
    ensures InFlight(items[k := x]) == InFlight(items) - 1
  {
    if k == 0 {
      assert items[0 := x][1..] == items[1..];
    } else {
      assert items[k := x][1..] == items[1..][k - 1 := x];
      InFlightDrops(items[1..], k - 1, x);
    }
  }

  lemma AddressableKept(items: seq<Item>, k: nat)
    requires Addressable(items) && k < |items|
    ensures Addressable(items[k := Requeued(items[k])])
  {
    var u := items[k := Requeued(items[k])];
    forall j | 0 <= j < |u| && u[j].pending == Transmitted ensures First(u, ById(u[j].id)) == j {
      SameIdsSameFirst(items, u, items[j].id);
    }
  }

  lemma RequeueAllAbsorbs(items: seq<Item>, k: nat)
    requires k < |items|
    ensures RequeueAll(items[k := Requeued(items[k])]) == RequeueAll(items)
  {
    var u := items[k := Requeued(items[k])];
    forall i | 0 <= i < |items| ensures RequeueAll(u)[i] == RequeueAll(items)[i] {
    }
  }

  lemma RequeueAllDone(items: seq<Item>)
    requires Done(items)
    ensures RequeueAll(items) == items
  {
    assert forall i :: 0 <= i < |items| ==> !Hit(ByPending(Transmitted), items[i]);
  }

  // ---------------------------------------------------------------- termination

  /** A turn makes progress and does not change what the loop is heading for. */
  lemma TurnProgress(items: seq<Item>)
    requires Addressable(items) && !Done(items)
    ensures Addressable(Turn(items)) && InFlight(Turn(items)) == InFlight(items) - 1
    ensures RequeueAll(Turn(items)) == RequeueAll(items)
  {
    var k := First(items, ByPending(Transmitted));
    assert First(items, ById(items[k].id)) == k;
    hide RequeueAll, InFlight, Addressable, Turn;
    TurnRequeues(items, k);
    InFlightDrops(items, k, Requeued(items[k]));
    AddressableKept(items, k);
    RequeueAllAbsorbs(items, k);
  }

  lemma {:induction false} LoopEnds(items: seq<Item>) returns (n: nat)
    requires Addressable(items)
    ensures Done(Turns(items, n)) && Turns(items, n) == RequeueAll(items)
    decreases InFlight(items)
  {
    hide RequeueAll, Turn, Addressable, InFlight, Done;
    if Done(items) {
      RequeueAllDone(items);
      n := 0;
    } else {
      TurnProgress(items);
      var m := LoopEnds(Turn(items));
      TurnsFirst(items, m);
      n := m + 1;
    }
  }

  lemma {:induction false} TurnsFirst(items: seq<Item>, n: nat)
    ensures Turns(Turn(items), n) == Turns(items, n + 1)
    decreases n
  {
    if n > 0 { TurnsFirst(items, n - 1); }
  }

  /** Transmitted, but an earlier item has its id. */
  predicate Shadowed(items: seq<Item>, k: nat) {
    k < |items| && items[k].pending == Transmitted && First(items, ById(items[k].id)) < k
  }

  lemma ShadowStays(items: seq<Item>, k: nat)
    requires Shadowed(items, k)
    ensures Shadowed(Turn(items), k)
  {
    var f := First(items, ByPending(Transmitted));
    FirstAtMost(items, ByPending(Transmitted), k);
    var d := items[f := Dup(items[f])];
    SameIdsSameFirst(items, d, items[f].id);
    SameIdsSameFirst(items, Turn(items), items[k].id);
    FirstAtMost(items, ById(items[f].id), f);
  }

  lemma {:induction false} ShadowNeverEnds(items: seq<Item>, k: nat, n: nat)
    requires Shadowed(items, k)
    ensures Shadowed(Turns(items, n), k) && !Done(Turns(items, n))
    decreases n
  {
    if n > 0 {
      ShadowNeverEnds(items, k, n - 1);
      ShadowStays(Turns(items, n - 1), k);
    }
    assert Hit(ByPending(Transmitted), Turns(items, n)[k]);
  }

  /** The loop ends if and only if every transmitted item is the first with its id; when
      it ends, order and all other items are unchanged, nothing is left transmitted, and
      DUP is set exactly in the requeued PUBLISHes above QoS 0. */
  lemma RequeueEndsIff(items: seq<Item>)
    ensures (exists n: nat :: Done(Turns(items, n))) <==> Addressable(items)
    ensures Addressable(items) ==> exists n: nat :: Done(Turns(items, n)) && Turns(items, n) == RequeueAll(items)
  {
    if Addressable(items) {
      var n := LoopEnds(items);
    } else {
      var k :| 0 <= k < |items| && items[k].pending == Transmitted && First(items, ById(items[k].id)) != k;
      FirstAtMost(items, ById(items[k].id), k);
      assert Shadowed(items, k);
      forall n: nat ensures !Done(Turns(items, n)) {
        ShadowNeverEnds(items, k, n);
      }
    }
  }

  /** Two items under one id, the second in flight: the loop never ends. */
  lemma SharedIdNeverEnds() returns (items: seq<Item>)
    ensures |items| == 2 && items[0].id == items[1].id != 0
    ensures forall n: nat :: !Done(Turns(items, n))
  {
    var x := Item(0, 5, PUBLISH_TYPE, 1, 0, Queued, [50]);
    items := [x, x.(handle := 1, pending := Transmitted)];
    FirstIs(items, ById(5), 0);
    forall n: nat ensures !Done(Turns(items, n)) {
      ShadowNeverEnds(items, 1, n);
    }
  }

  lemma {:induction false} RequeueKeepsSize(items: seq<Item>)
    ensures SizeOf(RequeueAll(items)) == SizeOf(items)
  {
    if items != [] {
      RequeueKeepsSize(items[1..]);
      var x := items[0];
      assert items == [x] + items[1..];
      SizeOfConcat([x], items[1..]);
      SizeOfConcat([Requeued(x)], RequeueAll(items[1..]));
      assert [x][..0] == [] && [Requeued(x)][..0] == [];
    }
  }

  /** Distinct nonzero ids are enough, QoS 0 items never being marked transmitted. */
  lemma QueueAddressable(items: seq<Item>, next: nat)
    requires Queue(items, next) && forall i :: 0 <= i < |items| && items[i].pending == Transmitted ==> items[i].id != 0
    ensures Addressable(items)
  {
    forall k | 0 <= k < |items| && items[k].pending == Transmitted ensures First(items, ById(items[k].id)) == k {
      FirstById(items, next, k);
    }
  }

  // ---------------------------------------------------------------- the loop itself

  method RequeueTransmitted(box: OutboxList)
    requires box.Valid() && Addressable(box.items)
    modifies box`items, box.nodes`item
    ensures box.Valid() && box.items == RequeueAll(old(box.items))
  {
    hide RequeueAll, Turn, Addressable, InFlight, OutboxList.Valid, First;
    ghost var before := box.items;
    var n, k := box.Find(ByPending(Transmitted));
    while n != null
      invariant box.Valid() && Addressable(box.items) && RequeueAll(box.items) == RequeueAll(before)
      invariant k == First(box.items, ByPending(Transmitted))
      invariant n == if k < |box.nodes| then box.nodes[k] else null
      decreases InFlight(box.items)
    {
      TurnProgress(box.items);
      TakeTurn(box, n, k);
      n, k := box.Find(ByPending(Transmitted));
    }
    RequeueAllDone(box.items);
  }

  /** The body of the loop. */
  method TakeTurn(box: OutboxList, n: Node, ghost k: nat)
    requires box.Valid() && k == First(box.items, ByPending(Transmitted)) < |box.nodes| && box.nodes[k] == n
    modifies box`items, box.nodes`item
    ensures box.Valid() && box.items == Turn(old(box.items))
  {
    hide SetPendingAt, Dup, SizeOf;
    var id := n.item.id;
    SetDupInPlace(box, n, k);
    var found := box.SetPending(id, Queued);
  }

  method SetDupInPlace(box: OutboxList, n: Node, ghost k: nat)
    requires box.Valid() && k < |box.nodes| && box.nodes[k] == n
    modifies box`items, n`item
    ensures box.Valid() && box.items == old(box.items)[k := Dup(old(box.items)[k])]
  {
    if n.item.msgType == PUBLISH_TYPE && n.item.qos > 0 {
      box.Change(n, k, n.item.(data := SetDup(n.item.data)));
    }
  }
}
