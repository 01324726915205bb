/** The outbox of lib/mqtt_outbox.c: a singly linked tail queue with byte accounting,
    proved to be a first-in first-out sequence of items under every operation. */
module Outbox {
  import opened Bytes

  const PUBLISH_TYPE: nat := 3
  const SUBSCRIBE_TYPE: nat := 8
  const UNSUBSCRIBE_TYPE: nat := 10

  datatype Pending = Queued | Transmitted | Acknowledged | Confirmed

  /** A stored message; `handle` stands for the address of the C item. */
  datatype Item = Item(handle: nat, id: nat, msgType: nat, qos: nat, tick: int, pending: Pending, data: seq<Byte>)

  /** What the list traversals look for. */
  datatype Query =
    | ById(id: nat)
    | ByPending(pending: Pending)
    | ByHandle(handle: nat)
    | ByMessage(id: nat, msgType: nat)
    | ByType(msgType: nat)
    | ByExpiry(now: int, timeout: int)
    | Everything

  predicate Hit(q: Query, x: Item) {
    match q
    case ById(id) => x.id == id
    case ByPending(p) => x.pending == p
    case ByHandle(h) => x.handle == h
    case ByMessage(id, t) => x.id == id && x.msgType % 256 == t
    case ByType(t) => x.msgType % 256 == t
    case ByExpiry(now, timeout) => now - x.tick > timeout
    case Everything => true
  }

  // ---------------------------------------------------------------- sequences of items

  /** Position of the first hit, or the length if there is none. */
  function First(items: seq<Item>, q: Query): (k: nat)
    ensures k <= |items|
    ensures forall j :: 0 <= j < k ==> !Hit(q, items[j])
    ensures k < |items| ==> Hit(q, items[k])
  {
    if items == [] || Hit(q, items[0]) then 0 else 1 + First(items[1..], q)
  }

  lemma FirstIs(items: seq<Item>, q: Query, k: nat)
    requires k <= |items| && (forall j :: 0 <= j < k ==> !Hit(q, items[j])) && (k < |items| ==> Hit(q, items[k]))
    ensures First(items, q) == k
  {
  }

  function RemoveAt(items: seq<Item>, k: nat): (r: seq<Item>)
    requires k < |items|
    ensures |r| == |items| - 1
  {
    items[..k] + items[k + 1..]
  }

  /** All items that are not hits, in order. */
  function Without(items: seq<Item>, q: Query): (r: seq<Item>)
    ensures |r| <= |items|
  {
    if items == [] then []
    else
      var n := |items| - 1;
      Without(items[..n], q) + if Hit(q, items[n]) then [] else [items[n]]
  }

  function Hits(items: seq<Item>, q: Query): (r: seq<Item>) {
    if items == [] then []
    else
      var n := |items| - 1;
      Hits(items[..n], q) + if Hit(q, items[n]) then [items[n]] else []
  }

  function SizeOf(items: seq<Item>): (n: nat) {
    if items == [] then 0 else SizeOf(items[..|items| - 1]) + |items[|items| - 1].data|
  }

  lemma {:induction false} SizeOfConcat(a: seq<Item>, b: seq<Item>)
    ensures SizeOf(a + b) == SizeOf(a) + SizeOf(b)
  {
    if b == [] {
      assert a + b == a;
    } else {
      var n := |b| - 1;
      assert (a + b)[..|a + b| - 1] == a + b[..n];
      SizeOfConcat(a, b[..n]);
    }
  }

  lemma SizeOfSnoc(a: seq<Item>, x: Item)
    ensures SizeOf(a + [x]) == SizeOf(a) + |x.data|
  {
    assert (a + [x])[..|a|] == a;
  }

  lemma SizeOfRemove(items: seq<Item>, k: nat)
    requires k < |items|
    ensures SizeOf(RemoveAt(items, k)) + |items[k].data| == SizeOf(items)
  {
    assert items == items[..k] + ([items[k]] + items[k + 1..]);
    SizeOfConcat(items[..k], [items[k]] + items[k + 1..]);
    SizeOfConcat([items[k]], items[k + 1..]);
    SizeOfConcat(items[..k], items[k + 1..]);
    assert [items[k]][..0] == [];
  }

  lemma SizeOfUpdate(items: seq<Item>, k: nat, x: Item)
    requires k < |items| && |x.data| == |items[k].data|
    ensures SizeOf(items[k := x]) == SizeOf(items)
  {
    SizeOfRemove(items, k);
    SizeOfRemove(items[k := x], k);
    assert RemoveAt(items[k := x], k) == RemoveAt(items, k);
  }

  function SetPendingAt(items: seq<Item>, id: nat, p: Pending): (r: seq<Item>)
    ensures |r| == |items|
  {
    var k := First(items, ById(id));
    if k < |items| then items[k := items[k].(pending := p)] else items
  }

  function SetTickAt(items: seq<Item>, id: nat, tick: int): (r: seq<Item>)
    ensures |r| == |items|
  {
    var k := First(items, ById(id));
    if k < |items| then items[k := items[k].(tick := tick)] else items
  }

  // ---------------------------------------------------------------- expiry, one at a time

  /** outbox_delete_single_expired repeated until it finds nothing: the ids reported,
      and the items left. */
  function DrainExpired(items: seq<Item>, now: int, timeout: int): (r: (seq<nat>, seq<Item>))
    decreases |items|
  {
    var k := First(items, ByExpiry(now, timeout));
    if k == |items| then ([], items)
    else
      var (ids, left) := DrainExpired(RemoveAt(items, k), now, timeout);
      ([items[k].id] + ids, left)
  }

  function Ids(items: seq<Item>): (ids: seq<nat>)
    ensures |ids| == |items|
  {
    seq(|items|, i requires 0 <= i < |items| => items[i].id)
  }

  lemma {:induction false} WithoutConcat(a: seq<Item>, b: seq<Item>, q: Query)
    ensures Without(a + b, q) == Without(a, q) + Without(b, q)
    ensures Hits(a + b, q) == Hits(a, q) + Hits(b, q)
  {
    if b == [] {
      assert a + b == a;
    } else {
      var n := |b| - 1;
      assert (a + b)[..|a + b| - 1] == a + b[..n];
      WithoutConcat(a, b[..n], q);
    }
  }

  lemma {:induction false} NoHits(items: seq<Item>, q: Query)
    requires forall j :: 0 <= j < |items| ==> !Hit(q, items[j])
    ensures Without(items, q) == items && Hits(items, q) == []
  {
    if items != [] {
      var n := |items| - 1;
      NoHits(items[..n], q);
      assert items == items[..n] + [items[n]];
    }
  }

  /** Splitting off the first hit. */
  lemma FirstHitSplits(items: seq<Item>, q: Query)
    requires First(items, q) < |items|
    ensures var k := First(items, q);
            && Without(RemoveAt(items, k), q) == Without(items, q)
            && Hits(items, q) == [items[k]] + Hits(RemoveAt(items, k), q)
  {
    var k := First(items, q);
    var a, x, b := items[..k], items[k], items[k + 1..];
    hide Without, Hits, First, Hit;
    assert items == a + ([x] + b) && RemoveAt(items, k) == a + b;
    hide RemoveAt;
    assert forall j :: 0 <= j < |a| ==> a[j] == items[j];
    NoHits(a, q);
    SplitAround(a, x, b, q);
  }

  lemma SplitAround(a: seq<Item>, x: Item, b: seq<Item>, q: Query)
    requires Hit(q, x) && Without(a, q) == a && Hits(a, q) == []
    ensures Without(a + ([x] + b), q) == Without(a + b, q)
    ensures Hits(a + ([x] + b), q) == [x] + Hits(a + b, q)
  {
    OneHit(x, q);
    hide Without, Hits, Hit;
    WithoutConcat(a, [x] + b, q);
    WithoutConcat([x], b, q);
    WithoutConcat(a, b, q);
    assert [] + Without(b, q) == Without(b, q);
    assert [] + ([x] + Hits(b, q)) == [x] + Hits(b, q);
    assert [] + Hits(b, q) == Hits(b, q);
  }

  lemma OneHit(x: Item, q: Query)
    requires Hit(q, x)
    ensures Without([x], q) == [] && Hits([x], q) == [x]
  {
    assert [x][..0] == [];
  }

  /** Deleting expired items one by one removes what deleting them together removes,
      and reports their ids in queue order. */
  lemma {:induction false} DrainIsDelete(items: seq<Item>, now: int, timeout: int)
    ensures DrainExpired(items, now, timeout) ==
            (Ids(Hits(items, ByExpiry(now, timeout))), Without(items, ByExpiry(now, timeout)))
    decreases |items|
  {
    var q := ByExpiry(now, timeout);
    var k := First(items, q);
    hide Without, Hits, First, Hit;
    if k == |items| {
      NoHits(items, q);
    } else {
      FirstHitSplits(items, q);
      DrainIsDelete(RemoveAt(items, k), now, timeout);
      assert Ids([items[k]] + Hits(RemoveAt(items, k), q)) == [items[k].id] + Ids(Hits(RemoveAt(items, k), q));
    }
  }

  /** The items that are at most `timeout` old, in order. */
  function Fresh(items: seq<Item>, now: int, timeout: int): (kept: seq<Item>) {
    if items == [] then []
    else
      var n := |items| - 1;
      Fresh(items[..n], now, timeout) + if now - items[n].tick <= timeout then [items[n]] else []
  }

  /** The others, in order. */
  function Stale(items: seq<Item>, now: int, timeout: int): (gone: seq<Item>) {
    if items == [] then []
    else
      var n := |items| - 1;
      Stale(items[..n], now, timeout) + if now - items[n].tick <= timeout then [] else [items[n]]
  }

  lemma {:induction false} ExpirySplits(items: seq<Item>, now: int, timeout: int)
    ensures Without(items, ByExpiry(now, timeout)) == Fresh(items, now, timeout)
    ensures Hits(items, ByExpiry(now, timeout)) == Stale(items, now, timeout)
  {
    if items != [] { ExpirySplits(items[..|items| - 1], now, timeout); }
  }

  /** After the expiry loop exactly the items at most `timeout` old are left, in order, and
      the ids of the others have been reported, in order. */
  lemma DrainLeavesFresh(items: seq<Item>, now: int, timeout: int)
    ensures DrainExpired(items, now, timeout) == (Ids(Stale(items, now, timeout)), Fresh(items, now, timeout))
  {
    DrainIsDelete(items, now, timeout);
    ExpirySplits(items, now, timeout);
  }

  // ---------------------------------------------------------------- the linked list

  class Node {
    var item: Item
    var next: Node?

    constructor (item: Item)
      ensures this.item == item && next == null
    {
      this.item := item;
      next := null;
    }
  }

  /** The node after position `i`. */
  ghost function Succ(nodes: seq<Node>, i: nat): (n: Node?) {
    if i + 1 < |nodes| then nodes[i + 1] else null
  }

  class OutboxList {
    var head: Node?
    var last: Node?
    var size: nat
    var nextHandle: nat
    ghost var nodes: seq<Node>
    ghost var items: seq<Item>

    ghost predicate Linked()
      reads this`head, this`last, this`nodes, nodes`next
    {
      && (forall i, j :: 0 <= i < j < |nodes| ==> nodes[i] != nodes[j])
      && head == (if nodes == [] then null else nodes[0])
      && last == (if nodes == [] then null else nodes[|nodes| - 1])
      && (forall i :: 0 <= i < |nodes| ==> nodes[i].next == Succ(nodes, i))
    }

    /** `items` is the content of the nodes, `size` their bytes. */
    ghost predicate Valid()
      reads this, nodes
    {
      && Linked() && size == SizeOf(items)
      && |items| == |nodes| && (forall i :: 0 <= i < |nodes| ==> nodes[i].item == items[i])
    }

    constructor ()
      ensures Valid() && items == [] && nextHandle == 0 && nodes == []
    {
      head, last, size, nextHandle, nodes, items := null, null, 0, 0, [], [];
    }

    /** STAILQ_INSERT_TAIL. */
    method InsertTail(n: Node)
      requires Linked() && n !in nodes && n.next == null
      modifies this`head, this`last, this`nodes, (if last == null then {} else {last})`next
      ensures Linked() && nodes == old(nodes) + [n]
    {
      if last == null {
        head := n;
      } else {
        last.next := n;
      }
      last := n;
      nodes := nodes + [n];
    }

    /** outbox_enqueue. */
    method Enqueue(id: nat, msgType: nat, qos: nat, data: seq<Byte>, remaining: seq<Byte>, tick: int) returns (h: nat)
      requires Valid()
      modifies this, nodes`next
      ensures Valid() && h == old(nextHandle) && nextHandle == h + 1
      ensures items == old(items) + [Item(h, id, msgType, qos, tick, Queued, data + remaining)]
      ensures |nodes| == |old(nodes)| + 1 && nodes[..|old(nodes)|] == old(nodes) && fresh(nodes[|old(nodes)|])
    {
      hide SizeOf;
      h := nextHandle;
      var x := Item(h, id, msgType, qos, tick, Queued, data + remaining);
      SizeOfSnoc(items, x);
      var n := new Node(x);
      InsertTail(n);
      size := size + |x.data|;
      nextHandle := nextHandle + 1;
      items := items + [x];
    }

    /** STAILQ_FOREACH up to the first hit. */
    method Find(q: Query) returns (n: Node?, k: nat)
      requires Valid()
      ensures k == First(items, q)
      ensures n == if k < |nodes| then nodes[k] else null
      ensures |items| == |nodes| && (n != null ==> n.item == items[k])
    {
      n, k := head, 0;
      while n != null && !Hit(q, n.item)
        invariant k <= |nodes|
        invariant n == if k < |nodes| then nodes[k] else null
        invariant forall j :: 0 <= j < k ==> !Hit(q, items[j])
        decreases |nodes| - k
      {
        n := n.next;
        k := k + 1;
      }
      FirstIs(items, q, k);
    }

    /** STAILQ_REMOVE_HEAD. */
    method RemoveHead()
      requires Linked() && nodes != []
      modifies this`head, this`last, this`nodes
      ensures Linked() && nodes == old(nodes)[1..]
    {
      ghost var was := nodes;
      assert was[0].next == Succ(was, 0);
      head := head.next;
      if head == null { last := null; }
      nodes := nodes[1..];
      forall i | 0 <= i < |nodes| ensures nodes[i].next == Succ(nodes, i) {
        assert was[i + 1].next == Succ(was, i + 1);
      }
      assert forall i, j :: 0 <= i < j < |nodes| ==> was[i + 1] == nodes[i] && was[j + 1] == nodes[j];
    }

    /** STAILQ_REMOVE_AFTER: the node behind position `i` goes. */
    method RemoveAfter(cur: Node, ghost i: nat)
      requires Linked() && i + 1 < |nodes| && nodes[i] == cur
      modifies this`last, this`nodes, cur`next
      ensures Linked() && nodes == old(nodes)[..i + 1] + old(nodes)[i + 2..]
    {
      ghost var was := nodes;
      assert was[i].next == Succ(was, i) && was[i + 1].next == Succ(was, i + 1);
      cur.next := cur.next.next;
      if cur.next == null { last := cur; }
      nodes := was[..i + 1] + was[i + 2..];
      forall j | 0 <= j < |nodes| ensures nodes[j].next == Succ(nodes, j) {
        SuccAfterCut(was, i + 1, j);
        var o := if j <= i then j else j + 1;
        assert was[o] == was[i] <==> o == i;
        if o != i { assert was[o].next == Succ(was, o); }
      }
      DistinctAfterRemoval(was, nodes, i + 1);
    }

    /** Successors once the node at `k` is gone. */
    static lemma SuccAfterCut(was: seq<Node>, k: nat, j: nat)
      requires 0 < k < |was| && j + 1 < |was|
      ensures var now := was[..k] + was[k + 1..];
              && now[j] == was[if j < k then j else j + 1]
              && Succ(now, j) == if j + 1 == k then Succ(was, k) else Succ(was, if j < k then j else j + 1)
    {
    }

    /** STAILQ_REMOVE of the node at position `k`: unless it is the head, its predecessor
        is searched from there. */
    method Remove(n: Node, ghost k: nat)
      requires Linked() && k < |nodes| && nodes[k] == n
      modifies this`head, this`last, this`nodes, nodes`next
      ensures Linked() && nodes == old(nodes)[..k] + old(nodes)[k + 1..]
    {
      if head == n {
        assert k == 0;
        RemoveHead();
      } else {
        var cur := head;
        ghost var i := 0;
        while cur.next != n
          modifies {}
          invariant 0 <= i < k && cur == nodes[i]
          decreases k - i
        {
          cur := cur.next;
          i := i + 1;
        }
        assert nodes[i + 1] == n && i + 1 == k;
        RemoveAfter(cur, i);
      }
    }

    /** The content follows the nodes. */
    static lemma ItemsFollow(was: seq<Node>, before: seq<Item>, now: seq<Node>, after: seq<Item>, k: nat)
      requires k < |was| == |before| && now == was[..k] + was[k + 1..] && after == RemoveAt(before, k)
      ensures |now| == |after|
      ensures forall i :: 0 <= i < |now| ==>
                var j := if i < k then i else i + 1; now[i] == was[j] && after[i] == before[j]
    {
      forall i | 0 <= i < |now| ensures var j := if i < k then i else i + 1; now[i] == was[j] && after[i] == before[j] {
        if i >= k { assert was[k + 1..][i - k] == was[i + 1] && before[k + 1..][i - k] == before[i + 1]; }
      }
    }

    /** Removal with the byte count. */
    method Unlink(n: Node, ghost k: nat)
      requires Valid() && k < |nodes| && nodes[k] == n
      modifies this`head, this`last, this`size, this`nodes, this`items, nodes`next
      ensures Valid() && items == RemoveAt(old(items), k)
      ensures nodes == old(nodes)[..k] + old(nodes)[k + 1..]
    {
      hide SizeOf, Linked, RemoveAt;
      SizeOfRemove(items, k);
      ghost var was := nodes;
      Remove(n, k);
      size := size - |n.item.data|;
      assert forall i :: 0 <= i < |was| ==> was[i].item == items[i];
      ItemsFollow(was, items, nodes, RemoveAt(items, k), k);
      items := RemoveAt(items, k);
    }

    /** Search and remove, as outbox_delete, outbox_delete_item and
        outbox_delete_single_expired do. */
    method DeleteFirst(q: Query) returns (gone: Option<Item>)
      requires Valid()
      modifies this`head, this`last, this`size, this`nodes, this`items, nodes`next
      ensures Valid() && (forall i :: 0 <= i < |nodes| ==> nodes[i] in old(nodes))
      ensures var k := First(old(items), q);
              if k < |old(items)| then gone == Some(old(items)[k]) && items == RemoveAt(old(items), k)
              else gone == None && items == old(items)
    {
      hide Linked, SizeOf, RemoveAt, First, Hit;
      var n, k := Find(q);
      if n == null { return None; }
      gone := Some(n.item);
      Unlink(n, k);
    }

    /** One turn of STAILQ_FOREACH_SAFE: the successor is read before the removal. */
    method DeleteIf(cur: Node, q: Query, ghost k: nat) returns (next: Node?, hit: bool)
      requires Valid() && k < |nodes| && nodes[k] == cur
      modifies this`head, this`last, this`size, this`nodes, this`items, nodes`next
      ensures Valid() && hit == Hit(q, old(items)[k]) && next == Succ(old(nodes), k)
      ensures items == if hit then RemoveAt(old(items), k) else old(items)
      ensures nodes == if hit then old(nodes)[..k] + old(nodes)[k + 1..] else old(nodes)
    {
      next := cur.next;
      hit := Hit(q, cur.item);
      if hit { Unlink(cur, k); }
    }

    /** STAILQ_FOREACH_SAFE with removal, as outbox_delete_message_type,
        outbox_delete_expired and outbox_delete_all_items do. */
    method DeleteEvery(q: Query) returns (deleted: nat)
      requires Valid()
      modifies this`head, this`last, this`size, this`nodes, this`items, nodes`next
      ensures Valid() && (forall i :: 0 <= i < |nodes| ==> nodes[i] in old(nodes))
      ensures items == Without(old(items), q) && deleted == |old(items)| - |items|
    {
      hide Linked, SizeOf, Sweep, Without, Succ, Hit, RemoveAt;
      deleted := 0;
      var cur := head;
      HeadOfList();
      ghost var i, kept := 0, 0;
      ghost var before, was := items, nodes;
      SweepStart(before, was, q);
      while cur != null
        invariant Valid() && Sweep(before, was, q, i, kept, items, nodes) && kept + deleted == i
        invariant i <= |before| == |was| && (forall m :: m in nodes ==> m in old(nodes))
        invariant cur == if i < |was| then was[i] else null
        decreases |before| - i
      {
        SweepStep(before, was, q, i, kept, items, nodes);
        assert forall j :: 0 <= j < |nodes| ==> nodes[j] in old(nodes);
        var hit;
        cur, hit := DeleteIf(cur, q, kept);
        i := i + 1;
        if hit { deleted := deleted + 1; } else { kept := kept + 1; }
      }
      SweepEnd(before, was, q, i, kept, items, nodes);
    }

    lemma HeadOfList()
      requires Linked()
      ensures head == if nodes == [] then null else nodes[0]
    {
    }

    /** outbox_set_pending, outbox_set_tick and the in-place marking of the stored bytes
        change one item and keep its length. */
    method Change(n: Node, ghost k: nat, x: Item)
      requires Valid() && k < |nodes| && nodes[k] == n && |x.data| == |n.item.data|
      modifies this`items, n`item
      ensures Valid() && items == old(items)[k := x]
    {
      hide SizeOf;
      SizeOfUpdate(items, k, x);
      n.item := x;
      items := items[k := x];
    }

    method SetPending(id: nat, p: Pending) returns (ok: bool)
      requires Valid()
      modifies this`items, nodes`item
      ensures Valid() && items == SetPendingAt(old(items), id, p)
      ensures ok <==> First(old(items), ById(id)) < |old(items)|
    {
      var n, k := Find(ById(id));
      ok := n != null;
      if ok { Change(n, k, n.item.(pending := p)); }
    }

    method SetTick(id: nat, tick: int) returns (ok: bool)
      requires Valid()
      modifies this`items, nodes`item
      ensures Valid() && items == SetTickAt(old(items), id, tick)
      ensures ok <==> First(old(items), ById(id)) < |old(items)|
    {
      var n, k := Find(ById(id));
      ok := n != null;
      if ok { Change(n, k, n.item.(tick := tick)); }
    }
  }

  /** A sweep that deletes hits has dealt with the first `i` of `before` and kept `kept`
      of them. */
  ghost predicate Sweep(before: seq<Item>, was: seq<Node>, q: Query, i: nat, kept: nat, items: seq<Item>,
      nodes: seq<Node>) {
    && |before| == |was| && |items| == |nodes| && kept <= i <= |before| && |nodes| == kept + |was| - i
    && (forall j :: kept <= j < |nodes| ==> nodes[j] == was[j - kept + i])
    && (forall m :: m in nodes ==> m in was)
    && items[..kept] == Without(before[..i], q) && items[kept..] == before[i..]
  }

  lemma SweepStart(before: seq<Item>, was: seq<Node>, q: Query)
    requires |before| == |was|
    ensures Sweep(before, was, q, 0, 0, before, was)
  {
    assert before[..0] == [] && before[0..] == before;
  }

  lemma SweepStep(before: seq<Item>, was: seq<Node>, q: Query, i: nat, kept: nat, items: seq<Item>, nodes: seq<Node>)
    requires Sweep(before, was, q, i, kept, items, nodes) && i < |before|
    ensures kept < |nodes| && nodes[kept] == was[i] && items[kept] == before[i]
    ensures Succ(nodes, kept) == if i + 1 < |was| then was[i + 1] else null
    ensures Hit(q, items[kept]) ==>
              Sweep(before, was, q, i + 1, kept, RemoveAt(items, kept), nodes[..kept] + nodes[kept + 1..])
    ensures !Hit(q, items[kept]) ==> Sweep(before, was, q, i + 1, kept + 1, items, nodes)
  {
    assert items[kept] == items[kept..][0];
    assert before[..i + 1][..i] == before[..i];
    assert before[i + 1..] == before[i..][1..];
    if Hit(q, items[kept]) {
      assert RemoveAt(items, kept)[..kept] == items[..kept];
      assert RemoveAt(items, kept)[kept..] == items[kept..][1..];
    } else {
      assert items[..kept + 1] == items[..kept] + [items[kept]];
      assert items[kept + 1..] == items[kept..][1..];
    }
  }

  lemma SweepEnd(before: seq<Item>, was: seq<Node>, q: Query, i: nat, kept: nat, items: seq<Item>, nodes: seq<Node>)
    requires Sweep(before, was, q, i, kept, items, nodes) && i == |before|
    ensures items == Without(before, q) && kept == |items| && forall m :: m in nodes ==> m in was
  {
    assert before[..i] == before && items[..kept] == items;
  }

  lemma DistinctAfterRemoval(was: seq<Node>, now: seq<Node>, k: nat)
    requires k < |was| && now == was[..k] + was[k + 1..]
    requires forall i, j :: 0 <= i < j < |was| ==> was[i] != was[j]
    ensures forall i, j :: 0 <= i < j < |now| ==> now[i] != now[j]
  {
    forall i, j | 0 <= i < j < |now| ensures now[i] != now[j] {
      var vi, vj := if i < k then i else i + 1, if j < k then j else j + 1;
      assert now[i] == was[vi] && now[j] == was[vj];
    }
  }
}
