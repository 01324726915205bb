/** The client of mqtt_client.c with its linked outbox: each operation, in place, is the
    step of the session machine it stands for. `ok` tells whether the transport took the
    whole packet. */
module Clients {
  import opened Bytes
  import opened Outbox
  import opened Session
  import opened SessionDup
  import opened Requeue

  class Client {
    const cfg: Config
    const box: OutboxList
    var phase: Phase
    var running: bool
    var count: nat         // send_publish_packet_count, 16 bits
    var recvMax: nat
    ghost var epoch: nat
    ghost var calls: nat
    ghost var log: Log

    ghost predicate Valid()
      reads this, box, box.nodes
    {
      box.Valid() && recvMax < 65536
    }

    ghost function View(): (s: State)
      reads this, box
    {
      State(cfg, phase, running, epoch, box.items, box.nextHandle, calls, count, recvMax, log)
    }

    constructor (cfg: Config)
      ensures Valid() && View() == Start0(cfg) && fresh(box)
    {
      this.cfg := cfg;
      box := new OutboxList();
      phase, running, count, recvMax, epoch, calls, log := Init, false, 0, 65535, 0, 0, Empty;
    }

    // -------------------------------------------------------------- building blocks

    /** mqtt_enqueue. */
    method Store(id: nat, msgType: nat, qos: nat, data: seq<Byte>, tick: int)
      requires Valid()
      modifies this`log, box, box.nodes
      ensures Valid() && View() == Add(old(View()), id, msgType, qos, data, tick)
      ensures forall i :: 0 <= i < |box.nodes| ==> box.nodes[i] in old(box.nodes) || fresh(box.nodes[i])
    {
      hide OutboxList.Valid;
      ghost var was := box.nodes;
      var h := box.Enqueue(id, msgType, qos, data, [], tick);
      ghost var x := Item(h, id, msgType, qos, tick, Queued, data + []);
      assert data + [] == data;
      assert box.nodes == was + [box.nodes[|was|]];
      log := Snoc(log, Enqueued(x, epoch, phase == Connected || (phase == Disconnected && running)));
    }

    method AbortConnection()
      requires Valid()
      modifies this, box, box.nodes
      ensures Valid() && View() == Abort(old(View()))
    {
      hide OutboxList.Valid, Without, Hits;
      if cfg.clean {
        log := Snoc(log, Swept(Hits(box.items, ByType(SUBSCRIBE_TYPE)), DroppedOnAbort));
        var a := box.DeleteEvery(ByType(SUBSCRIBE_TYPE));
        log := Snoc(log, Swept(Hits(box.items, ByType(UNSUBSCRIBE_TYPE)), DroppedOnAbort));
        var b := box.DeleteEvery(ByType(UNSUBSCRIBE_TYPE));
      }
      phase := WaitReconnect;
      log := Snoc(log, DisconnectedEvent);
    }

    /** After a complete write: a QoS 0 publish goes, any other item is marked. The
        counter is 16 bits wide; the in-flight check keeps it from wrapping. */
    method Written(x: Item, now: int)
      requires Valid() && (cfg.v5 && Counted(x) ==> count < recvMax)
      modifies this`count, this`log, box, box.nodes
      ensures Valid() && View() == AfterWrite(old(View()), x, now)
    {
      hide OutboxList.Valid, SetPendingAt, SetTickAt, RemoveAt;
      log := Snoc(log, Wrote(x, epoch, false));
      if x.msgType == PUBLISH_TYPE && x.qos == 0 {
        var gone := box.DeleteFirst(ByHandle(x.handle));
        if gone.Some? { log := Snoc(log, Left(gone.value, SentQos0)); }
      } else {
        MarkTransmitted(x.id, now);
        if cfg.v5 && x.msgType == PUBLISH_TYPE { count := (count + 1) % 65536; }
      }
    }

    method MarkTransmitted(id: nat, now: int)
      requires box.Valid()
      modifies box`items, box.nodes`item
      ensures box.Valid() && box.items == SetPendingAt(SetTickAt(old(box.items), id, now), id, Transmitted)
    {
      hide OutboxList.Valid, SetPendingAt, SetTickAt;
      var a := box.SetTick(id, now);
      var b := box.SetPending(id, Transmitted);
    }

    // -------------------------------------------------------------- API calls

    /** esp_mqtt_client_publish from the composed packet on. */
    method Publish(id: nat, qos: nat, data: seq<Byte>, now: int, ok: bool)
      requires Valid()
      modifies this, box, box.nodes
      ensures Valid() && View() == Apply(old(View()), DoPublish(id, qos, data, now, ok))
    {
      hide OutboxList.Valid, Abort, AfterWrite;
      if qos > 0 { Store(id, PUBLISH_TYPE, qos, data, now); }
      if phase != Connected { return; }
      if cfg.v5 && qos > 0 && count >= recvMax { return; }
      if !ok {
        AbortConnection();
      } else if qos > 0 {
        Written(Item(box.nextHandle - 1, id, PUBLISH_TYPE, qos, now, Queued, data), now);
      } else {
        log := Snoc(log, WroteDirect(data, epoch));
      }
    }

    method Enqueue(id: nat, qos: nat, data: seq<Byte>, now: int, store: bool)
      requires Valid()
      modifies this`log, box, box.nodes
      ensures Valid() && View() == Apply(old(View()), DoEnqueue(id, qos, data, now, store))
    {
      if qos > 0 || store { Store(id, PUBLISH_TYPE, qos, data, now); }
    }

    /** The test of the subscribe and unsubscribe calls, made without the lock. */
    method TestConnected() returns (ok: bool)
      requires Valid()
      modifies this`calls
      ensures Valid() && View() == Apply(old(View()), DoTestConnected) && (ok <==> phase == Connected)
    {
      ok := phase == Connected;
      if ok { calls := calls + 1; }
    }

    /** The locked part, which does not test again. */
    method Subscribe(id: nat, msgType: nat, data: seq<Byte>, now: int, ok: bool)
      requires Valid()
      modifies this`log, this`calls, box, box.nodes
      ensures Valid() && View() == Apply(old(View()), DoSubscribe(id, msgType, data, now, ok))
    {
      hide OutboxList.Valid, SetPendingAt;
      Store(id, msgType, 0, data, now);
      var found := box.SetPending(id, Transmitted);
      calls := Less(calls);
      if ok { log := Snoc(log, Wrote(box.items[|box.items| - 1], epoch, false)); }
    }

    // -------------------------------------------------------------- received packets

    /** PUBACK and PUBCOMP. */
    method ReceiveAck(id: nat) returns (matched: bool)
      requires Valid()
      modifies this`count, this`log, box, box.nodes
      ensures Valid() && View() == Apply(old(View()), DoReceiveAck(id))
      ensures matched <==> First(old(box.items), ByMessage(id, PUBLISH_TYPE)) < |old(box.items)|
    {
      hide OutboxList.Valid;
      log := Snoc(log, GotAck(id, First(box.items, ByMessage(id, PUBLISH_TYPE)) < |box.items|));
      var gone := box.DeleteFirst(ByMessage(id, PUBLISH_TYPE));
      matched := gone.Some?;
      if matched {
        if cfg.v5 && count > 0 { count := count - 1; }
        log := Snoc(Snoc(log, Left(gone.value, Acked)), PublishedEvent(id));
      }
    }

    method ReceiveSubAck(id: nat, msgType: nat, ok: bool)
      requires Valid()
      modifies this, box, box.nodes
      ensures Valid() && View() == Apply(old(View()), DoReceiveSubAck(id, msgType, ok))
    {
      hide OutboxList.Valid, Abort, RemoveAt;
      var gone := box.DeleteFirst(ByMessage(id, msgType));
      if gone == None { return; }
      log := Snoc(log, Left(gone.value, SubAcked));
      if ok {
        log := Snoc(log, SubAckEvent(id));
      } else {
        AbortConnection();
      }
    }

    method ReceivePubrec(id: nat, error: bool, newId: nat, ok: bool)
      requires Valid()
      modifies this`log, box, box.nodes
      ensures Valid() && View() == Apply(old(View()), DoReceivePubrec(id, error, newId, ok))
    {
      hide OutboxList.Valid, SetPendingAt;
      ghost var k := First(box.items, ById(id));
      log := Snoc(log, GotPubrec(id, error, if k < |box.items| then Some(box.items[k].handle) else None));
      var found := box.SetPending(id, Acknowledged);
      if ok { log := Snoc(log, WrotePubrel(if id == 0 then newId else id, id, epoch)); }
    }

    // -------------------------------------------------------------- the worker

    /** The choice of the next queued item in esp_mqtt_task. */
    method PickQueued() returns (n: Node?, ghost k: nat)
      requires Valid()
      ensures k == NextQueued(View()) && |box.items| == |box.nodes|
      ensures n == if NextQueued(View()) < |box.nodes| then box.nodes[NextQueued(View())] else null
      ensures n != null ==> n.item == box.items[k]
    {
      hide OutboxList.Valid;
      n, k := box.Find(ByPending(Queued));
      if n != null && cfg.v5 && count >= recvMax && n.item.msgType == PUBLISH_TYPE && n.item.qos > 0 {
        n, k := box.Find(ById(0));
        if n != null && !(n.item.pending == Queued && n.item.msgType == PUBLISH_TYPE && n.item.qos == 0) {
          n, k := null, |box.nodes|;
        }
      }
    }

    method SendQueued(now: int, ok: bool)
      requires Valid()
      modifies this, box, box.nodes
      ensures Valid() && View() == Apply(old(View()), DoSendQueued(now, ok))
    {
      hide OutboxList.Valid, Abort, AfterWrite;
      if phase != Connected { return; }
      var n, k := PickQueued();
      if n == null { return; }
      if ok {
        Written(n.item, now);
      } else {
        AbortConnection();
      }
    }

    /** DUP goes into the stored copy before the write, so it stays if the write fails. */
    method ResendTransmitted(now: int, timeout: int, ok: bool)
      requires Valid()
      modifies this, box, box.nodes
      ensures Valid() && View() == Apply(old(View()), DoResend(now, timeout, ok))
    {
      hide OutboxList.Valid, Abort, NextQueued, Dup, First;
      if phase != Connected { return; }
      var q, kq := PickQueued();
      if q != null { return; }
      var n, k := box.Find(ByPending(Transmitted));
      if n == null || now - n.item.tick <= timeout { return; }
      SetDupInPlace(box, n, k);
      if ok {
        log := Snoc(log, Wrote(n.item, epoch, true));
      } else {
        AbortConnection();
      }
    }

    method ResendRelease(now: int, timeout: int, newId: nat, ok: bool)
      requires Valid()
      modifies this, box, box.nodes
      ensures Valid() && View() == Apply(old(View()), DoResendPubrel(now, timeout, newId, ok))
    {
      hide OutboxList.Valid, Abort;
      if phase != Connected { return; }
      var n, k := box.Find(ByPending(Acknowledged));
      if n == null || now - n.item.tick <= timeout { return; }
      if ok {
        log := Snoc(log, WrotePubrel(if n.item.id == 0 then newId else n.item.id, n.item.id, epoch));
      } else {
        AbortConnection();
      }
    }

    method ExpireOne(now: int, timeout: int) returns (id: int)
      requires Valid()
      modifies this`log, box, box.nodes
      ensures Valid() && View() == Apply(old(View()), DoExpire(now, timeout))
      ensures id == -1 <==> forall i :: 0 <= i < |old(box.items)| ==> now - old(box.items)[i].tick <= timeout
      ensures id != -1 ==> exists k :: 0 <= k < |old(box.items)| && id == old(box.items)[k].id
                             && now - old(box.items)[k].tick > timeout
                             && forall j :: 0 <= j < k ==> now - old(box.items)[j].tick <= timeout
    {
      hide OutboxList.Valid;
      var gone := box.DeleteFirst(ByExpiry(now, timeout));
      if gone == None { return -1; }
      id := gone.value.id;
      log := Snoc(Snoc(log, Left(gone.value, Expired)), DeletedEvent(id));
    }

    /** CONNACK: over MQTT 5.0 the counter restarts and the requeue loop runs. It needs
        what every reachable state has, see ReachableAddressable. */
    method ConnectionAccepted(serverMax: nat)
      requires Valid() && serverMax < 65536 && Addressable(box.items)
      modifies this, box, box.nodes
      ensures Valid() && View() == Apply(old(View()), DoConnect(serverMax))
    {
      hide OutboxList.Valid, RequeueAll, Addressable;
      if phase != Init || !running { return; }
      if cfg.v5 {
        recvMax := serverMax;
        count := 0;
        RequeueTransmitted(box);
      }
      phase := Connected;
      epoch := epoch + 1;
      log := Snoc(log, Accepted(epoch, serverMax));
    }

    /** The end of esp_mqtt_task. */
    method Exit()
      requires Valid() && running
      modifies this, box, box.nodes
      ensures Valid() && View() == Apply(old(View()), DoWorkerExit)
    {
      hide OutboxList.Valid;
      log := Snoc(log, Swept(box.items, DiscardedOnStop));
      NothingLeft(box.items);
      var deleted := box.DeleteEvery(Everything);
      phase, running := Disconnected, false;
    }
  }

  lemma {:induction false} NothingLeft(items: seq<Item>)
    ensures Without(items, Everything) == []
  {
    if items != [] { NothingLeft(items[..|items| - 1]); }
  }

  /** In every reachable state marking by id reaches every transmitted item, so the
      requeue loop of each reconnect ends. */
  lemma ReachableAddressable(cfg: Config, trace: seq<State>, steps: seq<Step>, t: nat)
    requires IsRun(Start0(cfg), trace, steps) && t < |trace|
    ensures Addressable(trace[t].outbox)
  {
    RunKeepsDup(cfg, trace, steps, t);
    var s := trace[t];
    hide LogOk, Addressable;
    forall i | 0 <= i < |s.outbox| && s.outbox[i].pending == Transmitted ensures s.outbox[i].id != 0 {
      assert ItemOk(s.log, s.outbox[i]);
    }
    QueueAddressable(s.outbox, s.nextHandle);
  }
}
