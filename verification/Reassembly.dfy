/** Inbound messages: deliver_publish of mqtt_client.c cuts a PUBLISH into DATA events,
    emqtt_receive_into of runtime/emqtt_receive_internal.h puts them together again.
    The receiver completes exactly the cuttings of a message, and whatever cutting the
    network produces is one of them. */
module Reassembly {
  import opened Bytes
  import opened Publish311
  import opened TextRules

  const PAYLOAD_MAX: nat := 4096

  /** The borrowed fields of a DATA event; None is the null pointer. */
  datatype Fragment = Fragment(
    topic: Option<seq<Byte>>, topicLength: int,
    data: Option<seq<Byte>>, dataLength: int,
    total: int, offset: int,
    id: int, qos: int, retain: bool, dup: bool)

  /** A non-null pointer covers the length that goes with it. */
  ghost predicate Covered(f: Fragment) {
    && (f.topic.Some? && f.topicLength >= 0 ==> |f.topic.value| == f.topicLength)
    && (f.data.Some? && f.dataLength >= 0 ==> |f.data.value| == f.dataLength)
  }

  datatype Info = Info(topic: seq<Byte>, length: nat, id: int, qos: int, retain: bool, dup: bool)

  datatype Rx = Rx(active: bool, received: nat, info: Info, payload: seq<Byte>)

  datatype Verdict = More | Complete | Rejected

  // ---------------------------------------------------------------- the receiver

  /** The first test of emqtt_receive_into. */
  predicate InRange(f: Fragment, capacity: nat) {
    && 0 <= f.topicLength && 0 <= f.dataLength && 0 <= f.offset
    && 0 <= f.total <= PAYLOAD_MAX && f.total <= capacity
    && f.offset <= f.total && f.dataLength <= f.total - f.offset
    && (f.dataLength > 0 ==> f.data.Some?)
    && 0 <= f.qos <= 1 && 0 <= f.id <= 65535
    && (f.qos == 1 ==> f.id != 0) && (f.qos == 0 ==> f.id == 0)
  }

  ghost predicate Opens(f: Fragment) {
    f.offset == 0 && f.topic.Some? && TopicOk(f.topic.value, false)
  }

  function Data(f: Fragment): (d: seq<Byte>) {
    if f.dataLength > 0 && f.data.Some? then f.data.value else []
  }

  function InfoOf(f: Fragment): (i: Info)
    requires f.topic.Some? && f.total >= 0
  {
    Info(f.topic.value, f.total, f.id, f.qos, f.retain, f.dup)
  }

  /** A fragment goes on with the message `i`, of which `received` bytes are there. */
  predicate Continues(f: Fragment, i: Info, received: nat) {
    && f.offset == received && f.total == i.length && f.id == i.id && f.qos == i.qos
    && f.retain == i.retain && f.dup == i.dup
    && (f.dataLength == 0 ==> f.offset == 0)
    && (f.topicLength != 0 ==> f.topic == Some(i.topic))
  }

  /** `payload` with `d` copied in at `at`. */
  function Put(payload: seq<Byte>, at: nat, d: seq<Byte>): (r: seq<Byte>)
    requires at + |d| <= |payload|
    ensures |r| == |payload|
  {
    payload[..at] + d + payload[at + |d|..]
  }

  /** emqtt_receive_into. */
  ghost function Receive(r: Rx, f: Fragment): (res: (Rx, Verdict))
    requires Covered(f)
  {
    var reject := (r.(active := false, received := 0), Rejected);
    if !InRange(f, |r.payload|) then reject
    else if !r.active && !Opens(f) then reject
    else
      var info := if r.active then r.info else InfoOf(f);
      var received := if r.active then r.received else 0;
      if !Continues(f, info, received) then reject
      else
        var payload := Put(r.payload, received, Data(f));
        var now := received + |Data(f)|;
        if now == info.length then (Rx(false, now, info, payload), Complete)
        else (Rx(true, now, info, payload), More)
  }

  /** The receiver: state, message information and payload buffer, updated in place. */
  class Receiver {
    var active: bool
    var received: nat
    var info: Info
    const payload: array<Byte>

    ghost function View(): (r: Rx)
      reads this, payload
    {
      Rx(active, received, info, payload[..])
    }

    constructor (capacity: nat)
      ensures !active && fresh(payload) && payload.Length == capacity
    {
      active, received, info := false, 0, Info([], 0, 0, 0, false, false);
      payload := new Byte[capacity];
    }

    /** The memcpy into the payload. */
    method CopyIn(at: nat, d: seq<Byte>)
      requires at + |d| <= payload.Length
      modifies payload
      ensures payload[..] == Put(old(payload[..]), at, d)
    {
      ghost var before := payload[..];
      forall i | 0 <= i < |d| { payload[at + i] := d[i]; }
      assert payload[..] == Put(before, at, d);
    }

    method ReceiveInto(f: Fragment) returns (v: Verdict)
      requires Covered(f)
      modifies this, payload
      ensures (View(), v) == Receive(old(View()), f)
    {
      hide Put;
      if !InRange(f, payload.Length) {
        active, received := false, 0;
        return Rejected;
      }
      if !active {
        var ok := false;
        if f.offset == 0 && f.topic.Some? { ok := TopicValid(f.topic.value, false); }
        if !ok {
          active, received := false, 0;
          return Rejected;
        }
        info := InfoOf(f);
        received := 0;
        active := true;
      } else if f.topicLength != 0 && f.topic != Some(info.topic) {
        active, received := false, 0;
        return Rejected;
      }
      if !Continues(f, info, received) {
        active, received := false, 0;
        return Rejected;
      }
      var d := Data(f);
      CopyIn(received, d);
      received := received + |d|;
      if received == info.length {
        active := false;
        return Complete;
      }
      return More;
    }
  }

  // ---------------------------------------------------------------- what completes

  function Joined(fs: seq<Fragment>): (d: seq<Byte>) {
    if fs == [] then [] else Joined(fs[..|fs| - 1]) + Data(fs[|fs| - 1])
  }

  ghost predicate AllCovered(fs: seq<Fragment>) {
    forall k :: 0 <= k < |fs| ==> Covered(fs[k])
  }

  /** The fragments, in order, are the beginning of one message whose metadata the
      first of them gives: each starts where the ones before it end, none of them but
      the last may fill the message. */
  ghost predicate Cutting(fs: seq<Fragment>, capacity: nat) {
    if fs == [] then false
    else if |fs| == 1 then InRange(fs[0], capacity) && Opens(fs[0])
    else
      var init, last := fs[..|fs| - 1], fs[|fs| - 1];
      && Cutting(init, capacity) && InRange(last, capacity)
      && fs[0].topic.Some? && 0 <= fs[0].total <= capacity
      && |Joined(init)| < fs[0].total
      && Continues(last, InfoOf(fs[0]), |Joined(init)|)
  }

  /** Feeding fragments one by one. */
  ghost function Feed(r: Rx, fs: seq<Fragment>): (res: (Rx, seq<Verdict>))
    requires AllCovered(fs)
  {
    if fs == [] then (r, [])
    else
      var (r1, vs) := Feed(r, fs[..|fs| - 1]);
      var (r2, v) := Receive(r1, fs[|fs| - 1]);
      (r2, vs + [v])
  }

  /** MORE for every fragment but the last, then `last`. */
  ghost predicate Answers(vs: seq<Verdict>, last: Verdict) {
    |vs| >= 1 && vs[|vs| - 1] == last && forall k :: 0 <= k < |vs| - 1 ==> vs[k] == More
  }

  lemma {:induction false} FeedLength(r: Rx, fs: seq<Fragment>)
    requires AllCovered(fs)
    ensures |Feed(r, fs).1| == |fs| && |Feed(r, fs).0.payload| == |r.payload|
  {
    if fs != [] { FeedLength(r, fs[..|fs| - 1]); }
  }

  lemma OneMore(r: Rx, fs: seq<Fragment>)
    requires AllCovered(fs) && |fs| >= 2
    ensures var init := fs[..|fs| - 1];
            && (Answers(Feed(r, fs).1, More) || Answers(Feed(r, fs).1, Complete) ==> Answers(Feed(r, init).1, More))
  {
    var init := fs[..|fs| - 1];
    FeedLength(r, init);
    var vs := Feed(r, fs).1;
    assert forall k :: 0 <= k < |init| ==> vs[k] == Feed(r, init).1[k];
  }

  /** The state after a cutting. */
  ghost predicate Holds(r: Rx, fs: seq<Fragment>, capacity: nat) {
    && Cutting(fs, capacity) && |r.payload| == capacity
    && r.info == InfoOf(fs[0])
    && r.received == |Joined(fs)| <= r.info.length <= capacity
    && r.payload[..r.received] == Joined(fs)
    && r.active == (r.received < r.info.length)
  }

  /** A receiver at rest answers MORE to all but the last fragment and does not reject
      that one exactly when they form a cutting; it then holds their data. */
  lemma {:induction false} FeedCutting(r: Rx, fs: seq<Fragment>)
    requires AllCovered(fs) && fs != [] && !r.active
    ensures Answers(Feed(r, fs).1, More) || Answers(Feed(r, fs).1, Complete) <==> Cutting(fs, |r.payload|)
    ensures Cutting(fs, |r.payload|) ==>
              && Holds(Feed(r, fs).0, fs, |r.payload|)
              && Answers(Feed(r, fs).1, if |Joined(fs)| == fs[0].total then Complete else More)
  {
    var cap := |r.payload|;
    var init, last := fs[..|fs| - 1], fs[|fs| - 1];
    if |fs| == 1 {
      assert init == [];
      assert Joined(fs) == [] + Data(last) == Data(last);
      FirstStep(r, last);
    } else {
      hide Receive, Holds, Cutting, Answers;
      FeedCutting(r, init);
      FeedOneMore(r, fs);
    }
  }

  lemma FeedOneMore(r: Rx, fs: seq<Fragment>)
    requires AllCovered(fs) && |fs| >= 2 && !r.active
    requires var init, cap := fs[..|fs| - 1], |r.payload|;
             && (Answers(Feed(r, init).1, More) || Answers(Feed(r, init).1, Complete) <==> Cutting(init, cap))
             && (Cutting(init, cap) ==>
                   && Holds(Feed(r, init).0, init, cap)
                   && Answers(Feed(r, init).1, if |Joined(init)| == init[0].total then Complete else More))
    ensures Answers(Feed(r, fs).1, More) || Answers(Feed(r, fs).1, Complete) <==> Cutting(fs, |r.payload|)
    ensures Cutting(fs, |r.payload|) ==>
              && Holds(Feed(r, fs).0, fs, |r.payload|)
              && Answers(Feed(r, fs).1, if |Joined(fs)| == fs[0].total then Complete else More)
  {
    hide Receive, Continues, InRange, Opens, Data, Put;
    var cap := |r.payload|;
    var init, last := fs[..|fs| - 1], fs[|fs| - 1];
    FeedLength(r, init);
    OneMore(r, fs);
    if Cutting(init, cap) && |Joined(init)| < init[0].total {
      NextStep(Feed(r, init).0, init, last, cap);
      assert init + [last] == fs;
    } else if Cutting(init, cap) {
      assert !Answers(Feed(r, init).1, More);
    }
  }

  lemma FirstStep(r: Rx, f: Fragment)
    requires Covered(f) && !r.active
    ensures var (rx, v) := Receive(r, f);
            && (v != Rejected <==> InRange(f, |r.payload|) && Opens(f))
            && (v != Rejected ==>
                  && |rx.payload| == |r.payload| && rx.info == InfoOf(f) && rx.received == |Data(f)| <= f.total
                  && rx.payload[..rx.received] == Data(f)
                  && rx.active == (|Data(f)| < f.total) && v == if |Data(f)| == f.total then Complete else More)
  {
  }

  lemma NextStep(r: Rx, init: seq<Fragment>, f: Fragment, cap: nat)
    requires Covered(f) && Holds(r, init, cap) && r.active
    ensures var (rx, v) := Receive(r, f);
            var fs := init + [f];
            && (v != Rejected <==> Cutting(fs, cap))
            && (v != Rejected ==>
                  Holds(rx, fs, cap) && v == if |Joined(fs)| == r.info.length then Complete else More)
  {
    var fs := init + [f];
    assert fs[..|fs| - 1] == init && fs[|fs| - 1] == f && fs[0] == init[0];
    if InRange(f, cap) && Continues(f, r.info, r.received) {
      var p := Put(r.payload, r.received, Data(f));
      assert p[..r.received + |Data(f)|] == r.payload[..r.received] + Data(f);
    }
  }

  /** The message the receiver hands over. */
  ghost predicate Delivers(r: Rx, i: Info, payload: seq<Byte>) {
    r.info == i && i.length == |payload| <= |r.payload| && r.payload[..|payload|] == payload
  }

  /** Exactly the complete cuttings complete, and what is handed over is their content. */
  lemma ReassemblyExact(r: Rx, fs: seq<Fragment>)
    requires AllCovered(fs) && fs != [] && !r.active
    ensures Answers(Feed(r, fs).1, Complete) <==>
            Cutting(fs, |r.payload|) && |Joined(fs)| == fs[0].total
    ensures Answers(Feed(r, fs).1, Complete) ==> Delivers(Feed(r, fs).0, InfoOf(fs[0]), Joined(fs))
  {
    FeedCutting(r, fs);
  }

  // ---------------------------------------------------------------- deliver_publish

  function Flatten(chunks: seq<seq<Byte>>): (s: seq<Byte>) {
    if chunks == [] then [] else chunks[0] + Flatten(chunks[1..])
  }

  lemma FlattenEmpty(chunks: seq<seq<Byte>>)
    requires forall k :: 0 <= k < |chunks| ==> chunks[k] != []
    requires |Flatten(chunks)| == 0
    ensures chunks == []
  {
  }

  /** The events of deliver_publish: `inBuffer` holds what was read before, `chunks` what
      each later transport read returned; `present` is the build option that repeats the
      topic in every event. */
  method DeliverPublish(inBuffer: seq<Byte>, total: nat, chunks: seq<seq<Byte>>, present: bool)
    returns (ok: bool, events: seq<Fragment>)
    requires |inBuffer| >= 1 && total == |inBuffer| + |Flatten(chunks)|
    requires forall k :: 0 <= k < |chunks| ==> chunks[k] != []
    ensures ok <==> TopicOf(inBuffer).Some?
    ensures ok ==> events == Events(inBuffer, chunks, present)
    ensures ok ==> Contiguous(events, DataBytes(DataOf(inBuffer)) + Flatten(chunks))
  {
    events := [];
    var topic := GetPublishTopic(inBuffer);
    if topic.None? { return false, []; }
    var first := GetPublishData(inBuffer);
    var id := GetPublishId(inBuffer);
    var chunk := DataBytes(first);
    var head := Head(topic.value, |chunk| + total - |inBuffer|, id, inBuffer[0]);
    var readLen := |inBuffer|;
    var offset: nat := 0;
    events := [Event(head, Some(topic.value), 0, chunk)];
    var k := 0;
    ghost var saved := if present then Some(topic.value) else None;
    assert chunks[0..] == chunks;
    while readLen < total
      invariant k <= |chunks| && readLen + |Flatten(chunks[k..])| == total
      invariant events + Tail(head, saved, offset + |chunk|, chunks[k..]) == Events(inBuffer, chunks, present)
      decreases |chunks| - k
    {
      assert |Flatten(chunks[k..])| > 0;
      offset := offset + |chunk|;
      chunk := chunks[k];
      k := k + 1;
      assert chunks[k - 1..][1..] == chunks[k..];
      readLen := readLen + |chunk|;
      var e := Event(head, if present then Some(topic.value) else None, offset, chunk);
      assert events + ([e] + Tail(head, saved, offset + |chunk|, chunks[k..]))
             == events + [e] + Tail(head, saved, offset + |chunk|, chunks[k..]);
      events := events + [e];
    }
    FlattenEmpty(chunks[k..]);
    EventsContiguous(inBuffer, chunks, present);
    ok := true;
  }

  /** The event fields that stay the same for a whole message. */
  datatype Heading = Heading(topic: seq<Byte>, total: nat, id: nat, qos: nat, retain: bool, dup: bool)

  function Head(topic: seq<Byte>, total: nat, id: nat, first: Byte): (h: Heading) {
    Heading(topic, total, id, QosOf(first), RetainOf(first) == 1, DupOf(first) == 1)
  }

  function Event(h: Heading, topic: Option<seq<Byte>>, offset: nat, chunk: seq<Byte>): (f: Fragment) {
    Fragment(topic, if topic.Some? then |topic.value| else 0,
             if |chunk| > 0 then Some(chunk) else None, |chunk|,
             h.total, offset, h.id, h.qos, h.retain, h.dup)
  }

  function Tail(h: Heading, topic: Option<seq<Byte>>, offset: nat, chunks: seq<seq<Byte>>): (fs: seq<Fragment>)
    decreases |chunks|
  {
    if chunks == [] then []
    else [Event(h, topic, offset, chunks[0])] + Tail(h, topic, offset + |chunks[0]|, chunks[1..])
  }

  function Events(inBuffer: seq<Byte>, chunks: seq<seq<Byte>>, present: bool): (fs: seq<Fragment>)
    requires |inBuffer| >= 1 && TopicOf(inBuffer).Some?
  {
    var topic := TopicOf(inBuffer).value;
    var chunk := DataBytes(DataOf(inBuffer));
    var h := Head(topic, |chunk| + |Flatten(chunks)|, IdOf(inBuffer), inBuffer[0]);
    [Event(h, Some(topic), 0, chunk)] + Tail(h, if present then Some(topic) else None, |chunk|, chunks)
  }

  /** Every event starts where the ones before it end and names the whole length; together
      they carry the payload. */
  predicate Laid(fs: seq<Fragment>, total: nat) {
    forall k :: 0 <= k < |fs| ==> fs[k].total == total && fs[k].offset == |Joined(fs[..k])|
  }

  predicate Contiguous(fs: seq<Fragment>, payload: seq<Byte>) {
    fs != [] && Laid(fs, |payload|) && Joined(fs) == payload
  }

  lemma LaidSnoc(done: seq<Fragment>, h: Heading, topic: Option<seq<Byte>>, chunk: seq<Byte>)
    requires Laid(done, h.total)
    ensures var more := done + [Event(h, topic, |Joined(done)|, chunk)];
            Laid(more, h.total) && Joined(more) == Joined(done) + chunk
  {
    var more := done + [Event(h, topic, |Joined(done)|, chunk)];
    assert more[..|done|] == done;
    forall k | 0 <= k < |more| ensures more[k].total == h.total && more[k].offset == |Joined(more[..k])| {
      if k < |done| { assert more[..k] == done[..k]; }
    }
  }

  lemma {:induction false} TailLaid(done: seq<Fragment>, h: Heading, topic: Option<seq<Byte>>, chunks: seq<seq<Byte>>)
    requires Laid(done, h.total)
    ensures var fs := done + Tail(h, topic, |Joined(done)|, chunks);
            Laid(fs, h.total) && Joined(fs) == Joined(done) + Flatten(chunks)
    decreases |chunks|
  {
    hide Joined, Event;
    if chunks == [] {
      assert done + [] == done && Joined(done) + [] == Joined(done);
    } else {
      var e := Event(h, topic, |Joined(done)|, chunks[0]);
      LaidSnoc(done, h, topic, chunks[0]);
      TailLaid(done + [e], h, topic, chunks[1..]);
      var t := Tail(h, topic, |Joined(done)| + |chunks[0]|, chunks[1..]);
      assert (done + [e]) + t == done + ([e] + t);
      assert (Joined(done) + chunks[0]) + Flatten(chunks[1..]) == Joined(done) + (chunks[0] + Flatten(chunks[1..]));
    }
  }

  lemma FirstLaid(h: Heading, topic: Option<seq<Byte>>, chunk: seq<Byte>)
    ensures Laid([Event(h, topic, 0, chunk)], h.total) && Joined([Event(h, topic, 0, chunk)]) == chunk
  {
    LaidSnoc([], h, topic, chunk);
    var e := Event(h, topic, 0, chunk);
    assert [] + [e] == [e] && [] + chunk == chunk;
    hide Laid;
  }

  lemma EventsContiguous(inBuffer: seq<Byte>, chunks: seq<seq<Byte>>, present: bool)
    requires |inBuffer| >= 1 && TopicOf(inBuffer).Some?
    ensures Contiguous(Events(inBuffer, chunks, present), DataBytes(DataOf(inBuffer)) + Flatten(chunks))
  {
    hide TopicOf, DataOf, DataBytes, IdOf, Flatten, Laid, Joined, Tail, Event;
    var topic := TopicOf(inBuffer).value;
    var chunk := DataBytes(DataOf(inBuffer));
    var h := Head(topic, |chunk| + |Flatten(chunks)|, IdOf(inBuffer), inBuffer[0]);
    FirstLaid(h, Some(topic), chunk);
    TailLaid([Event(h, Some(topic), 0, chunk)], h, if present then Some(topic) else None, chunks);
  }

  /** The message a heading describes. */
  function HeadingInfo(h: Heading): (i: Info) {
    Info(h.topic, h.total, h.id, h.qos, h.retain, h.dup)
  }

  predicate HeadingOk(h: Heading, cap: nat) {
    h.total <= cap && h.total <= PAYLOAD_MAX && h.qos <= 1 && (if h.qos == 1 then 1 <= h.id <= 65535 else h.id == 0)
  }

  lemma OneEventCuts(done: seq<Fragment>, h: Heading, topic: Option<seq<Byte>>, chunk: seq<Byte>, cap: nat)
    requires Cutting(done, cap) && AllCovered(done)
    requires done[0].topic == Some(h.topic) && InfoOf(done[0]) == HeadingInfo(h) && HeadingOk(h, cap)
    requires topic == None || topic == Some(h.topic)
    requires chunk != [] && |Joined(done)| + |chunk| <= h.total
    ensures var more := done + [Event(h, topic, |Joined(done)|, chunk)];
            Cutting(more, cap) && AllCovered(more) && Joined(more) == Joined(done) + chunk && more[0] == done[0]
  {
    hide Opens;
    var e := Event(h, topic, |Joined(done)|, chunk);
    var more := done + [e];
    assert more[..|more| - 1] == done && more[|more| - 1] == e;
  }

  /** Events of a message appended to a cutting that breaks off before them. */
  lemma {:induction false} TailCuts(done: seq<Fragment>, h: Heading, topic: Option<seq<Byte>>,
      chunks: seq<seq<Byte>>, cap: nat)
    requires Cutting(done, cap) && AllCovered(done)
    requires done[0].topic == Some(h.topic) && InfoOf(done[0]) == HeadingInfo(h) && HeadingOk(h, cap)
    requires topic == None || topic == Some(h.topic)
    requires |Joined(done)| + |Flatten(chunks)| == h.total
    requires forall k :: 0 <= k < |chunks| ==> chunks[k] != []
    ensures var fs := done + Tail(h, topic, |Joined(done)|, chunks);
            Cutting(fs, cap) && AllCovered(fs) && Joined(fs) == Joined(done) + Flatten(chunks) && fs[0] == done[0]
    decreases |chunks|
  {
    hide Cutting, Joined, AllCovered;
    if chunks == [] {
      assert done + [] == done;
      assert Joined(done) + [] == Joined(done);
    } else {
      var e := Event(h, topic, |Joined(done)|, chunks[0]);
      var more := done + [e];
      OneEventCuts(done, h, topic, chunks[0], cap);
      TailCuts(more, h, topic, chunks[1..], cap);
      var t := Tail(h, topic, |Joined(more)|, chunks[1..]);
      assert done + ([e] + t) == more + t;
      assert (Joined(done) + chunks[0]) + Flatten(chunks[1..]) == Joined(done) + Flatten(chunks);
    }
  }

  /** The hypotheses under which the runtime promises to receive a message. */
  ghost predicate Receivable(topic: seq<Byte>, payload: seq<Byte>, dup: nat, qos: nat, retain: nat, id: nat) {
    Encodable(topic, payload, dup, qos, retain, id) && qos <= 1 && TopicOk(topic, false) && |payload| <= PAYLOAD_MAX
  }

  /** However the network cuts a PUBLISH behind its header, the events are a complete
      cutting of exactly that message. */
  lemma DeliveryIsCutting(topic: seq<Byte>, payload: seq<Byte>, dup: nat, qos: nat, retain: nat, id: nat,
                          n: nat, chunks: seq<seq<Byte>>, present: bool)
    requires Receivable(topic, payload, dup, qos, retain, id)
    requires var p := Publish(topic, payload, dup, qos, retain, id);
             HeaderLength(topic, payload, qos) <= n <= |p| && Flatten(chunks) == p[n..]
    requires forall k :: 0 <= k < |chunks| ==> chunks[k] != []
    ensures var s := Publish(topic, payload, dup, qos, retain, id)[..n];
            && |s| >= 1 && TopicOf(s).Some?
            && var fs := Events(s, chunks, present);
            && fs != [] && AllCovered(fs) && Cutting(fs, |payload|) && Joined(fs) == payload
            && InfoOf(fs[0]) == Info(topic, |payload|, id, qos, retain == 1, dup == 1)
  {
    hide Publish, TopicOk;
    var p := Publish(topic, payload, dup, qos, retain, id);
    var h := HeaderLength(topic, payload, qos);
    PublishRoundTrip(topic, payload, dup, qos, retain, id, n);
    PayloadAt(topic, payload, dup, qos, retain, id);
    assert Flatten(chunks) == payload[n - h..] by { assert p[n..] == p[h..][n - h..]; }
    EventsCut(p[..n], topic, payload, payload[..n - h], id, chunks, present);
  }

  /** The same for any bytes the decoders read as the beginning of the message. */
  lemma EventsCut(s: seq<Byte>, topic: seq<Byte>, payload: seq<Byte>, chunk: seq<Byte>, id: nat,
                  chunks: seq<seq<Byte>>, present: bool)
    requires |s| >= 1 && TopicOf(s) == Some(topic) && DataBytes(DataOf(s)) == chunk && IdOf(s) == id
    requires TopicOk(topic, false) && |payload| <= PAYLOAD_MAX && payload == chunk + Flatten(chunks)
    requires QosOf(s[0]) <= 1 && (if QosOf(s[0]) == 1 then 1 <= id <= 65535 else id == 0)
    requires forall k :: 0 <= k < |chunks| ==> chunks[k] != []
    ensures var fs := Events(s, chunks, present);
            && fs != [] && AllCovered(fs) && Cutting(fs, |payload|) && Joined(fs) == payload
            && InfoOf(fs[0]) == HeadingInfo(Head(topic, |payload|, id, s[0]))
  {
    hide TopicOk, TopicOf, DataOf, IdOf, Cutting, Joined, AllCovered, Tail, Event, QosOf, RetainOf, DupOf;
    var head := Head(topic, |payload|, id, s[0]);
    FirstEventCuts(head, chunk, |payload|);
    TailCuts([Event(head, Some(topic), 0, chunk)], head, if present then Some(topic) else None, chunks, |payload|);
  }

  lemma FirstEventCuts(h: Heading, chunk: seq<Byte>, cap: nat)
    requires HeadingOk(h, cap) && TopicOk(h.topic, false) && |chunk| <= h.total
    ensures var fs := [Event(h, Some(h.topic), 0, chunk)];
            && Cutting(fs, cap) && AllCovered(fs) && Joined(fs) == chunk
            && fs[0].topic == Some(h.topic) && fs[0].total >= 0 && InfoOf(fs[0]) == HeadingInfo(h)
  {
    hide TopicOk;
    var e := Event(h, Some(h.topic), 0, chunk);
    OpensWith(e, h.topic);
    assert [e][..0] == [];
    assert Joined([e]) == Joined([]) + Data(e);
    assert [] + chunk == chunk;
  }

  lemma OpensWith(e: Fragment, topic: seq<Byte>)
    requires e.offset == 0 && e.topic == Some(topic) && TopicOk(topic, false)
    ensures Opens(e)
  {
  }

  lemma PayloadAt(topic: seq<Byte>, payload: seq<Byte>, dup: nat, qos: nat, retain: nat, id: nat)
    requires Encodable(topic, payload, dup, qos, retain, id)
    ensures var p := Publish(topic, payload, dup, qos, retain, id);
            var h := HeaderLength(topic, payload, qos);
            h <= |p| && p[h..] == payload
  {
    Layout(topic, payload, dup, qos, retain, id);
  }

  /** Inbound identity: deliver_publish feeding the receiver answers MORE until the last
      event, then COMPLETE with the original payload and metadata. */
  lemma InboundIdentity(topic: seq<Byte>, payload: seq<Byte>, dup: nat, qos: nat, retain: nat, id: nat,
                        n: nat, chunks: seq<seq<Byte>>, present: bool, r: Rx)
    requires Receivable(topic, payload, dup, qos, retain, id) && !r.active && |r.payload| == |payload|
    requires var p := Publish(topic, payload, dup, qos, retain, id);
             HeaderLength(topic, payload, qos) <= n <= |p| && Flatten(chunks) == p[n..]
    requires forall k :: 0 <= k < |chunks| ==> chunks[k] != []
    ensures var s := Publish(topic, payload, dup, qos, retain, id)[..n];
            && |s| >= 1 && TopicOf(s).Some? && AllCovered(Events(s, chunks, present))
            && var (rx, vs) := Feed(r, Events(s, chunks, present));
            Answers(vs, Complete) && Delivers(rx, Info(topic, |payload|, id, qos, retain == 1, dup == 1), payload)
  {
    hide Publish, TopicOk, Events;
    DeliveryIsCutting(topic, payload, dup, qos, retain, id, n, chunks, present);
    ReassemblyExact(r, Events(Publish(topic, payload, dup, qos, retain, id)[..n], chunks, present));
  }
}
