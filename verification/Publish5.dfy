/** The MQTT 5.0 PUBLISH packet of lib/mqtt5_msg.c: encoder, decoder and the exact
    condition under which decoding gives back what was encoded. */
module Publish5 {
  import opened Bytes
  import opened Publish311
  import opened Properties5

  /** Everything between the fixed header and the payload. */
  function Head5(topic: seq<Byte>, qos: nat, id: nat, props: Props): (b: seq<Byte>) {
    VarHeader(topic, qos, id) + (Varint(|PropBlock(props)|) + PropBlock(props))
  }

  function Body5(topic: seq<Byte>, qos: nat, id: nat, props: Props, payload: seq<Byte>): (b: seq<Byte>) {
    Head5(topic, qos, id, props) + payload
  }

  function Packet5(topic: seq<Byte>, payload: seq<Byte>, qos: nat, retain: nat, id: nat, props: Props): (p: seq<Byte>)
    ensures |p| >= 2
  {
    Packet(FirstByte(PUBLISH, 0, qos, retain), Body5(topic, qos, id, props, payload))
  }

  // ---------------------------------------------------------------- decoding

  datatype Message5 = Message5(topic: seq<Byte>, props: Props, payload: seq<Byte>)

  /** mqtt5_get_publish_property_payload; Running if it never returns. */
  function Decode5(s: seq<Byte>): (r: Outcome<Message5>)
    requires |s| >= 1
  {
    var (len, used) := VariableLen(s[1..]);
    var i := 1 + used;
    if i + 2 > |s| then Outside
    else DecodeAt(s, i, i + len)
  }

  function DecodeAt(s: seq<Byte>, i: nat, total: nat): (r: Outcome<Message5>)
    requires 1 <= i && i + 2 <= |s|
  {
    var at := i + 2 + FromBe16(s[i], s[i + 1]);
    if at >= |s| then Refused
    else if QosOf(s[0]) > 0 && at + 2 >= |s| then Refused
    else DecodeRest(s, s[i + 2..at], if QosOf(s[0]) > 0 then at + 2 else at, total)
  }

  /** Property block and payload, once the variable header is known to end at `k`. Beyond
      the end the length of the payload would wrap. */
  function DecodeRest(s: seq<Byte>, topic: seq<Byte>, k: nat, total: nat): (r: Outcome<Message5>)
    requires k <= |s|
  {
    var (plen, used) := VariableLen(s[k..]);
    AfterProps(s, topic, k + used, total, ReadBlock(s[k + used..], Wrap(plen)))
  }

  /** The payload, behind the properties that begin at `start`. */
  function AfterProps(s: seq<Byte>, topic: seq<Byte>, start: nat, total: nat, r: Outcome<Read>)
      : (message: Outcome<Message5>)
  {
    match r
    case Refused => Refused
    case Outside => Outside
    case Running => Running
    case Done(read) =>
      var from := start + read.next;
      var end := if total <= |s| then total else |s|;
      if from > end then Outside else Done(Message5(topic, read.props, s[from..end]))
  }

  /** mqtt5_get_id for a PUBLISH. */
  function Id5(s: seq<Byte>): (id: nat)
    requires |s| >= 1
  {
    var i := 1 + VariableLen(s[1..]).1;
    if i + 2 > |s| then 0
    else
      var at := i + 2 + FromBe16(s[i], s[i + 1]);
      if at + 2 > |s| || QosOf(s[0]) == 0 then 0 else FromBe16(s[at], s[at + 1])
  }

  // ---------------------------------------------------------------- round trip

  ghost predicate Encodable5(topic: seq<Byte>, payload: seq<Byte>, qos: nat, retain: nat, id: nat, p: Props) {
    && |topic| < 65536 && qos <= 2 && retain < 2
    && (if qos > 0 then 1 <= id < 65536 else id == 0)
    && p.expiry < 0x1_0000_0000 && p.alias < 65536 && p.subscribeId == 0
    && |Body5(topic, qos, id, p, payload)| < MAX_VARINT
  }

  /** Where the pieces of an MQTT 5.0 PUBLISH lie; `pre` is the fixed header. */
  lemma Pieces5(pre: seq<Byte>, topic: seq<Byte>, idb: seq<Byte>, v: seq<Byte>, block: seq<Byte>, payload: seq<Byte>)
    ensures var s := pre + ((Str(topic) + idb) + (v + block) + payload);
            var i := |pre|;
            var at := i + 2 + |topic|;
            var k := at + |idb|;
            && |s| == k + |v| + |block| + |payload|
            && s[i] == Be16(|topic|)[0] && s[i + 1] == Be16(|topic|)[1]
            && s[i + 2..at] == topic
            && s[at..k] == idb
            && s[k..] == v + (block + payload)
            && s[k + |v|..] == block + payload
            && s[k + |v| + |block|..] == payload
  {
  }

  lemma AfterPropsTail(s: seq<Byte>, topic: seq<Byte>, start: nat, tail: seq<Byte>, r: Outcome<Read>)
    requires start <= |s| && s[start..] == tail
    ensures var m := AfterProps(s, topic, start, |s|, r);
            match r
            case Done(read) =>
              m == if read.next > |tail| then Outside else Done(Message5(topic, read.props, tail[read.next..]))
            case Refused => m == Refused
            case Outside => m == Outside
            case Running => m == Running
  {
    if r.Done? && r.value.next <= |tail| {
      assert s[start + r.value.next..|s|] == s[start..][r.value.next..];
    }
  }

  lemma DecodeRestAt(s: seq<Byte>, topic: seq<Byte>, k: nat, v: seq<Byte>, tail: seq<Byte>, len: nat)
    requires k <= |s| && s[k..] == v + tail && VariableLen(v + tail) == (len, |v|)
    ensures |s| == k + |v| + |tail| && s[k + |v|..] == tail
    ensures DecodeRest(s, topic, k, |s|) ==
            AfterProps(s, topic, k + |v|, |s|, ReadBlock(tail, Wrap(len)))
  {
    hide ReadBlock, AfterProps, VariableLen, Wrap;
    assert s[k + |v|..] == s[k..][|v|..] == tail;
  }

  /** What the loop makes of the block decides what the decoder returns. */
  lemma DecodeRestSees(s: seq<Byte>, topic: seq<Byte>, k: nat, block: seq<Byte>, payload: seq<Byte>)
      returns (start: nat)
    requires |block| < MAX_VARINT && k <= |s| && s[k..] == Varint(|block|) + (block + payload)
    ensures start <= |s| && s[start..] == block + payload
    ensures DecodeRest(s, topic, k, |s|) ==
            AfterProps(s, topic, start, |s|, ReadBlock(block + payload, Wrap(|block|)))
  {
    hide *;
    var v := Varint(|block|);
    VariableLenOfVarint(|block|, block + payload);
    start := k + |v|;
    DecodeRestAt(s, topic, k, v, block + payload, |block|);
  }

  lemma DecodeRestReads(s: seq<Byte>, topic: seq<Byte>, k: nat, props: Props, payload: seq<Byte>)
    requires props.expiry < 0x1_0000_0000 && props.alias < 65536 && props.subscribeId == 0
    requires |PropBlock(props)| < 65536
    requires k <= |s| && s[k..] == Varint(|PropBlock(props)|) + (PropBlock(props) + payload)
    ensures DecodeRest(s, topic, k, |s|) ==
            if WithinStringLimit(props) then Done(Message5(topic, props, payload)) else Refused
  {
    hide ReadBlock, DecodeRest, AfterProps, WithinStringLimit, PropBlock, Varint;
    var block := PropBlock(props);
    var start := DecodeRestSees(s, topic, k, block, payload);
    BlockRoundTrip(props, payload);
    AfterPropsTail(s, topic, start, block + payload, ReadBlock(block + payload, |block|));
    assert (block + payload)[|block|..] == payload;
  }

  /** A longer block: if the loop ends at all, it ends too early, and the payload takes in
      properties. */
  lemma DecodeRestLong(s: seq<Byte>, topic: seq<Byte>, k: nat, block: seq<Byte>, payload: seq<Byte>)
    requires 65536 <= |block| < MAX_VARINT && k <= |s| && s[k..] == Varint(|block|) + (block + payload)
    ensures var r := DecodeRest(s, topic, k, |s|); r.Done? ==> |r.value.payload| > |payload|
  {
    hide ReadBlock, DecodeRest, AfterProps, Varint;
    var start := DecodeRestSees(s, topic, k, block, payload);
    AfterPropsTail(s, topic, start, block + payload,
                   ReadBlock(block + payload, Wrap(|block|)));
  }

  lemma DecodeAtReads(s: seq<Byte>, i: nat, topic: seq<Byte>, id: nat, v: seq<Byte>, block: seq<Byte>,
      payload: seq<Byte>)
    requires 1 <= i <= |s| && |topic| < 65536 && |v| >= 1
    requires s == s[..i] + ((Str(topic) + (if QosOf(s[0]) > 0 then Be16(id) else [])) + (v + block) + payload)
    ensures var k := i + 2 + |topic| + (if QosOf(s[0]) > 0 then 2 else 0);
            && k <= |s| && s[k..] == v + (block + payload)
            && DecodeAt(s, i, |s|) == DecodeRest(s, topic, k, |s|)
  {
    hide DecodeRest;
    Pieces5(s[..i], topic, if QosOf(s[0]) > 0 then Be16(id) else [], v, block, payload);
    Be16RoundTrip(|topic|);
  }

  lemma IdAtReads(s: seq<Byte>, i: nat, topic: seq<Byte>, id: nat, rest: seq<Byte>)
    requires 1 <= i <= |s| && |topic| < 65536 && 1 <= id < 65536 && QosOf(s[0]) > 0
    requires s == s[..i] + ((Str(topic) + Be16(id)) + ([] + []) + rest)
    requires VariableLen(s[1..]).1 == i - 1
    ensures Id5(s) == id
  {
    Pieces5(s[..i], topic, Be16(id), [], [], rest);
    Be16RoundTrip(|topic|);
    Be16RoundTrip(id);
    var at := i + 2 + |topic|;
    assert s[at..at + 2][0] == s[at] && s[at..at + 2][1] == s[at + 1];
  }

  /** The packet as fixed header and body. */
  lemma Packet5Split(topic: seq<Byte>, payload: seq<Byte>, qos: nat, retain: nat, id: nat, props: Props)
    requires Encodable5(topic, payload, qos, retain, id, props)
    ensures var p := Packet5(topic, payload, qos, retain, id, props);
            var body := Body5(topic, qos, id, props, payload);
            var i := 1 + |Varint(|body|)|;
            && i <= |p| && p == p[..i] + body && VariableLen(p[1..]) == (|body|, i - 1) && |p| == i + |body|
            && TypeOf(p[0]) == PUBLISH && DupOf(p[0]) == 0 && QosOf(p[0]) == qos && RetainOf(p[0]) == retain
  {
    hide PropBlock, VariableLen, Varint, FirstByte, Body5;
    var p := Packet5(topic, payload, qos, retain, id, props);
    var first := FirstByte(PUBLISH, 0, qos, retain);
    var body := Body5(topic, qos, id, props, payload);
    var l := Varint(|body|);
    assert p == [first] + l + body;
    assert p[1..] == l + body;
    VariableLenOfVarint(|body|, body);
    FirstByteFields(PUBLISH, 0, qos, retain);
  }

  lemma Publish5Id(topic: seq<Byte>, payload: seq<Byte>, qos: nat, retain: nat, id: nat, props: Props)
    requires Encodable5(topic, payload, qos, retain, id, props)
    ensures Id5(Packet5(topic, payload, qos, retain, id, props)) == id
  {
    hide PropBlock, VariableLen, Varint, FirstByte, Packet5;
    var p := Packet5(topic, payload, qos, retain, id, props);
    Packet5Split(topic, payload, qos, retain, id, props);
    if qos > 0 {
      var rest := (Varint(|PropBlock(props)|) + PropBlock(props)) + payload;
      assert Body5(topic, qos, id, props, payload) == (Str(topic) + Be16(id)) + ([] + []) + rest;
      IdAtReads(p, 1 + |Varint(|Body5(topic, qos, id, props, payload)|)|, topic, id, rest);
    }
  }

  /** Where the length of the property block is written. */
  function BlockStart(topic: seq<Byte>, qos: nat, id: nat, props: Props, payload: seq<Byte>): (k: nat) {
    1 + |Varint(|Body5(topic, qos, id, props, payload)|)| + 2 + |topic| + (if qos > 0 then 2 else 0)
  }

  /** An encoded packet is decoded from its property block on. */
  lemma DecodeReachesBlock(topic: seq<Byte>, payload: seq<Byte>, qos: nat, retain: nat, id: nat,
      props: Props)
    requires Encodable5(topic, payload, qos, retain, id, props)
    ensures var p := Packet5(topic, payload, qos, retain, id, props);
            var k := BlockStart(topic, qos, id, props, payload);
            && k <= |p| && p[k..] == Varint(|PropBlock(props)|) + (PropBlock(props) + payload)
            && Decode5(p) == DecodeRest(p, topic, k, |p|)
  {
    hide PropBlock, VariableLen, Varint, DecodeAt, DecodeRest, FirstByte, Packet5;
    var p := Packet5(topic, payload, qos, retain, id, props);
    Packet5Split(topic, payload, qos, retain, id, props);
    var i := 1 + |Varint(|Body5(topic, qos, id, props, payload)|)|;
    DecodeAtReads(p, i, topic, id, Varint(|PropBlock(props)|), PropBlock(props), payload);
  }

  /** Decoding an encoded packet gives every field back if and only if the response topic
      and every user property string are within the decoder's limit and the length of the
      property block fits 16 bits. When it fits, a longer string is refused. */
  lemma Publish5RoundTrip(topic: seq<Byte>, payload: seq<Byte>, qos: nat, retain: nat, id: nat, props: Props)
    requires Encodable5(topic, payload, qos, retain, id, props)
    ensures var m := Decode5(Packet5(topic, payload, qos, retain, id, props));
            && (m == Done(Message5(topic, props, payload)) <==>
                  WithinStringLimit(props) && |PropBlock(props)| < 65536)
            && (m == Refused <== !WithinStringLimit(props) && |PropBlock(props)| < 65536)
  {
    BlockBelowMax(topic, payload, qos, retain, id, props);
    hide *;
    DecodeReachesBlock(topic, payload, qos, retain, id, props);
    var p := Packet5(topic, payload, qos, retain, id, props);
    var k := BlockStart(topic, qos, id, props, payload);
    if |PropBlock(props)| >= 65536 {
      DecodeRestLong(p, topic, k, PropBlock(props), payload);
    } else {
      DecodeRestReads(p, topic, k, props, payload);
    }
  }

  lemma BlockBelowMax(topic: seq<Byte>, payload: seq<Byte>, qos: nat, retain: nat, id: nat, props: Props)
    requires Encodable5(topic, payload, qos, retain, id, props)
    ensures |PropBlock(props)| < MAX_VARINT && props.expiry < 0x1_0000_0000
    ensures props.alias < 65536 && props.subscribeId == 0
  {
    hide PropBlock, Varint;
  }

  /** A packet byte by byte: topic "a", QoS 1, id 5, payload format, expiry of 258 seconds,
      content type "t", no payload. */
  lemma OnTheWire()
    ensures Packet5([97], [], 1, 0, 5, NO_PROPS.(format := true, expiry := 258, contentType := Some([116]))) ==
            [0x32, 17, 0, 1, 97, 0, 5, 11, 1, 1, 2, 0, 0, 1, 2, 3, 0, 1, 116]
  {
    var p := NO_PROPS.(format := true, expiry := 258, contentType := Some([116]));
    BodyOnTheWire(p);
    assert FirstByte(PUBLISH, 0, 1, 0) == 0x32 && Varint(17) == [17];
    hide Body5, FirstByte, Varint;
  }

  lemma BodyOnTheWire(p: Props)
    requires p == NO_PROPS.(format := true, expiry := 258, contentType := Some([116]))
    ensures Body5([97], 1, 5, p, []) == [0, 1, 97, 0, 5, 11, 1, 1, 2, 0, 0, 1, 2, 3, 0, 1, 116]
  {
    BlockOnTheWire();
    assert Varint(11) == [11];
    assert VarHeader([97], 1, 5) == [0, 1, 97, 0, 5];
    hide PropBlock, VarHeader, Varint;
    assert Head5([97], 1, 5, p) == [0, 1, 97, 0, 5] + ([11] + [1, 1, 2, 0, 0, 1, 2, 3, 0, 1, 116]);
    hide Head5;
  }

  lemma BlockOnTheWire()
    ensures PropBlock(NO_PROPS.(format := true, expiry := 258, contentType := Some([116]))) ==
            [1, 1, 2, 0, 0, 1, 2, 3, 0, 1, 116]
  {
    assert Be32(258) == [0, 0, 1, 2] && Str([116]) == [0, 1, 116];
    assert UserBytes([]) == [];
    hide Be32, Str, UserBytes;
  }

  // ---------------------------------------------------------------- packets that do not come back

  lemma Encodes(p: Props)
    requires p.expiry < 0x1_0000_0000 && p.alias < 65536 && p.subscribeId == 0 && |PropBlock(p)| < 1000000
    ensures Encodable5([97], [], 0, 0, 0, p)
  {
    VarintAtMostFour(|PropBlock(p)|);
    hide PropBlock, Varint;
  }

  /** A packet the encoder writes and the decoder refuses. */
  lemma LongResponseRefused() returns (p: Props)
    ensures Encodable5([97], [], 0, 0, 0, p) && |PropBlock(p)| < 65536
    ensures Decode5(Packet5([97], [], 0, 0, 0, p)) == Refused
  {
    var long := seq(16385, _ => 97);
    p := NO_PROPS.(response := Some(long));
    assert |PropBlock(p)| == 16388;
    assert !WithinStringLimit(p);
    Encodes(p);
    hide PropBlock, WithinStringLimit, Decode5, Packet5;
    Publish5RoundTrip([97], [], 0, 0, 0, p);
  }

  lemma CutTo(m: nat, n: nat)
    requires m == 65536 + n && n < 65536
    ensures Wrap(m) == n
  {
  }

  /** A block whose length is cut to `n` is what the loop sees. */
  lemma DecodesCut(p: Props, n: nat)
    requires Encodable5([97], [], 0, 0, 0, p) && |PropBlock(p)| == 65536 + n && n < 65536
    ensures var r := ReadBlock(PropBlock(p) + [], n);
            var m := Decode5(Packet5([97], [], 0, 0, 0, p));
            (r.Refused? ==> m.Refused?) && (r.Running? ==> m.Running?)
  {
    BlockBelowMax([97], [], 0, 0, 0, p);
    hide *;
    DecodeReachesBlock([97], [], 0, 0, 0, p);
    var s, b := Packet5([97], [], 0, 0, 0, p), PropBlock(p);
    var start := DecodeRestSees(s, [97], BlockStart([97], 0, 0, p, []), b, []);
    CutTo(|b|, n);
    AfterPropsTail(s, [97], start, b + [], ReadBlock(b + [], n));
  }

  /** Within the string limit, but the length of the block does not fit 16 bits: two user
      properties of the longest strings allowed. */
  lemma LongBlockFails() returns (p: Props)
    ensures Encodable5([97], [], 0, 0, 0, p) && WithinStringLimit(p) && |PropBlock(p)| == 65546
    ensures Decode5(Packet5([97], [], 0, 0, 0, p)) == Refused
  {
    var long := seq(MAX_PROPERTY_STRING, _ => 97);
    var u: UserProperty := (long, long);
    p := NO_PROPS.(user := [u, u]);
    TwoUsers(p, u);
    Encodes(p);
    TwoWithinLimit(u);
    assert WithinStringLimit(p);
    hide PropBlock, Decode5, Packet5, WithinStringLimit, ReadBlock;
    DecodesCut(p, 10);
    CutKey(PropBlock(p) + []);
  }

  lemma TwoWithinLimit(u: UserProperty)
    requires Short(u)
    ensures UserWithinLimit([u, u])
  {
    hide Short;
    assert [u, u][1..] == [u] && [u][1..] == [];
    assert UserWithinLimit([u, u][1..]);
  }

  lemma TwoUsers(p: Props, u: UserProperty)
    requires p == NO_PROPS.(user := [u, u]) && |u.0| == |u.1| == MAX_PROPERTY_STRING
    ensures var b := PropBlock(p); |b| == 65546 && b[0] == 0x26 && b[1] == 64 && b[2] == 0
  {
    var first := [0x26] + Str(u.0) + Str(u.1);
    assert [u, u][1..] == [u] && [u][1..] == [];
    assert UserBytes([u]) == first + [];
    assert UserBytes([u, u]) == first + (first + []);
    assert PropBlock(p) == [] + ([] + ([] + ([] + ([] + (UserBytes([u, u]) + [])))));
    hide PropBlock, UserBytes, Str;
    Nested([], first + first, []);
    StrStarts(0x26, u.0);
    assert Be16(MAX_PROPERTY_STRING) == [64, 0];
  }

  /** A key of 16384 bytes does not fit a block of 10. */
  lemma CutKey(b: seq<Byte>)
    requires |b| >= 3 && b[0] == 0x26 && b[1] == 64 && b[2] == 0
    ensures ReadBlock(b, 10) == Refused
  {
    assert ReadStr(b, 10, 1, true) == Refused;
    assert ReadUser(b, 10, 1) == Refused;
    hide ReadStr, ReadUser, WithText, VariableLen;
    assert ReadProperty(b, 10, 0, NO_PROPS) == Refused;
  }

  /** And one on which the loop never ends: the offset behind 65533 bytes of correlation
      data wraps to the start of the block. */
  lemma LongBlockEndless() returns (p: Props)
    ensures Encodable5([97], [], 0, 0, 0, p) && WithinStringLimit(p) && |PropBlock(p)| == 65540
    ensures Decode5(Packet5([97], [], 0, 0, 0, p)) == Running
    ensures forall turns: nat :: ReadProps(PropBlock(p), 4, 0, NO_PROPS, turns) == Running
  {
    var data := seq(65533, _ => 97);
    p := NO_PROPS.(correlation := data, contentType := Some([97]));
    CorrelationFirst(p, data);
    Encodes(p);
    assert WithinStringLimit(p);
    hide PropBlock, Decode5, Packet5, WithinStringLimit, ReadBlock, ReadProps;
    forall turns: nat ensures ReadProps(PropBlock(p), 4, 0, NO_PROPS, turns) == Running {
      NeverEnds(PropBlock(p), NO_PROPS, turns);
    }
    assert PropBlock(p) + [] == PropBlock(p);
    BlockIs(PropBlock(p), 4);
    DecodesCut(p, 4);
  }

  lemma CorrelationFirst(p: Props, data: seq<Byte>)
    requires p == NO_PROPS.(correlation := data, contentType := Some([97])) && |data| == 65533
    ensures var b := PropBlock(p); |b| == 65540 && b[0] == 9 && b[1] == 255 && b[2] == 253
  {
    var c, t := [9] + Str(data), [3] + Str([97]);
    assert PropBlock(p) == [] + ([] + ([] + ([] + (c + ([] + t)))));
    hide PropBlock, Str;
    Nested(c, [], t);
    StrStarts(9, data);
    assert Be16(65533) == [255, 253];
  }

  lemma Nested(c: seq<Byte>, u: seq<Byte>, t: seq<Byte>)
    ensures [] + ([] + ([] + ([] + (c + (u + t))))) == c + (u + t)
    ensures c + ([] + t) == c + t && u + [] == u && [] + u == u
  {
  }

  lemma StrStarts(tag: Byte, s: seq<Byte>)
    ensures var c := [tag] + Str(s); |c| == 3 + |s| && c[0] == tag && c[1] == Be16(|s|)[0] && c[2] == Be16(|s|)[1]
  {
    hide Be16;
  }

  lemma BlockIs(b: seq<Byte>, plen: nat)
    requires plen < 65536
    ensures ReadBlock(b, plen) == ReadProps(b, plen, 0, NO_PROPS, plen)
  {
    hide ReadProps;
  }

  lemma {:induction false} NeverEnds(b: seq<Byte>, acc: Props, turns: nat)
    requires |b| == 65540 && b[0] == 9 && b[1] == 255 && b[2] == 253
    ensures ReadProps(b, 4, 0, acc, turns) == Running
    decreases turns
  {
    if turns > 0 {
      BackToStart(b, acc);
      hide ReadProperty;
      NeverEnds(b, ReadProperty(b, 4, 0, acc).value.props, turns - 1);
    }
  }

  lemma BackToStart(b: seq<Byte>, acc: Props)
    requires |b| == 65540 && b[0] == 9 && b[1] == 255 && b[2] == 253
    ensures ReadProperty(b, 4, 0, acc).Done? && ReadProperty(b, 4, 0, acc).value.next == 0
  {
    var t := ReadStr(b, 4, 1, false);
    assert FromBe16(255, 253) == 65533;
    assert t.Done? && t.value.next == 0;
    StringCase(b, 4, 0, acc);
    hide ReadProperty, ReadStr;
  }

  // ---------------------------------------------------------------- the decoder as a loop

  /** mqtt5_get_publish_property_payload on the bytes read so far, when its loop ends. */
  method GetPublishPropertyPayload(buffer: seq<Byte>) returns (message: Outcome<Message5>)
    requires |buffer| >= 1 && Decode5(buffer) != Running
    ensures message == Decode5(buffer)
  {
    hide ReadBlock, VariableLen, DecodeRest;
    var len, used := GetVariableLen(buffer, 1);
    var offset := 1 + used;
    var total := offset + len;
    if offset + 2 > |buffer| { return Outside; }
    var topicLen := FromBe16(buffer[offset], buffer[offset + 1]);
    offset := offset + 2;
    if offset + topicLen >= |buffer| { return Refused; }
    var topic := buffer[offset..offset + topicLen];
    offset := offset + topicLen;
    if QosOf(buffer[0]) > 0 {
      if offset + 2 >= |buffer| { return Refused; }
      offset := offset + 2;
    }
    message := GetPropertiesAndPayload(buffer, topic, offset, total);
  }

  method GetPropertiesAndPayload(buffer: seq<Byte>, topic: seq<Byte>, from: nat, total: nat)
      returns (message: Outcome<Message5>)
    requires from < |buffer| && DecodeRest(buffer, topic, from, total) != Running
    ensures message == DecodeRest(buffer, topic, from, total)
  {
    hide ReadBlock, VariableLen;
    var offset := from;
    var plen, plenBytes := GetVariableLen(buffer, offset);
    var r := GetProperties(buffer[offset + plenBytes..], plen % 65536);
    match r {
      case Done(read) =>
        offset := offset + plenBytes + read.next;
        var end := if total <= |buffer| then total else |buffer|;
        if offset > end { return Outside; }
        return Done(Message5(topic, read.props, buffer[offset..end]));
      case Refused => return Refused;
      case Outside => return Outside;
      case Running => return Running;
    }
  }
}
