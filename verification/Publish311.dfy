/** The MQTT 3.1.1 PUBLISH packet of lib/mqtt_msg.c: what the encoder must produce,
    what each decoder reads, and the round trip between them, also when only the
    first part of a large packet is in the input buffer. */
module Publish311 {
  import opened Bytes

  const PUBLISH: nat := 3

  // ---------------------------------------------------------------- first byte

  function FirstByte(msgType: nat, dup: nat, qos: nat, retain: nat): (b: Byte) {
    msgType % 16 * 16 + dup % 2 * 8 + qos % 4 * 2 + retain % 2
  }

  function TypeOf(b: Byte): (kind: nat) { b / 16 }
  function DupOf(b: Byte): (dup: nat) { b / 8 % 2 }
  function QosOf(b: Byte): (qos: nat) { b / 2 % 4 }
  function RetainOf(b: Byte): (retain: nat) { b % 2 }

  /** mqtt_set_dup: buffer[0] |= 0x08. */
  function SetDupBit(b: Byte): (r: Byte)
    ensures DupOf(r) == 1
    ensures TypeOf(r) == TypeOf(b) && QosOf(r) == QosOf(b) && RetainOf(r) == RetainOf(b)
  {
    if DupOf(b) == 1 then b else EightMore(b); b + 8
  }

  lemma EightMore(b: Byte)
    requires b / 8 % 2 == 0
    ensures b + 8 < 256 && (b + 8) / 8 % 2 == 1
    ensures (b + 8) / 16 == b / 16 && (b + 8) / 2 % 4 == b / 2 % 4 && (b + 8) % 2 == b % 2
  {
    var t, r := b / 16, b % 8;
    assert b == 16 * t + r;
    assert b + 8 == 16 * t + 8 + r;
    assert b / 2 == 8 * t + r / 2 && (b + 8) / 2 == 8 * t + 4 + r / 2;
    assert r / 2 < 4;
  }

  function SetDup(s: seq<Byte>): (r: seq<Byte>)
    ensures |r| == |s|
  {
    if s == [] then s else s[0 := SetDupBit(s[0])]
  }

  lemma SetDupIdempotent(s: seq<Byte>)
    ensures SetDup(SetDup(s)) == SetDup(s)
  {
  }

  /** mqtt_has_valid_msg_hdr on the first byte. */
  predicate ValidHeader(b: Byte) {
    var t := TypeOf(b);
    if t in {1, 2, 4, 5, 7, 9, 11, 12, 13, 14} then b % 16 == 0
    else if t in {6, 8, 10} then b % 16 == 2
    else t == PUBLISH && QosOf(b) < 3 && (QosOf(b) > 0 || DupOf(b) == 0)
  }

  lemma FirstByteFields(msgType: nat, dup: nat, qos: nat, retain: nat)
    requires msgType < 16 && dup < 2 && qos < 4 && retain < 2
    ensures var b := FirstByte(msgType, dup, qos, retain);
            TypeOf(b) == msgType && DupOf(b) == dup && QosOf(b) == qos && RetainOf(b) == retain
  {
    FirstByteSum(msgType, dup, qos, retain);
    hide FirstByte;
    LowBits(msgType, 8 * dup + 2 * qos + retain);
    LowParts(dup, qos, retain);
  }

  lemma FirstByteSum(msgType: nat, dup: nat, qos: nat, retain: nat)
    requires msgType < 16 && dup < 2 && qos < 4 && retain < 2
    ensures FirstByte(msgType, dup, qos, retain) == 16 * msgType + (8 * dup + 2 * qos + retain)
  {
  }

  lemma LowParts(dup: nat, qos: nat, retain: nat)
    requires dup < 2 && qos < 4 && retain < 2
    ensures var low := 8 * dup + 2 * qos + retain;
            low < 16 && low / 8 == dup && low / 2 % 4 == qos && low % 2 == retain
  {
    assert dup == 0 || dup == 1;
    assert qos == 0 || qos == 1 || qos == 2 || qos == 3;
  }

  lemma LowBits(high: nat, low: nat)
    requires low < 16
    ensures var b := 16 * high + low;
            b / 16 == high && b / 8 % 2 == low / 8 && b / 2 % 4 == low / 2 % 4 && b % 2 == low % 2
  {
    var b := 16 * high + low;
    assert b / 8 == 2 * high + low / 8;
    assert b / 2 == 8 * high + low / 2;
  }

  /** Every PUBLISH first byte the encoder writes passes the receiver's header test,
      and setting DUP keeps it acceptable exactly when QoS is above zero. */
  lemma PublishHeaderAccepted(qos: nat, retain: nat)
    requires qos <= 2
    ensures ValidHeader(FirstByte(PUBLISH, 0, qos, retain))
    ensures ValidHeader(SetDupBit(FirstByte(PUBLISH, 0, qos, retain))) <==> qos > 0
  {
    var r := retain % 2;
    assert FirstByte(PUBLISH, 0, qos, retain) == 48 + 2 * qos + r;
    assert qos == 0 || qos == 1 || qos == 2;
    assert r == 0 || r == 1;
  }

  /** The header test, byte by byte (section 2.2 of MQTT 3.1.1): every type but PUBLISH has
      one first byte; PUBLISH has six without DUP, and four with it, above QoS 0. */
  lemma HeaderAcceptedIff(b: Byte)
    ensures ValidHeader(b) <==>
            b in {0x10, 0x20, 0x40, 0x50, 0x62, 0x70, 0x82, 0x90, 0xa2, 0xb0, 0xc0, 0xd0, 0xe0}
                 + {0x30, 0x31, 0x32, 0x33, 0x34, 0x35, 0x3a, 0x3b, 0x3c, 0x3d}
  {
  }

  // ---------------------------------------------------------------- packet layout

  /** A control packet: first byte, shortest remaining length, body. */
  function Packet(first: Byte, body: seq<Byte>): (p: seq<Byte>)
    ensures |p| >= 2 + |body|
  {
    [first] + Varint(|body|) + body
  }

  /** Topic and, above QoS 0, the packet identifier. */
  function VarHeader(topic: seq<Byte>, qos: nat, id: nat): (h: seq<Byte>)
    ensures |h| == 2 + |topic| + (if qos > 0 then 2 else 0)
  {
    Str(topic) + (if qos > 0 then Be16(id) else [])
  }

  /** The packet mqtt_msg_publish stands for, whatever the size of the output buffer. */
  function Publish(topic: seq<Byte>, payload: seq<Byte>, dup: nat, qos: nat, retain: nat, id: nat): (p: seq<Byte>) {
    Packet(FirstByte(PUBLISH, dup, qos, retain), VarHeader(topic, qos, id) + payload)
  }

  /** Number of bytes before the payload. */
  function HeaderLength(topic: seq<Byte>, payload: seq<Byte>, qos: nat): (n: nat) {
    1 + |Varint(|VarHeader(topic, qos, 0)| + |payload|)| + |VarHeader(topic, qos, 0)|
  }

  ghost predicate Encodable(topic: seq<Byte>, payload: seq<Byte>, dup: nat, qos: nat, retain: nat, id: nat) {
    && 1 <= |topic| < 65536
    && dup < 2 && qos <= 2 && retain < 2
    && (if qos > 0 then 1 <= id < 65536 else id == 0)
    && |VarHeader(topic, qos, id)| + |payload| < MAX_VARINT
  }

  // ---------------------------------------------------------------- what the decoders read

  /** mqtt_get_total_length: total packet length and the size of the fixed header. */
  function TotalLength(s: seq<Byte>): (r: (nat, nat))
    requires |s| >= 1
  {
    var sc := Scan(s[1..], 4);
    (sc.value + 1 + sc.used, 1 + sc.used)
  }

  /** mqtt_get_publish_topic, once the fixed header is known to end at `i`. */
  function TopicAt(s: seq<Byte>, i: nat): (r: Option<seq<Byte>>) {
    if i + 2 >= |s| then None
    else
      var n := FromBe16(s[i], s[i + 1]);
      if i + 2 + n > |s| then None else Some(s[i + 2..i + 2 + n])
  }

  function TopicOf(s: seq<Byte>): (r: Option<seq<Byte>>)
    requires |s| >= 1
  {
    TopicAt(s, 1 + Scan(s[1..], |s|).used)
  }

  /** mqtt_get_publish_data; a null result always comes with length 0. */
  function DataAt(s: seq<Byte>, withId: bool, total: nat, fixed: nat): (r: Option<seq<Byte>>) {
    if fixed + 2 >= |s| then None
    else
      var i := fixed + 2 + FromBe16(s[fixed], s[fixed + 1]);
      if i >= |s| then None
      else if withId && i + 2 >= |s| then None
      else
        var j := if withId then i + 2 else i;
        if total < j then None
        else if total <= |s| then Some(s[j..total]) else Some(s[j..])
  }

  function DataOf(s: seq<Byte>): (r: Option<seq<Byte>>)
    requires |s| >= 1
  {
    DataAt(s, QosOf(s[0]) > 0, TotalLength(s).0, TotalLength(s).1)
  }

  /** The bytes a null or non-null result stands for. */
  function DataBytes(d: Option<seq<Byte>>): (r: seq<Byte>) {
    match d case None => [] case Some(b) => b
  }

  /** mqtt_get_id for a PUBLISH. */
  function IdAt(s: seq<Byte>, withId: bool, i: nat): (id: nat) {
    if i + 2 >= |s| then 0
    else
      var j := i + 2 + FromBe16(s[i], s[i + 1]);
      if j > |s| || !withId || j + 2 > |s| then 0
      else FromBe16(s[j], s[j + 1])
  }

  function IdOf(s: seq<Byte>): (id: nat)
    requires |s| >= 1
  {
    IdAt(s, QosOf(s[0]) > 0, 1 + Scan(s[1..], |s|).used)
  }

  // ---------------------------------------------------------------- round trip

  lemma {:induction false} ScanBound(s: seq<Byte>, n: nat, m: nat)
    requires n <= m && Scan(s, n).closed
    ensures Scan(s, m) == Scan(s, n)
  {
    if s[0] >= 128 { ScanBound(s[1..], n - 1, m - 1); }
  }

  /** Both header scans of any sufficiently long prefix of a packet stop at the body. */
  lemma PrefixScan(first: Byte, body: seq<Byte>, n: nat)
    requires |body| < MAX_VARINT && 1 + |Varint(|body|)| <= n <= |Packet(first, body)| && n >= 4
    ensures var s := Packet(first, body)[..n];
            && s[0] == first
            && Scan(s[1..], 4) == Scanned(|body|, |Varint(|body|)|, true)
            && Scan(s[1..], |s|) == Scanned(|body|, |Varint(|body|)|, true)
  {
    var p := Packet(first, body);
    var v := Varint(|body|);
    var s := p[..n];
    var tail := body[..n - 1 - |v|];
    assert s[1..] == v + tail;
    assert Pow128(4) == MAX_VARINT by {
      assert Pow128(1) == 128; assert Pow128(2) == 16384; assert Pow128(3) == 2097152;
    }
    ScanVarint(|body|, tail, 4);
    ScanBound(s[1..], 4, |s|);
  }

  /** Indexing into four concatenated pieces. */
  lemma Pieces(a: seq<Byte>, t: seq<Byte>, idb: seq<Byte>, payload: seq<Byte>)
    ensures var p := a + (Str(t) + idb) + payload;
            var i, h := |a|, |a| + 2 + |t| + |idb|;
            && |p| == h + |payload|
            && p[i] == Be16(|t|)[0] && p[i + 1] == Be16(|t|)[1]
            && p[i + 2..i + 2 + |t|] == t
            && p[h - |idb|..h] == idb
            && p[h..] == payload
            && (|a| > 0 ==> p[0] == a[0])
  {
  }

  /** Where the pieces of a PUBLISH lie. */
  lemma Layout(topic: seq<Byte>, payload: seq<Byte>, dup: nat, qos: nat, retain: nat, id: nat)
    requires Encodable(topic, payload, dup, qos, retain, id)
    ensures var p := Publish(topic, payload, dup, qos, retain, id);
            var h := HeaderLength(topic, payload, qos);
            var i := h - |VarHeader(topic, qos, id)|;
            && |p| == h + |payload| && h >= 5 && i == 1 + |Varint(|VarHeader(topic, qos, id) + payload|)|
            && p[0] == FirstByte(PUBLISH, dup, qos, retain)
            && FromBe16(p[i], p[i + 1]) == |topic|
            && p[i + 2..i + 2 + |topic|] == topic
            && (qos > 0 ==> FromBe16(p[h - 2], p[h - 1]) == id)
            && p[h..] == payload
  {
    hide Varint, FirstByte;
    var idb := if qos > 0 then Be16(id) else [];
    var a := [FirstByte(PUBLISH, dup, qos, retain)] + Varint(|VarHeader(topic, qos, id) + payload|);
    var p := Publish(topic, payload, dup, qos, retain, id);
    assert p == a + (Str(topic) + idb) + payload;
    Pieces(a, topic, idb, payload);
    Be16RoundTrip(|topic|);
    if qos > 0 {
      var h := HeaderLength(topic, payload, qos);
      assert p[h - 2..h][0] == p[h - 2] && p[h - 2..h][1] == p[h - 1];
      Be16RoundTrip(id);
    }
  }

  /** The decoders on any bytes that hold a complete PUBLISH header from `i`. */
  lemma DecodersRead(s: seq<Byte>, topic: seq<Byte>, total: nat, i: nat, withId: bool, id: nat)
    requires |topic| >= 1
    requires var h := i + 2 + |topic| + (if withId then 2 else 0);
             && h <= |s| <= total
             && FromBe16(s[i], s[i + 1]) == |topic|
             && s[i + 2..i + 2 + |topic|] == topic
             && (withId ==> id == FromBe16(s[h - 2], s[h - 1]))
             && (!withId ==> id == 0)
    ensures TopicAt(s, i) == Some(topic) && IdAt(s, withId, i) == id
    ensures DataBytes(DataAt(s, withId, total, i)) == s[i + 2 + |topic| + (if withId then 2 else 0)..]
  {
  }

  /** The decoders on the first `n` bytes of a packet whose pieces lie as in Layout. */
  lemma PrefixDecodes(p: seq<Byte>, topic: seq<Byte>, payload: seq<Byte>, i: nat, h: nat, id: nat, n: nat)
    requires 5 <= h <= n <= |p| == h + |payload| && |topic| >= 1 && i >= 1
    requires var withId := QosOf(p[0]) > 0;
             && h == i + 2 + |topic| + (if withId then 2 else 0)
             && FromBe16(p[i], p[i + 1]) == |topic|
             && p[i + 2..i + 2 + |topic|] == topic
             && (if withId then id == FromBe16(p[h - 2], p[h - 1]) else id == 0)
             && p[h..] == payload
    requires var sc := Scan(p[..n][1..], 4);
             && sc == Scan(p[..n][1..], n) && sc.used == i - 1 && sc.value + i == |p|
    ensures var s := p[..n];
            && TotalLength(s) == (|p|, i)
            && TopicOf(s) == Some(topic) && IdOf(s) == id
            && DataBytes(DataOf(s)) == payload[..n - h]
  {
    hide Scan, FromBe16, QosOf;
    var s := p[..n];
    assert s[i + 2..i + 2 + |topic|] == p[i + 2..i + 2 + |topic|];
    DecodersRead(s, topic, |p|, i, QosOf(p[0]) > 0, id);
    assert s[h..] == p[h..][..n - h];
  }

  /** Decoding a prefix that holds the whole header gives back the metadata and the
      part of the payload present; the whole packet is the case `n == |p|`. */
  lemma PublishRoundTrip(topic: seq<Byte>, payload: seq<Byte>, dup: nat, qos: nat, retain: nat, id: nat, n: nat)
    requires Encodable(topic, payload, dup, qos, retain, id)
    requires HeaderLength(topic, payload, qos) <= n <= |Publish(topic, payload, dup, qos, retain, id)|
    ensures var p := Publish(topic, payload, dup, qos, retain, id);
            var h := HeaderLength(topic, payload, qos);
            var s := p[..n];
            && |p| == h + |payload| && n >= 5
            && TotalLength(s) == (|p|, h - |VarHeader(topic, qos, id)|)
            && TopicOf(s) == Some(topic)
            && IdOf(s) == id
            && DataBytes(DataOf(s)) == payload[..n - h]
            && TypeOf(s[0]) == PUBLISH && DupOf(s[0]) == dup && QosOf(s[0]) == qos && RetainOf(s[0]) == retain
  {
    var p := Publish(topic, payload, dup, qos, retain, id);
    var h := HeaderLength(topic, payload, qos);
    var vh := VarHeader(topic, qos, id);
    Layout(topic, payload, dup, qos, retain, id);
    PrefixScan(FirstByte(PUBLISH, dup, qos, retain), vh + payload, n);
    FirstByteFields(PUBLISH, dup, qos, retain);
    PrefixDecodes(p, topic, payload, h - |vh|, h, id, n);
  }

  /** A packet cut inside its variable header: no payload and no id; the topic only if it
      is whole and something follows it. */
  lemma CutHeader(topic: seq<Byte>, payload: seq<Byte>, dup: nat, qos: nat, retain: nat, id: nat, n: nat)
    requires Encodable(topic, payload, dup, qos, retain, id)
    requires var h := HeaderLength(topic, payload, qos); h - |VarHeader(topic, qos, id)| <= n < h && n >= 4
    requires n <= |Publish(topic, payload, dup, qos, retain, id)|
    ensures var s := Publish(topic, payload, dup, qos, retain, id)[..n];
            var i := HeaderLength(topic, payload, qos) - |VarHeader(topic, qos, id)|;
            && DataOf(s) == None && IdOf(s) == 0
            && TopicOf(s) == if n < i + 2 + |topic| then None else Some(topic)
  {
    var p := Publish(topic, payload, dup, qos, retain, id);
    var h := HeaderLength(topic, payload, qos);
    var vh := VarHeader(topic, qos, id);
    Layout(topic, payload, dup, qos, retain, id);
    PrefixScan(FirstByte(PUBLISH, dup, qos, retain), vh + payload, n);
    FirstByteFields(PUBLISH, dup, qos, retain);
    var s, i := p[..n], h - |vh|;
    assert i + 2 + |topic| <= n ==> s[i + 2..i + 2 + |topic|] == p[i + 2..i + 2 + |topic|];
    hide Scan, FirstByte, Publish, VarHeader, FromBe16, QosOf, Varint, HeaderLength;
  }

  /** A packet byte by byte: QoS 2, DUP and RETAIN set, topic "a/b", id 266, one byte of
      payload; and the length 321 in two bytes. */
  lemma OnTheWire()
    ensures Publish([97, 47, 98], [7], 1, 2, 1, 266) == [0x3d, 8, 0, 3, 97, 47, 98, 1, 10, 7]
    ensures Varint(321) == [0xc1, 2]
  {
    assert VarHeader([97, 47, 98], 2, 266) == [0, 3, 97, 47, 98, 1, 10];
    assert VarHeader([97, 47, 98], 2, 266) + [7] == [0, 3, 97, 47, 98, 1, 10, 7];
    assert Varint(8) == [8];
    assert Varint(321 / 128) == [2];
  }

  // ---------------------------------------------------------------- the decoders as loops

  /** The loop `for (i = 1; i < length && i <= cap; ++i)` that all decoders share. */
  method ScanHeader(buffer: seq<Byte>, cap: nat) returns (i: nat, totlen: nat)
    requires |buffer| >= 1
    ensures i == 1 + Scan(buffer[1..], cap).used
    ensures totlen == Scan(buffer[1..], cap).value
  {
    ghost var s := buffer[1..];
    i := 1;
    totlen := 0;
    var closed := false;
    while i < |buffer| && i <= cap && !closed
      invariant 1 <= i <= |buffer| && i <= cap + 1
      invariant !closed ==> forall j :: 0 <= j < i - 1 ==> s[j] >= 128
      invariant closed ==> i >= 2 && s[i - 2] < 128 && forall j :: 0 <= j < i - 2 ==> s[j] >= 128
      invariant totlen == Groups(s, i - 1)
      decreases |buffer| - i, !closed
    {
      assert s[i - 1] == buffer[i];
      GroupsSnoc(s, i - 1);
      totlen := totlen + (buffer[i] % 128) * Pow128(i - 1);
      closed := buffer[i] < 128;
      i := i + 1;
    }
    if i > 1 { ScanStep(s, cap, i - 2); }
    ScanIsGroups(s, cap);
  }

  method GetTotalLength(buffer: seq<Byte>) returns (total: nat, fixed: nat)
    requires |buffer| >= 1
    ensures (total, fixed) == TotalLength(buffer)
  {
    fixed, total := ScanHeader(buffer, 4);
    total := total + fixed;
  }

  method GetPublishTopic(buffer: seq<Byte>) returns (topic: Option<seq<Byte>>)
    requires |buffer| >= 1
    ensures topic == TopicOf(buffer)
  {
    var i, _ := ScanHeader(buffer, |buffer|);
    if i + 2 >= |buffer| { return None; }
    var n := FromBe16(buffer[i], buffer[i + 1]);
    i := i + 2;
    if i + n > |buffer| { return None; }
    return Some(buffer[i..i + n]);
  }

  method GetPublishData(buffer: seq<Byte>) returns (data: Option<seq<Byte>>)
    requires |buffer| >= 1
    ensures data == DataOf(buffer)
  {
    var i, totlen := ScanHeader(buffer, 4);
    totlen := totlen + i;
    if i + 2 >= |buffer| { return None; }
    var n := FromBe16(buffer[i], buffer[i + 1]);
    i := i + 2;
    if i + n >= |buffer| { return None; }
    i := i + n;
    if QosOf(buffer[0]) > 0 {
      if i + 2 >= |buffer| { return None; }
      i := i + 2;
    }
    if totlen < i { return None; }
    if totlen <= |buffer| { return Some(buffer[i..totlen]); }
    return Some(buffer[i..]);
  }

  method GetPublishId(buffer: seq<Byte>) returns (id: nat)
    requires |buffer| >= 1
    ensures id == IdOf(buffer)
  {
    var i, _ := ScanHeader(buffer, |buffer|);
    if i + 2 >= |buffer| { return 0; }
    var n := FromBe16(buffer[i], buffer[i + 1]);
    i := i + 2;
    if i + n > |buffer| { return 0; }
    i := i + n;
    if QosOf(buffer[0]) > 0 {
      if i + 2 > |buffer| { return 0; }
    } else {
      return 0;
    }
    return FromBe16(buffer[i], buffer[i + 1]);
  }
}
