/** The outbound side of a connection: lib/mqtt_msg.c and lib/mqtt5_msg.c compose a
    packet in one buffer, leaving room for the fixed header; a packet that does not
    fit is cut and the rest is written, or stored, from the caller's data. */
module Connections {
  import opened Bytes
  import opened Publish311
  import opened Properties5
  import opened Publish5

  const MAX_FIXED_HEADER: nat := 5
  const PINGREQ: nat := 12

  /** The next identifier of append_message_id in incremental mode: a 16-bit counter
      that skips zero. */
  function NextId(last: nat): (id: nat)
    requires last < 65536
    ensures 1 <= id < 65536
  {
    if last == 65535 then 1 else last + 1
  }

  /** The identifier assigned by the k-th next call. */
  function NthId(last: nat, k: nat): (id: nat)
    requires last < 65536 && k >= 1
    ensures 1 <= id < 65536
    decreases k
  {
    if k == 1 then NextId(last) else NthId(NextId(last), k - 1)
  }

  lemma {:induction false} NthIdClosedForm(last: nat, k: nat)
    requires last < 65536 && k >= 1
    ensures NthId(last, k) == (last + k - 1) % 65535 + 1
    decreases k
  {
    if k > 1 {
      NthIdClosedForm(NextId(last), k - 1);
    }
  }

  /** Any 65535 consecutive assignments are nonzero and pairwise distinct. */
  lemma ConsecutiveIdsDistinct(last: nat, j: nat, k: nat)
    requires last < 65536 && 1 <= j < k <= j + 65534
    ensures NthId(last, j) != 0 && NthId(last, j) != NthId(last, k)
  {
    NthIdClosedForm(last, j);
    NthIdClosedForm(last, k);
  }

  function Pow256(k: nat): (p: nat)
    ensures p >= 1
  {
    if k == 0 then 1 else 256 * Pow256(k - 1)
  }

  /** The `k` low bytes of `n`, most significant first, as append_property writes a
      number or a string length of width `k`. */
  function Be(n: nat, k: nat): (s: seq<Byte>)
    ensures |s| == k
  {
    seq(k, i requires 0 <= i < k => n / Pow256(k - 1 - i) % 256)
  }

  lemma BeWidths(n: nat)
    ensures Be(n, 2) == Be16(n) && Be(n, 4) == Be32(n) && Be(n, 1) == [n % 256]
  {
    assert Pow256(1) == 256 && Pow256(2) == 65536 && Pow256(3) == 16777216;
  }

  /** The bytes of one append_property call; identifier 0 stands for none. */
  function PropertyBytes(propertyType: Byte, width: nat, data: Option<seq<Byte>>, n: nat): (s: seq<Byte>)
    ensures |s| == (if propertyType > 0 then 1 else 0) + width + (if data.Some? then |data.value| else 0)
  {
    (if propertyType > 0 then [propertyType] else []) + Be(n, width) + (if data.Some? then data.value else [])
  }

  /** A null property pointer. */
  function PropsOr(props: Option<Props>): (p: Props) {
    if props.Some? then props.value else NO_PROPS
  }

  lemma VarHeaderLength(topic: seq<Byte>, qos: nat, id: nat)
    ensures |VarHeader(topic, qos, id)| == 2 + |topic| + (if qos > 0 then 2 else 0)
  {
  }

  lemma UserBytesNil()
    ensures UserBytes([]) == []
  {
  }

  lemma {:induction false} UserBytesPrefix(user: seq<UserProperty>, k: nat)
    requires k <= |user|
    ensures |UserBytes(user[..k])| <= |UserBytes(user)|
  {
    if k > 0 {
      assert user[..k][1..] == user[1..][..k - 1];
      UserBytesPrefix(user[1..], k - 1);
    }
  }

  lemma StringProperty(propertyType: Byte, s: seq<Byte>)
    requires propertyType > 0
    ensures PropertyBytes(propertyType, 2, Some(s), |s|) == [propertyType] + Str(s)
    ensures PropertyBytes(0, 2, Some(s), |s|) == Str(s)
  {
    BeWidths(|s|);
  }

  /** Shift, then length bytes: the content is prefix, length, block. */
  lemma Shifted(was: seq<Byte>, moved: seq<Byte>, now: seq<Byte>, at: nat, plen: nat, enc: seq<Byte>)
    requires |was| == |moved| == |now| && |enc| >= 1 && at + |enc| + plen <= |was|
    requires forall j :: 0 <= j <= at ==> moved[j] == was[j]
    requires forall j :: at + |enc| <= j < at + |enc| + plen ==> moved[j] == was[j - |enc| + 1]
    requires forall j :: 0 <= j < |now| ==> now[j] == if at <= j < at + |enc| then enc[j - at] else moved[j]
    ensures now[..at + |enc| + plen] == was[..at + 1 + plen][..at] + enc + was[..at + 1 + plen][at + 1..]
  {
    var l, r := now[..at + |enc| + plen], was[..at + 1 + plen][..at] + enc + was[..at + 1 + plen][at + 1..];
    assert |l| == |r|;
    forall j | 0 <= j < |l| ensures l[j] == r[j] {
      if j >= at + |enc| { assert r[j] == was[..at + 1 + plen][at + 1..][j - at - |enc|] == was[j - |enc| + 1]; }
    }
  }

  lemma Assoc(a: seq<Byte>, b: seq<Byte>, c: seq<Byte>)
    ensures (a + b) + c == a + (b + c)
  {
  }

  /** Appending the sections one after the other appends the block. */
  lemma BlockAppended(c: seq<Byte>, p: Props)
    ensures c + LeadingBytes(p) + ResponseBytes(p.response) + CorrelationBytes(p.correlation)
            + UserBytes(p.user) + ContentTypeBytes(p.contentType) == c + PropBlock(p)
    ensures |PropBlock(p)| == |LeadingBytes(p)| + |ResponseBytes(p.response)| + |CorrelationBytes(p.correlation)|
                              + |UserBytes(p.user)| + |ContentTypeBytes(p.contentType)|
  {
    hide FormatBytes, ExpiryBytes, AliasBytes, ResponseBytes, CorrelationBytes, UserBytes, ContentTypeBytes;
    var f, e, a := FormatBytes(p.format), ExpiryBytes(p.expiry), AliasBytes(p.alias);
    var r, o := ResponseBytes(p.response), CorrelationBytes(p.correlation);
    var u, t := UserBytes(p.user), ContentTypeBytes(p.contentType);
    Assoc(c, f, e + (a + (r + (o + (u + t)))));
    Assoc(c + f, e, a + (r + (o + (u + t))));
    Assoc(c + f + e, a, r + (o + (u + t)));
    Assoc(c + f + e + a, r, o + (u + t));
    Assoc(c + f + e + a + r, o, u + t);
    Assoc(c + f + e + a + r + o, u, t);
    Assoc(c, f + e, a);
    Assoc(c, f, e);
  }

  function LeadingBytes(p: Props): (s: seq<Byte>) {
    FormatBytes(p.format) + ExpiryBytes(p.expiry) + AliasBytes(p.alias)
  }

  /** The numeric sections as append_property calls. */
  lemma LeadingSections(p: Props)
    ensures FormatBytes(p.format) == if p.format then PropertyBytes(1, 1, None, 1) else []
    ensures ExpiryBytes(p.expiry) == if p.expiry > 0 then PropertyBytes(2, 4, None, p.expiry) else []
    ensures AliasBytes(p.alias) == if p.alias > 0 then PropertyBytes(0x23, 2, None, p.alias) else []
  {
    hide Be;
    BeWidths(1);
    BeWidths(p.expiry);
    BeWidths(p.alias);
  }

  /** The string sections as append_property calls. */
  lemma StringSections(p: Props)
    ensures var t := if p.response.Some? then p.response.value else [];
            ResponseBytes(p.response) == if p.response.Some? then PropertyBytes(8, 2, Some(t), |t|) else []
    ensures CorrelationBytes(p.correlation) ==
            if p.correlation != [] then PropertyBytes(9, 2, Some(p.correlation), |p.correlation|) else []
    ensures var t := if p.contentType.Some? then p.contentType.value else [];
            ContentTypeBytes(p.contentType) == if p.contentType.Some? then PropertyBytes(3, 2, Some(t), |t|) else []
  {
    hide PropertyBytes;
    if p.response.Some? { StringProperty(8, p.response.value); }
    StringProperty(9, p.correlation);
    if p.contentType.Some? { StringProperty(3, p.contentType.value); }
  }

  /** What the publish loop puts on the wire: the composed message, then the caller's
      data from the position the loop believes it has reached. None: that position
      lies before the data. */
  function Wire(message: seq<Byte>, data: seq<Byte>, sent: int): (w: Option<seq<Byte>>) {
    if sent >= |data| then Some(message)
    else if sent < 0 then None
    else Some(message + data[sent..])
  }

  class Connection {
    const buffer: array<Byte>
    var length: nat          // outbound_message.length
    var start: nat           // outbound_message.data - buffer
    var fragTotal: nat       // fragmented_msg_total_length
    var fragOffset: int      // fragmented_msg_data_offset
    var lastId: nat          // last_message_id

    ghost predicate Valid()
      reads this
    {
      buffer.Length >= MAX_FIXED_HEADER && lastId < 65536 && (fragTotal == 0 || fragTotal >= MAX_FIXED_HEADER)
    }

    /** The bytes composed so far, from the start of the buffer. */
    ghost function Content(): (s: seq<Byte>)
      requires length <= buffer.Length
      reads this, buffer
    {
      buffer[..length]
    }

    /** The finished message. */
    ghost function Message(): (s: seq<Byte>)
      requires start + length <= buffer.Length
      reads this, buffer
    {
      buffer[start..start + length]
    }

    constructor (size: nat)
      requires size >= MAX_FIXED_HEADER
      ensures Valid() && fresh(buffer) && buffer.Length == size
      ensures length == 0 && start == 0 && fragTotal == 0 && fragOffset == 0 && lastId == 0
    {
      buffer := new Byte[size];
      length, start, fragTotal, fragOffset, lastId := 0, 0, 0, 0, 0;
    }

    /** memcpy to the end of the content. */
    method Append(s: seq<Byte>)
      requires length + |s| <= buffer.Length
      modifies this`length, buffer
      ensures length == old(length) + |s|
      ensures Content() == old(Content()) + s
    {
      forall i | 0 <= i < |s| { buffer[length + i] := s[i]; }
      length := length + |s|;
    }

    method AppendString(s: seq<Byte>) returns (ok: bool)
      requires length <= buffer.Length
      modifies this`length, buffer
      ensures ok == (old(length) + |s| + 2 <= buffer.Length)
      ensures length == old(length) + (if ok then |Str(s)| else 0)
      ensures Content() == old(Content()) + (if ok then Str(s) else [])
    {
      if length + |s| + 2 > buffer.Length { return false; }
      Append(Be16(|s|));
      Append(s);
      return true;
    }

    /** Zero asks for a new identifier; zero is also the answer when there is no room. */
    method AppendMessageId(given: nat) returns (id: nat)
      requires Valid() && length <= buffer.Length && given < 65536
      modifies this`length, this`lastId, buffer
      ensures Valid()
      ensures lastId == if given == 0 then NextId(old(lastId)) else old(lastId)
      ensures id == if old(length) + 2 > buffer.Length then 0 else if given == 0 then lastId else given
      ensures length == old(length) + (if id == 0 then 0 else 2)
      ensures Content() == old(Content()) + (if id == 0 then [] else Be16(id))
    {
      id := given;
      while id == 0
        modifies this`lastId
        invariant id == 0 ==> given == 0 && (lastId == old(lastId) || (old(lastId) == 65535 && lastId == 0))
        invariant id != 0 ==> id == (if given == 0 then lastId else given)
                              && lastId == (if given == 0 then NextId(old(lastId)) else old(lastId))
        invariant lastId < 65536
        decreases if id != 0 then 0
                  else 65536 - lastId + (if lastId == old(lastId) && lastId == 65535 then 65536 else 0)
      {
        lastId := (lastId + 1) % 65536;
        id := lastId;
      }
      if length + 2 > buffer.Length { return 0; }
      Append(Be16(id));
    }

    method FailMessage()
      modifies this`length, this`start
      ensures length == 0 && start == 0
    {
      length, start := 0, 0;
    }

    /** fini_message: the fixed header goes right in front of the body. The remaining
        length counts the whole packet when it is fragmented. */
    method FiniMessage(msgType: nat, dup: nat, qos: nat, retain: nat)
      requires Valid() && MAX_FIXED_HEADER <= length <= buffer.Length
      requires (if fragTotal != 0 then fragTotal else length) - MAX_FIXED_HEADER < MAX_VARINT
      modifies this`length, this`start, this`fragOffset, buffer
      ensures Valid()
      ensures var total := (if fragTotal != 0 then fragTotal else old(length)) - MAX_FIXED_HEADER;
              && start == 4 - |Varint(total)|
              && start + length == old(length)
              && Message() == [FirstByte(msgType, dup, qos, retain)] + Varint(total)
                   + old(Content())[MAX_FIXED_HEADER..]
      ensures fragOffset == old(fragOffset) - start
    {
      var messageLength := length - MAX_FIXED_HEADER;
      var total := if fragTotal != 0 then fragTotal - MAX_FIXED_HEADER else messageLength;
      var encoded := GenerateVariableLen(total);
      VarintAtMostFour(total);
      length := messageLength + |encoded| + 1;
      var offs := MAX_FIXED_HEADER - 1 - |encoded|;
      start := offs;
      fragOffset := fragOffset - offs;
      PutHeader(offs, FirstByte(msgType, dup, qos, retain), encoded, MAX_FIXED_HEADER + messageLength);
    }

    /** First byte and length bytes right before the body, which ends at `end`. */
    method PutHeader(offs: nat, first: Byte, encoded: seq<Byte>, end: nat)
      requires offs + 1 + |encoded| == MAX_FIXED_HEADER <= end <= buffer.Length
      modifies buffer
      ensures buffer[offs..end] == [first] + encoded + old(buffer[MAX_FIXED_HEADER..end])
    {
      buffer[offs] := first;
      forall j | 0 <= j < |encoded| { buffer[offs + 1 + j] := encoded[j]; }
      assert buffer[offs + 1..MAX_FIXED_HEADER] == encoded;
      assert buffer[MAX_FIXED_HEADER..end] == old(buffer[MAX_FIXED_HEADER..end]);
      assert buffer[offs..end] == [buffer[offs]] + buffer[offs + 1..MAX_FIXED_HEADER] + buffer[MAX_FIXED_HEADER..end];
    }

    // ------------------------------------------------------------ MQTT 3.1.1 PUBLISH

    /** What both PUBLISH encoders leave behind: `p` is the packet an unbounded buffer
        would hold, `h` the position in the buffer where the payload starts, `entry`
        the fragment offset found on entry. A packet that fits is complete; otherwise
        the buffer is full and holds a prefix of it. */
    ghost predicate Composed(p: seq<Byte>, data: seq<Byte>, h: nat, entry: int)
      reads this, buffer
    {
      && Valid() && 0 < length && start < MAX_FIXED_HEADER && start + length <= buffer.Length && h <= buffer.Length
      && if h + |data| <= buffer.Length
         then Message() == p && start + length == h + |data| && fragOffset == entry - start
         else start + length == buffer.Length && fragOffset == h - start
              && length <= |p| && Message() == p[..length] && p[length..] == data[buffer.Length - h..]
    }

    /** Topic and identifier behind the room left for the fixed header; `bad` is the
        test for missing data that sits between the two. */
    method ComposeVarHeader(topic: seq<Byte>, bad: bool, qos: nat) returns (ok: bool, id: nat)
      requires Valid()
      modifies this`length, this`lastId, buffer
      ensures Valid()
      ensures ok <==> !bad && 7 + |topic| + (if qos > 0 then 2 else 0) <= buffer.Length
      ensures ok ==> id == (if qos > 0 then NextId(old(lastId)) else 0)
      ensures ok ==> length == MAX_FIXED_HEADER + |VarHeader(topic, qos, id)| <= buffer.Length
                     && Content()[MAX_FIXED_HEADER..] == VarHeader(topic, qos, id)
    {
      id := 0;
      length := MAX_FIXED_HEADER;
      ok := AppendString(topic);
      if !ok || bad { return false, 0; }
      if qos > 0 {
        id := AppendMessageId(0);
        ok := id != 0;
      }
    }

    /** The remaining length written decides whether the bytes are the packet. */
    static lemma NullPublish(first: Byte, n: nat, head: seq<Byte>)
      requires n < MAX_VARINT && |head| < MAX_VARINT
      ensures [first] + Varint(n) + head == Packet(first, head + []) <==> n == |head|
    {
      hide Varint;
      assert head + [] == head;
      VarintTells(n, |head|, head);
      Assoc([first], Varint(n), head);
      Assoc([first], Varint(|head|), head);
      SameTail([first], Varint(n) + head, Varint(|head|) + head);
    }

    static lemma SameTail(a: seq<Byte>, b: seq<Byte>, c: seq<Byte>)
      ensures a + b == a + c <==> b == c
    {
      assert (a + b)[|a|..] == b && (a + c)[|a|..] == c;
    }

    /** mqtt_msg_publish. `data` None is the null pointer. */
    method MsgPublish(topic: seq<Byte>, data: Option<seq<Byte>>, dataLength: nat, qos: nat, retain: nat)
      returns (id: nat)
      requires Valid() && (data.Some? ==> |data.value| == dataLength)
      requires 4 + |topic| + dataLength < MAX_VARINT && fragTotal < MAX_VARINT
      modifies this, buffer
      ensures Valid()
      ensures length == 0 <==> topic == [] || 7 + |topic| + (if qos > 0 then 2 else 0) > buffer.Length
                               || (data.None? && dataLength > 0)
      ensures length != 0 ==> id == (if qos > 0 then NextId(old(lastId)) else 0)
      ensures length != 0 && data.Some? ==>
                var p := Publish(topic, data.value, 0, qos, retain, id);
                var h := MAX_FIXED_HEADER + |VarHeader(topic, qos, id)|;
                && Composed(p, data.value, h, old(fragOffset))
                && fragTotal == (if h + dataLength > buffer.Length then h + dataLength else 0)
      ensures length != 0 && data.None? ==>
                var h := MAX_FIXED_HEADER + |VarHeader(topic, qos, id)|;
                && fragTotal == old(fragTotal) && start + length == h <= buffer.Length
                && Message() == [FirstByte(PUBLISH, 0, qos, retain)]
                                + Varint((if fragTotal != 0 then fragTotal else h) - MAX_FIXED_HEADER)
                                    + VarHeader(topic, qos, id)
                && (Message() == Publish(topic, [], 0, qos, retain, id) <==> fragTotal == 0 || fragTotal == h)
    {
      hide Varint, FirstByte, VarHeader;
      if topic == [] { FailMessage(); return 0; }
      var ok;
      ok, id := ComposeVarHeader(topic, data.None? && dataLength > 0, qos);
      if !ok { FailMessage(); return; }
      ghost var vh := VarHeader(topic, qos, id);
      if data.Some? {
        FinishPublish(data.value, qos, retain, vh);
      } else {
        FiniMessage(PUBLISH, 0, qos, retain);
        var f := FirstByte(PUBLISH, 0, qos, retain);
        NullPublish(f, (if fragTotal != 0 then fragTotal - MAX_FIXED_HEADER else |vh|), vh);
      }
    }

    /** mqtt_msg_pingreq: it counts the total an earlier call left as well. */
    method MsgPingreq()
      requires Valid() && fragTotal < MAX_VARINT
      modifies this`length, this`start, this`fragOffset, buffer
      ensures Valid() && start + length == MAX_FIXED_HEADER
      ensures Message() == Packet(FirstByte(PINGREQ, 0, 0, 0), []) <==>
              fragTotal == 0 || fragTotal == MAX_FIXED_HEADER
    {
      hide Varint, FirstByte;
      length := MAX_FIXED_HEADER;
      FiniMessage(PINGREQ, 0, 0, 0);
      var f := FirstByte(PINGREQ, 0, 0, 0);
      var n := if fragTotal != 0 then fragTotal - MAX_FIXED_HEADER else 0;
      NullPublish(f, n, []);
      assert Message() == [f] + Varint(n) + [];
      assert Packet(f, [] + []) == Packet(f, []);
    }

    /** The payload, cut where the buffer ends. */
    method AppendPayload(data: seq<Byte>)
      requires Valid() && MAX_FIXED_HEADER <= length <= buffer.Length
      modifies this`length, this`fragTotal, this`fragOffset, buffer
      ensures Valid() && length <= buffer.Length
      ensures var h := old(length);
              if h + |data| > buffer.Length
              then fragTotal == h + |data| && fragOffset == h && length == buffer.Length
                   && Content() == old(Content()) + data[..buffer.Length - h]
              else fragTotal == 0 && fragOffset == old(fragOffset) && length == h + |data|
                   && Content() == old(Content()) + data
    {
      if length + |data| > buffer.Length {
        fragOffset := length;
        fragTotal := |data| + fragOffset;
        Append(data[..buffer.Length - length]);
      } else {
        Append(data);
        fragTotal := 0;
      }
    }

    /** Payload and fixed header behind a finished variable header `head`. */
    method FinishPublish(data: seq<Byte>, qos: nat, retain: nat, ghost head: seq<Byte>)
      requires Valid() && length == MAX_FIXED_HEADER + |head| <= buffer.Length
      requires Content()[MAX_FIXED_HEADER..] == head && |head| + |data| < MAX_VARINT
      modifies this`length, this`start, this`fragTotal, this`fragOffset, buffer
      ensures Composed(Packet(FirstByte(PUBLISH, 0, qos, retain), head + data), data, MAX_FIXED_HEADER + |head|,
              old(fragOffset))
      ensures var h := MAX_FIXED_HEADER + |head|;
              fragTotal == (if h + |data| > buffer.Length then h + |data| else 0)
    {
      hide Varint, FirstByte;
      AppendPayload(data);
      ghost var content := Content();
      FiniMessage(PUBLISH, 0, qos, retain);
      ComposedPacket(FirstByte(PUBLISH, 0, qos, retain), content, head, data, old(fragOffset));
    }

    /** Header and body put together give the packet, or its prefix. */
    lemma ComposedPacket(first: Byte, content: seq<Byte>, head: seq<Byte>, data: seq<Byte>, entry: int)
      requires Valid() && MAX_FIXED_HEADER <= |content| == start + length <= buffer.Length
      requires var h := MAX_FIXED_HEADER + |head|;
               && h <= buffer.Length
               && fragTotal == (if h + |data| > buffer.Length then h + |data| else 0)
               && content[MAX_FIXED_HEADER..] == head + (if fragTotal == 0 then data else data[..buffer.Length - h])
               && fragOffset == (if fragTotal == 0 then entry else h) - start
      requires var total := |head| + |data|;
               && start == 4 - |Varint(total)|
               && Message() == [first] + Varint(total) + content[MAX_FIXED_HEADER..]
      ensures Composed(Packet(first, head + data), data, MAX_FIXED_HEADER + |head|, entry)
    {
      hide Varint;
      var p := Packet(first, head + data);
      var pre := [first] + Varint(|head| + |data|);
      assert p == pre + (head + data);
      if fragTotal != 0 {
        var m := buffer.Length - MAX_FIXED_HEADER - |head|;
        assert Message() == pre + (head + data[..m]);
        assert data == data[..m] + data[m..];
        assert p == Message() + data[m..];
      }
    }

    // ------------------------------------------------------------ MQTT 5.0 PUBLISH

    /** `s` was appended to `before`, or did not fit. */
    ghost predicate Extended(ok: bool, before: seq<Byte>, s: seq<Byte>)
      reads this, buffer
    {
      && (ok <==> |before| + |s| <= buffer.Length)
      && (ok ==> length == |before| + |s| && Content() == before + s)
    }

    /** A number of the given width, byte by byte. */
    method AppendNumber(n: nat, width: nat)
      requires length + width <= buffer.Length
      modifies this`length, buffer
      ensures length == old(length) + width
      ensures Content() == old(Content()) + Be(n, width)
    {
      ghost var head := Content();
      for i := 1 to width + 1
        invariant length == |head| + i - 1 && |head| + width <= buffer.Length
        invariant Content() == head + Be(n, width)[..i - 1]
      {
        Append([n / Pow256(width - i) % 256]);
        assert Be(n, width)[..i] == Be(n, width)[..i - 1] + [Be(n, width)[i - 1]];
      }
      assert Be(n, width)[..width] == Be(n, width);
    }

    /** append_property for a nonzero width. */
    method AppendProperty(propertyType: Byte, width: nat, data: Option<seq<Byte>>, n: nat) returns (ok: bool)
      requires length <= buffer.Length
      modifies this`length, buffer
      ensures Extended(ok, old(Content()), PropertyBytes(propertyType, width, data, n))
    {
      hide Be;
      if length + width + (if data.Some? then |data.value| else 0)
          + (if propertyType > 0 then 1 else 0) > buffer.Length {
        return false;
      }
      if propertyType > 0 { Append([propertyType]); }
      AppendNumber(n, width);
      if data.Some? { Append(data.value); }
      return true;
    }

    method AppendOptional(present: bool, propertyType: Byte, width: nat, data: Option<seq<Byte>>, n: nat)
        returns (ok: bool)
      requires length <= buffer.Length
      modifies this`length, buffer
      ensures Extended(ok, old(Content()), if present then PropertyBytes(propertyType, width, data, n) else [])
    {
      if present {
        ok := AppendProperty(propertyType, width, data, n);
      } else {
        assert Content() + [] == Content();
        ok := true;
      }
    }

    /** The backward copy: `count` bytes ending at `last` move up by `offset`. */
    method ShiftUp(last: nat, count: nat, offset: nat)
      requires count <= last && last + offset < buffer.Length && offset > 0
      modifies buffer
      ensures forall j :: 0 <= j <= last - count ==> buffer[j] == old(buffer[..])[j]
      ensures forall j :: last - count + offset < j <= last + offset ==> buffer[j] == old(buffer[..])[j - offset]
    {
      ghost var was := buffer[..];
      var at := last;
      for i := 0 to count
        invariant at == last - i
        invariant forall j :: at + offset < j <= last + offset ==> buffer[j] == was[j - offset]
        invariant forall j :: 0 <= j <= at ==> buffer[j] == was[j]
      {
        buffer[at + offset] := buffer[at];
        at := at - 1;
      }
    }

    /** update_property_len_value: the block moves up, last byte first, when its length
        needs more than the one byte reserved at `at`. */
    method UpdatePropertyLen(plen: nat, at: nat) returns (ok: bool)
      requires length == at + 1 + plen <= buffer.Length && plen < MAX_VARINT
      modifies this`length, buffer
      ensures ok <==> old(length) + |Varint(plen)| - 1 <= buffer.Length
      ensures ok ==> length == old(length) + |Varint(plen)| - 1
                     && Content() == old(Content())[..at] + Varint(plen) + old(Content())[at + 1..]
    {
      hide Varint;
      var encoded := GenerateVariableLen(plen);
      var offset := |encoded| - 1;
      length := length + offset;
      if length > buffer.Length { return false; }
      MoveBlock(plen, at, encoded);
      return true;
    }

    /** The shift, then the length bytes. */
    method MoveBlock(plen: nat, at: nat, encoded: seq<Byte>)
      requires |encoded| >= 1 && at + |encoded| + plen <= buffer.Length
      modifies buffer
      ensures buffer[..at + |encoded| + plen] ==
              old(buffer[..at + 1 + plen])[..at] + encoded + old(buffer[..at + 1 + plen])[at + 1..]
    {
      ghost var was := buffer[..];
      if |encoded| > 1 {
        ShiftUp(at + plen, plen, |encoded| - 1);
      }
      ghost var moved := buffer[..];
      PutBytes(at, encoded);
      Shifted(was, moved, buffer[..], at, plen, encoded);
      assert was[..at + 1 + plen] == old(buffer[..at + 1 + plen]);
      assert buffer[..][..at + |encoded| + plen] == buffer[..at + |encoded| + plen];
    }

    method PutBytes(at: nat, s: seq<Byte>)
      requires at + |s| <= buffer.Length
      modifies buffer
      ensures forall j :: 0 <= j < buffer.Length ==>
                buffer[j] == if at <= j < at + |s| then s[j - at] else old(buffer[..])[j]
    {
      for i := 0 to |s|
        invariant forall j :: 0 <= j < buffer.Length ==>
                    buffer[j] == if at <= j < at + i then s[j - at] else old(buffer[..])[j]
      {
        buffer[at + i] := s[i];
      }
    }

    method AppendLeadingProps(props: Props) returns (ok: bool)
      requires length <= buffer.Length
      modifies this`length, buffer
      ensures Extended(ok, old(Content()), LeadingBytes(props))
    {
      hide PropertyBytes, FormatBytes, ExpiryBytes, AliasBytes;
      LeadingSections(props);
      ghost var c := Content();
      ghost var s1, s2, s3 := FormatBytes(props.format), ExpiryBytes(props.expiry), AliasBytes(props.alias);
      ok := AppendOptional(props.format, 1, 1, None, 1);
      if !ok { return; }
      ok := AppendOptional(props.expiry > 0, 2, 4, None, props.expiry);
      if !ok { return; }
      ok := AppendOptional(props.alias > 0, 0x23, 2, None, props.alias);
      assert c + s1 + s2 + s3 == c + (s1 + s2 + s3);
    }

    method AppendUserProps(user: seq<UserProperty>) returns (ok: bool)
      requires length <= buffer.Length
      modifies this`length, buffer
      ensures Extended(ok, old(Content()), UserBytes(user))
    {
      hide PropertyBytes, UserBytes;
      ghost var c := Content();
      UserBytesNil();
      assert c + UserBytes([]) == c;
      assert user[..0] == [];
      for i := 0 to |user|
        invariant length == |c| + |UserBytes(user[..i])| <= buffer.Length
        invariant Content() == c + UserBytes(user[..i])
      {
        ghost var k, v := Str(user[i].0), Str(user[i].1);
        StringProperty(0x26, user[i].0);
        StringProperty(0x26, user[i].1);
        UserBytesSnoc(user[..i], user[i]);
        UserBytesPrefix(user, i + 1);
        assert user[..i + 1] == user[..i] + [user[i]];
        ok := AppendProperty(0x26, 2, Some(user[i].0), |user[i].0|);
        if !ok { return; }
        ok := AppendProperty(0, 2, Some(user[i].1), |user[i].1|);
        if !ok { return; }
        assert (c + UserBytes(user[..i])) + ([0x26] + k) + v == c + (UserBytes(user[..i]) + [0x26] + k + v);
      }
      assert user[..|user|] == user;
      return true;
    }

    /** The property section of mqtt5_msg_publish. */
    method AppendProps(props: Props) returns (ok: bool)
      requires length <= buffer.Length
      modifies this`length, buffer
      ensures Extended(ok, old(Content()), PropBlock(props))
    {
      hide LeadingBytes, UserBytes, PropertyBytes, ResponseBytes, CorrelationBytes, ContentTypeBytes, PropBlock;
      ghost var c := Content();
      var response := if props.response.Some? then props.response.value else [];
      var contentType := if props.contentType.Some? then props.contentType.value else [];
      StringSections(props);
      BlockAppended(c, props);
      ok := AppendLeadingProps(props);
      if !ok { return; }
      ok := AppendOptional(props.response.Some?, 8, 2, Some(response), |response|);
      if !ok { return; }
      ok := AppendOptional(props.correlation != [], 9, 2, Some(props.correlation), |props.correlation|);
      if !ok { return; }
      ok := AppendUserProps(props.user);
      if !ok { return; }
      ok := AppendOptional(props.contentType.Some?, 3, 2, Some(contentType), |contentType|);
    }

    /** mqtt5_msg_publish with an empty response information. */
    method MsgPublish5(topic: seq<Byte>, data: Option<seq<Byte>>, dataLength: nat, qos: nat, retain: nat,
        props: Option<Props>)
      returns (id: nat)
      requires Valid() && (data.Some? ==> |data.value| == dataLength)
      requires buffer.Length + dataLength < MAX_VARINT && (props.Some? ==> props.value.subscribeId == 0)
      modifies this, buffer
      ensures Valid()
      ensures length != 0 ==> id == (if qos > 0 then NextId(old(lastId)) else 0)
      ensures length == 0 <==>
                || (topic == [] && PropsOr(props).alias == 0) || (data.None? && dataLength > 0)
                || MAX_FIXED_HEADER + |Head5(topic, qos, 0, PropsOr(props))| > buffer.Length
      ensures length != 0 ==>
                var h := MAX_FIXED_HEADER + |Head5(topic, qos, id, PropsOr(props))|;
                && Composed(Packet5(topic, DataBytes(data), qos, retain, id, PropsOr(props)), DataBytes(data), h,
                     old(fragOffset))
                && fragTotal == (if h + dataLength > buffer.Length then h + dataLength else 0)
    {
      hide Varint, FirstByte, VarHeader, PropBlock, Head5, PropsOr;
      var pr := PropsOr(props);
      var d := DataBytes(data);
      if topic == [] && pr.alias == 0 { FailMessage(); return 0; }
      var ok;
      ok, id := ComposeHead5(topic, data.None? && dataLength > 0, qos, pr);
      if !ok { FailMessage(); return; }
      FinishPublish(d, qos, retain, Head5(topic, qos, id, pr));
    }

    /** Variable header and property section behind the room for the fixed header. */
    method ComposeHead5(topic: seq<Byte>, bad: bool, qos: nat, pr: Props) returns (ok: bool, id: nat)
      requires Valid() && buffer.Length < MAX_VARINT
      modifies this`length, this`lastId, buffer
      ensures Valid()
      ensures ok <==> !bad && MAX_FIXED_HEADER + |Head5(topic, qos, 0, pr)| <= buffer.Length
      ensures ok ==> id == (if qos > 0 then NextId(old(lastId)) else 0)
      ensures ok ==> length == MAX_FIXED_HEADER + |Head5(topic, qos, id, pr)| <= buffer.Length
                     && Content()[MAX_FIXED_HEADER..] == Head5(topic, qos, id, pr)
    {
      hide Varint, VarHeader, PropBlock;
      VarHeaderLength(topic, qos, 0);
      ok, id := ComposeVarHeader(topic, bad, qos);
      if !ok { return; }
      VarHeaderLength(topic, qos, id);
      ghost var c := Content();
      ok := ComposeProps(pr);
      if ok {
        assert Content()[MAX_FIXED_HEADER..] == c[MAX_FIXED_HEADER..] + (Varint(|PropBlock(pr)|) + PropBlock(pr));
      }
    }

    /** Placeholder, properties, and the length put in place. */
    method ComposeProps(pr: Props) returns (ok: bool)
      requires length <= buffer.Length < MAX_VARINT
      modifies this`length, buffer
      ensures Extended(ok, old(Content()), Varint(|PropBlock(pr)|) + PropBlock(pr))
    {
      hide Varint, PropBlock;
      var at := length;
      // With no room for the placeholder every later check fails as well.
      if length + 1 > buffer.Length { return false; }
      ghost var before := Content();
      length := length + 1;
      ghost var reserved := Content();
      assert reserved[..at] == before;
      ok := AppendProps(pr);
      if !ok { return; }
      assert Content()[..at] == before && Content()[at + 1..] == PropBlock(pr);
      ok := UpdatePropertyLen(length - at - 1, at);
    }

    // ------------------------------------------------------------ storing and writing

    /** mqtt_client_enqueue_publish: the bytes that go to the outbox. */
    method StoreComposed(data: seq<Byte>, ghost p: seq<Byte>, ghost h: nat, ghost entry: int)
        returns (stored: seq<Byte>)
      requires Composed(p, data, h, entry)
      requires fragTotal == (if h + |data| > buffer.Length then h + |data| else 0)
      modifies this`fragTotal
      ensures stored == p
      ensures Composed(p, data, h, entry) && fragTotal == 0
    {
      if fragTotal == 0 {
        stored := buffer[start..start + length];
      } else {
        var firstFragment := length - fragOffset;
        stored := buffer[start..start + length] + data[firstFragment..];
        fragTotal := 0;
      }
    }

    /** The memcpy of the next part of the payload into the buffer. */
    method LoadChunk(data: seq<Byte>, from: nat, n: nat)
      requires n <= buffer.Length && from + n <= |data|
      modifies this`length, this`start, buffer
      ensures start == 0 && length == n && buffer[..n] == data[from..from + n]
    {
      forall i | 0 <= i < n { buffer[i] := data[from + i]; }
      start, length := 0, n;
    }

    static lemma SliceGrows(data: seq<Byte>, from: int, at: nat, n: nat)
      requires at + n <= |data|
      ensures 0 <= from <= at ==> data[from..at + n] == data[from..at] + data[at..at + n]
    {
    }

    /** The write loop of esp_mqtt_client_publish, every write succeeding. None: the
        loop reads before the start of the caller's data. */
    method WriteLoop(data: seq<Byte>) returns (wire: Option<seq<Byte>>)
      requires Valid() && start + length <= buffer.Length
      modifies this`length, this`start, this`fragTotal, this`fragOffset, buffer
      ensures wire == Wire(old(Message()), data, old(length) - old(fragOffset))
      ensures Valid() && fragOffset == 0 && fragTotal == 0
    {
      ghost var message := Message();
      ghost var sent := length - fragOffset;
      var written := buffer[start..start + length];
      var dataSent := length - fragOffset;
      fragOffset, fragTotal := 0, 0;
      var remaining := |data| - dataSent;
      var current := dataSent;
      hide Written;
      WrittenStart(message, data, sent);
      while remaining > 0
        invariant Valid() && fragOffset == 0 && fragTotal == 0
        invariant current + remaining == |data| && Written(message, data, sent, current, written)
        decreases remaining
      {
        if current < 0 {
          WrittenEnd(message, data, sent, current, written);
          return None;
        }
        var writeLen := if remaining > buffer.Length then buffer.Length else remaining;
        LoadChunk(data, current, writeLen);
        WrittenMore(message, data, sent, current, written, writeLen);
        written := written + buffer[start..start + length];
        dataSent := length - fragOffset;
        fragOffset, fragTotal := 0, 0;
        remaining := remaining - dataSent;
        current := current + dataSent;
      }
      WrittenEnd(message, data, sent, current, written);
      return Some(written);
    }

    /** What the loop has written when `current` bytes of the payload count as sent. */
    static ghost predicate Written(message: seq<Byte>, data: seq<Byte>, sent: int, current: int, written: seq<Byte>) {
      && current <= (if sent > |data| then sent else |data|)
      && (current < 0 ==> current == sent)
      && if sent < 0 then current == sent
         else if sent >= |data| then current == sent && written == message
         else sent <= current && written == message + data[sent..current]
    }

    static lemma WrittenStart(message: seq<Byte>, data: seq<Byte>, sent: int)
      ensures Written(message, data, sent, sent, message)
    {
    }

    static lemma WrittenMore(message: seq<Byte>, data: seq<Byte>, sent: int, current: int, written: seq<Byte>, n: nat)
      requires Written(message, data, sent, current, written) && 0 <= current && current + n <= |data| && n > 0
      ensures Written(message, data, sent, current + n, written + data[current..current + n])
    {
      SliceGrows(data, sent, current, n);
    }

    static lemma WrittenEnd(message: seq<Byte>, data: seq<Byte>, sent: int, current: int, written: seq<Byte>)
      requires Written(message, data, sent, current, written) && (current < 0 || current >= |data|)
      ensures Wire(message, data, sent) == if current < 0 then None else Some(written)
    {
      if 0 <= sent < |data| { assert current == |data| && data[sent..|data|] == data[sent..]; }
    }

    /** Publishing a composed packet while connected. The stored copy is always the
        packet; the wire carries exactly the packet if and only if the packet is
        fragmented or the fragment offset found on entry is not beyond its header. */
    method SendComposed(data: seq<Byte>, store: bool, ghost p: seq<Byte>, ghost h: nat, ghost entry: int)
      returns (stored: Option<seq<Byte>>, wire: Option<seq<Byte>>)
      requires Composed(p, data, h, entry)
      requires fragTotal == (if h + |data| > buffer.Length then h + |data| else 0)
      modifies this`length, this`start, this`fragTotal, this`fragOffset, buffer
      ensures stored == if store then Some(p) else None
      ensures wire == Some(p) <==> h + |data| > buffer.Length || entry <= h
      ensures Valid() && fragOffset == 0 && fragTotal == 0
    {
      stored := None;
      if store {
        var bytes := StoreComposed(data, p, h, entry);
        stored := Some(bytes);
      }
      ghost var message := Message();
      ghost var sent := length - fragOffset;
      wire := WriteLoop(data);
      if h + |data| > buffer.Length {
        assert sent == buffer.Length - h;
        assert message + data[sent..] == p;
      } else if 0 <= sent < |data| {
        assert |message + data[sent..]| > |p|;
      }
    }
  }

  /** esp_mqtt_client_publish over MQTT 3.1.1 while connected, every write succeeding:
      compose, store above QoS 0, write. */
  method PublishConnected(c: Connection, topic: seq<Byte>, data: seq<Byte>, qos: nat, retain: nat)
    returns (id: nat, stored: Option<seq<Byte>>, wire: Option<seq<Byte>>)
    requires c.Valid() && topic != [] && 7 + |topic| + (if qos > 0 then 2 else 0) <= c.buffer.Length
    requires 4 + |topic| + |data| < MAX_VARINT && c.fragTotal < MAX_VARINT
    modifies c, c.buffer
    ensures c.Valid() && c.fragOffset == 0 && c.fragTotal == 0
    ensures id == if qos > 0 then NextId(old(c.lastId)) else 0
    ensures var p := Publish(topic, data, 0, qos, retain, id);
            var h := MAX_FIXED_HEADER + |VarHeader(topic, qos, id)|;
            && stored == (if qos > 0 then Some(p) else None)
            && (wire == Some(p) <==> h + |data| > c.buffer.Length || old(c.fragOffset) <= h)
  {
    hide VarHeader, Publish;
    VarHeaderLength(topic, qos, 0);
    ghost var entry := c.fragOffset;
    id := c.MsgPublish(topic, Some(data), |data|, qos, retain);
    stored, wire := c.SendComposed(data, qos > 0, Publish(topic, data, 0, qos, retain, id),
                                   MAX_FIXED_HEADER + |VarHeader(topic, qos, id)|, entry);
  }

  /** The same over MQTT 5.0, where a topic alias can stand in for the topic. */
  method PublishConnected5(c: Connection, topic: seq<Byte>, data: seq<Byte>, qos: nat, retain: nat,
      props: Option<Props>)
    returns (id: nat, stored: Option<seq<Byte>>, wire: Option<seq<Byte>>)
    requires c.Valid() && (topic != [] || PropsOr(props).alias > 0)
    requires MAX_FIXED_HEADER + |Head5(topic, qos, 0, PropsOr(props))| <= c.buffer.Length
    requires c.buffer.Length + |data| < MAX_VARINT && (props.Some? ==> props.value.subscribeId == 0)
    modifies c, c.buffer
    ensures c.Valid() && c.fragOffset == 0 && c.fragTotal == 0
    ensures id == if qos > 0 then NextId(old(c.lastId)) else 0
    ensures var p := Packet5(topic, data, qos, retain, id, PropsOr(props));
            var h := MAX_FIXED_HEADER + |Head5(topic, qos, id, PropsOr(props))|;
            && stored == (if qos > 0 then Some(p) else None)
            && (wire == Some(p) <==> h + |data| > c.buffer.Length || old(c.fragOffset) <= h)
  {
    hide Head5, Packet5, PropsOr;
    ghost var entry := c.fragOffset;
    id := c.MsgPublish5(topic, Some(data), |data|, qos, retain, props);
    stored, wire := c.SendComposed(data, qos > 0, Packet5(topic, data, qos, retain, id, PropsOr(props)),
                                   MAX_FIXED_HEADER + |Head5(topic, qos, id, PropsOr(props))|, entry);
  }

  /** The condition can fail: storing a packet larger than the buffer (as
      esp_mqtt_client_enqueue does) leaves a fragment offset behind, and the next small
      publish then writes more than its packet. */
  method LeftoverOffset() returns (id: nat, wire: Option<seq<Byte>>)
    ensures wire != Some(Publish([97], Ones(), 0, 0, 0, id))
  {
    hide Varint, Publish;
    var c := new Connection(64);
    var big := seq(100, _ => 0);
    var longTopic := seq(40, _ => 97);
    VarHeaderLength(longTopic, 0, 0);
    id := c.MsgPublish(longTopic, Some(big), 100, 0, 0);
    var _ := c.StoreComposed(big, Publish(longTopic, big, 0, 0, 0, id), 47, 0);
    assert c.fragOffset >= 43;
    VarHeaderLength([97], 0, 0);
    var stored;
    id, stored, wire := PublishConnected(c, [97], Ones(), 0, 0);
  }

  /** And a null payload after an enqueue at QoS 0 that is not stored: the large packet
      composed there leaves its total behind, and the next header counts it. */
  method LeftoverTotal() returns (id: nat, message: seq<Byte>)
    ensures message != Publish([97], [], 0, 0, 0, id)
  {
    hide Varint, Publish, VarHeader;
    var c := new Connection(64);
    var big := seq(100, _ => 0);
    VarHeaderLength([97], 0, 0);
    id := c.MsgPublish([97], Some(big), 100, 0, 0);
    assert c.fragTotal > 64;
    id := c.MsgPublish([97], None, 0, 0, 0);
    message := c.buffer[c.start..c.start + c.length];
  }

  function Ones(): (s: seq<Byte>)
    ensures |s| == 30
  {
    seq(30, _ => 1)
  }
}
