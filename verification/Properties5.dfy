/** The property block of an MQTT 5.0 PUBLISH (lib/mqtt5_msg.c): what the encoder writes,
    the decoder's loop with its 16-bit offset, when that loop ends, and what it reads from
    any block of properties. */
module Properties5 {
  import opened Bytes

  const MAX_PROPERTY_STRING: nat := 16384

  type UserProperty = (seq<Byte>, seq<Byte>)

  /** Properties of a PUBLISH. Absent is `false`, 0, None or the empty sequence, as
      the C configuration structure has it. */
  datatype Props = Props(
    format: bool,
    expiry: nat,
    alias: nat,
    response: Option<seq<Byte>>,
    correlation: seq<Byte>,
    user: seq<UserProperty>,
    contentType: Option<seq<Byte>>,
    subscribeId: nat)

  const NO_PROPS: Props := Props(false, 0, 0, None, [], [], None, 0)

  // ---------------------------------------------------------------- encoding

  function FormatBytes(on: bool): (b: seq<Byte>) { if on then [1, 1] else [] }
  function ExpiryBytes(n: nat): (b: seq<Byte>) { if n > 0 then [2] + Be32(n) else [] }
  function AliasBytes(n: nat): (b: seq<Byte>) { if n > 0 then [0x23] + Be16(n) else [] }
  function ResponseBytes(t: Option<seq<Byte>>): (b: seq<Byte>) { if t.Some? then [8] + Str(t.value) else [] }
  function CorrelationBytes(d: seq<Byte>): (b: seq<Byte>) { if d != [] then [9] + Str(d) else [] }
  function ContentTypeBytes(t: Option<seq<Byte>>): (b: seq<Byte>) { if t.Some? then [3] + Str(t.value) else [] }

  function UserBytes(user: seq<UserProperty>): (b: seq<Byte>) {
    if user == [] then []
    else [0x26] + Str(user[0].0) + Str(user[0].1) + UserBytes(user[1..])
  }

  lemma {:induction false} UserBytesSnoc(user: seq<UserProperty>, u: UserProperty)
    ensures UserBytes(user + [u]) == UserBytes(user) + [0x26] + Str(u.0) + Str(u.1)
  {
    if user == [] {
      assert user + [u] == [u];
      assert UserBytes([u][1..]) == [];
    } else {
      assert (user + [u])[1..] == user[1..] + [u];
      UserBytesSnoc(user[1..], u);
    }
  }

  /** The properties in the order mqtt5_msg_publish appends them. */
  function PropBlock(p: Props): (b: seq<Byte>) {
    FormatBytes(p.format) + (ExpiryBytes(p.expiry) + (AliasBytes(p.alias) + (ResponseBytes(p.response)
    + (CorrelationBytes(p.correlation) + (UserBytes(p.user) + ContentTypeBytes(p.contentType))))))
  }

  // ---------------------------------------------------------------- decoding

  /** What becomes of a read: a value, the null result, bytes read or pointed at outside
      those given, or a loop that has not ended yet. */
  datatype Outcome<T> = Done(value: T) | Refused | Outside | Running

  /** A string and where the next item starts. */
  datatype Text = Text(bytes: seq<Byte>, next: nat)

  /** One property: where the next one starts and what has been learnt. */
  datatype Read = Read(next: nat, props: Props)

  /** property_offset is 16 bits wide. */
  function Wrap(n: nat): (r: nat)
    ensures r < 65536 && (n < 65536 ==> r == n)
  {
    n % 65536
  }

  /** mqtt5_property_has_bytes. */
  predicate HasBytes(off: nat, needed: nat, plen: nat) {
    off <= plen && needed <= plen - off
  }

  /** A length-prefixed string at `off`; `limited` strings are checked against the
      string limit and the end of the block. */
  function ReadStr(b: seq<Byte>, plen: nat, off: nat, limited: bool): (r: Outcome<Text>)
    requires off < 65536
    ensures !r.Running? && (r.Done? ==> r.value.next < 65536)
  {
    if limited && !HasBytes(off, 2, plen) then Refused
    else if off >= |b| || Wrap(off + 1) >= |b| then Outside
    else
      var n := FromBe16(b[off], b[Wrap(off + 1)]);
      var at := Wrap(off + 2);
      if limited && (n > MAX_PROPERTY_STRING || !HasBytes(at, n, plen)) then Refused
      else if at + n > |b| then Outside
      else Done(Text(b[at..at + n], Wrap(at + n)))
  }

  /** Two strings, key and value. */
  function ReadUser(b: seq<Byte>, plen: nat, off: nat): (r: Outcome<(UserProperty, nat)>)
    requires off < 65536
    ensures !r.Running? && (r.Done? ==> r.value.1 < 65536)
  {
    match ReadStr(b, plen, off, true)
    case Done(k) =>
      (match ReadStr(b, plen, k.next, true)
       case Done(v) => Done(((k.bytes, v.bytes), v.next))
       case Refused => Refused
       case Outside => Outside
       case Running => Running)
    case Refused => Refused
    case Outside => Outside
    case Running => Running
  }

  /** A string property, whatever is made of it. */
  function WithText(t: Outcome<Text>, f: Text -> Props): (r: Outcome<Read>)
    ensures r.Done? ==> t.Done? && r.value == Read(t.value.next, f(t.value))
    ensures r.Running? ==> t.Running?
  {
    match t
    case Done(x) => Done(Read(x.next, f(x)))
    case Refused => Refused
    case Outside => Outside
    case Running => Running
  }

  /** The body of the property loop of mqtt5_get_publish_property_payload, at the
      property whose identifier is `b[off]`. */
  function ReadProperty(b: seq<Byte>, plen: nat, off: nat, acc: Props): (r: Outcome<Read>)
    requires off < |b| && off < plen < 65536
    ensures !r.Running? && (r.Done? ==> r.value.next < 65536)
  {
    var at := off + 1;
    match b[off]
    case 1 =>
      if !HasBytes(at, 1, plen) then Refused
      else if at >= |b| then Outside
      else Done(Read(at + 1, acc.(format := b[at] != 0)))
    case 2 =>
      if !HasBytes(at, 4, plen) then Refused
      else if at + 4 > |b| then Outside
      else Done(Read(at + 4, acc.(expiry := FromBe32(b[at], b[at + 1], b[at + 2], b[at + 3]))))
    case 0x23 =>
      if !HasBytes(at, 2, plen) then Refused
      else if at + 2 > |b| then Outside
      else Done(Read(at + 2, acc.(alias := FromBe16(b[at], b[at + 1]))))
    case 8 => WithText(ReadStr(b, plen, at, true), (t: Text) => acc.(response := Some(t.bytes)))
    case 9 => WithText(ReadStr(b, plen, at, false), (t: Text) => acc.(correlation := t.bytes))
    case 0x0B =>
      var end := if plen <= |b| then plen else |b|;
      var sc := Scan(b[at..end], 4);
      if end < plen && !sc.closed && sc.used < 4 then Outside
      else
        var v := VariableLen(b[at..end]);
        Done(Read(at + v.1, acc.(subscribeId := v.0 % 65536)))
    case 3 => WithText(ReadStr(b, plen, at, false), (t: Text) => acc.(contentType := Some(t.bytes)))
    case 0x26 =>
      (match ReadUser(b, plen, at)
       case Done(u) => Done(Read(u.1, acc.(user := acc.user + [u.0])))
       case Refused => Refused
       case Outside => Outside
       case Running => Running)
    case 0x1F => WithText(ReadStr(b, plen, at, true), (t: Text) => acc)
    case _ => Refused
  }

  /** At most `turns` turns of the property loop from `off`; `b` is the packet from the
      start of the block. The offset can wrap, so the loop need not end. */
  function ReadProps(b: seq<Byte>, plen: nat, off: nat, acc: Props, turns: nat): (r: Outcome<Read>)
    requires plen < 65536 && off < 65536
    ensures r.Done? ==> r.value.next < 65536
    decreases turns
  {
    if off >= plen then Done(Read(off, acc))
    else if turns == 0 then Running
    else if off >= |b| then Outside
    else
      var one := ReadProperty(b, plen, off, acc);
      if one.Done? then ReadProps(b, plen, one.value.next, one.value.props, turns - 1) else one
  }

  /** The whole loop; Running if it never ends. A loop that has not ended after as many
      turns as the block has bytes never does (`EnoughTurns`). */
  function ReadBlock(b: seq<Byte>, plen: nat): (r: Outcome<Read>)
    requires plen < 65536
    ensures r.Done? ==> r.value.next < 65536
  {
    ReadProps(b, plen, 0, NO_PROPS, plen)
  }

  // ---------------------------------------------------------------- does the loop end

  // The offset alone decides how the loop goes on, and inside the loop it takes fewer
  // values than the block has bytes.

  /** Where one turn of the loop leads, if not out of it. */
  function Jump(b: seq<Byte>, plen: nat, off: nat): (next: Option<nat>)
    requires plen < 65536
    ensures next.Some? ==> next.value < 65536
  {
    if off >= plen || off >= |b| then None
    else
      var one := ReadProperty(b, plen, off, NO_PROPS);
      if one.Done? then Some(one.value.next) else None
  }

  lemma JumpIs(b: seq<Byte>, plen: nat, off: nat, acc: Props)
    requires off < |b| && off < plen < 65536
    ensures var one := ReadProperty(b, plen, off, acc);
            Jump(b, plen, off) == if one.Done? then Some(one.value.next) else None
  {
    hide ReadStr, ReadUser, VariableLen, Scan, FromBe16, FromBe32, HasBytes;
  }

  /** For every offset in the block. */
  function Jumps(b: seq<Byte>, plen: nat): (jumps: seq<Option<nat>>)
    requires plen < 65536
    ensures |jumps| == plen && forall off :: 0 <= off < plen ==> jumps[off] == Jump(b, plen, off)
  {
    seq(plen, off requires 0 <= off < plen => Jump(b, plen, off))
  }

  /** Still inside the loop after `turns` turns. */
  predicate Loops(jumps: seq<Option<nat>>, off: nat, turns: nat)
    decreases turns
  {
    off < |jumps| && (turns == 0 || (jumps[off].Some? && Loops(jumps, jumps[off].value, turns - 1)))
  }

  lemma {:induction false} RunningIff(b: seq<Byte>, plen: nat, off: nat, acc: Props, turns: nat)
    requires plen < 65536 && off < 65536
    ensures ReadProps(b, plen, off, acc, turns) == Running <==> Loops(Jumps(b, plen), off, turns)
    decreases turns
  {
    hide ReadProperty, Jumps;
    if turns > 0 && off < plen && off < |b| {
      JumpIs(b, plen, off, acc);
      hide Jump;
      var one := ReadProperty(b, plen, off, acc);
      if one.Done? { RunningIff(b, plen, one.value.next, one.value.props, turns - 1); }
    }
  }

  /** The offsets of the turns. */
  function Path(jumps: seq<Option<nat>>, off: nat, turns: nat): (c: seq<nat>)
    requires Loops(jumps, off, turns)
    ensures |c| == turns + 1 && c[0] == off
    ensures forall i :: 0 <= i < |c| ==> c[i] < |jumps|
    ensures forall i :: 0 <= i < turns ==> jumps[c[i]] == Some(c[i + 1])
    decreases turns
  {
    if turns == 0 then [off] else [off] + Path(jumps, jumps[off].value, turns - 1)
  }

  lemma {:induction false} Cardinality(c: seq<nat>, n: nat)
    requires forall i, j :: 0 <= i < j < |c| ==> c[i] != c[j]
    requires forall i :: 0 <= i < |c| ==> c[i] < n
    ensures |c| <= n
    decreases n
  {
    assert |c| > 0 ==> c[0] < n;
    if n > 0 {
      if k :| 0 <= k < |c| && c[k] == n - 1 {
        Cardinality(c[..k] + c[k + 1..], n - 1);
      } else {
        Cardinality(c, n - 1);
      }
    }
  }

  /** A path that comes back never leaves. */
  lemma {:induction false} CycleLoops(jumps: seq<Option<nat>>, c: seq<nat>, h: nat, i: nat, turns: nat)
    requires i < |c| - 1 && h < |c| - 1 && c[h] == c[|c| - 1]
    requires forall j :: 0 <= j < |c| ==> c[j] < |jumps|
    requires forall j :: 0 <= j < |c| - 1 ==> jumps[c[j]] == Some(c[j + 1])
    ensures Loops(jumps, c[i], turns)
    decreases turns
  {
    if turns > 0 { CycleLoops(jumps, c, h, if i + 1 == |c| - 1 then h else i + 1, turns - 1); }
  }

  lemma LoopsForever(jumps: seq<Option<nat>>, off: nat, turns: nat)
    requires Loops(jumps, off, |jumps|)
    ensures Loops(jumps, off, turns)
  {
    hide Loops;
    var c := Path(jumps, off, |jumps|);
    if h, k :| 0 <= h < k < |c| && c[h] == c[k] {
      CycleLoops(jumps, c[..k + 1], h, 0, turns);
    } else {
      Cardinality(c, |jumps|);
      assert false;
    }
  }

  /** A result other than Running stays. */
  lemma {:induction false} PropsMoreTurns(b: seq<Byte>, plen: nat, off: nat, acc: Props, m: nat, n: nat)
    requires plen < 65536 && off < 65536 && m <= n
    ensures ReadProps(b, plen, off, acc, m) != Running ==>
              ReadProps(b, plen, off, acc, n) == ReadProps(b, plen, off, acc, m)
    decreases m
  {
    hide ReadProperty;
    if m > 0 && off < plen && off < |b| {
      var one := ReadProperty(b, plen, off, acc);
      if one.Done? { PropsMoreTurns(b, plen, one.value.next, one.value.props, m - 1, n - 1); }
    }
  }

  /** A loop that ends at all ends within as many turns as the block has bytes. */
  lemma EnoughTurns(b: seq<Byte>, plen: nat, turns: nat)
    requires plen < 65536
    ensures ReadProps(b, plen, 0, NO_PROPS, turns) != Running ==>
              ReadProps(b, plen, 0, NO_PROPS, turns) == ReadBlock(b, plen)
  {
    hide Loops, ReadProps, Jumps;
    RunningIff(b, plen, 0, NO_PROPS, plen);
    RunningIff(b, plen, 0, NO_PROPS, turns);
    if Loops(Jumps(b, plen), 0, plen) {
      LoopsForever(Jumps(b, plen), 0, turns);
    } else if turns < plen {
      PropsMoreTurns(b, plen, 0, NO_PROPS, turns, plen);
    } else {
      PropsMoreTurns(b, plen, 0, NO_PROPS, plen, turns);
    }
  }

  // ---------------------------------------------------------------- where things stand

  /** The strings the decoder limits. */
  predicate WithinStringLimit(p: Props) {
    && (p.response.Some? ==> |p.response.value| <= MAX_PROPERTY_STRING)
    && UserWithinLimit(p.user)
  }

  predicate UserWithinLimit(user: seq<UserProperty>) {
    user == [] || (Short(user[0]) && UserWithinLimit(user[1..]))
  }

  predicate Short(u: UserProperty) {
    |u.0| <= MAX_PROPERTY_STRING && |u.1| <= MAX_PROPERTY_STRING
  }

  /** `s` occurs in `b` at `off`. */
  ghost predicate At(b: seq<Byte>, off: nat, s: seq<Byte>) {
    off + |s| <= |b| && b[off..off + |s|] == s
  }

  lemma AtSplit(b: seq<Byte>, off: nat, s: seq<Byte>, t: seq<Byte>)
    requires At(b, off, s + t)
    ensures At(b, off, s) && At(b, off + |s|, t)
  {
    assert b[off..off + |s|] == b[off..off + |s + t|][..|s|];
    assert b[off + |s|..off + |s + t|] == b[off..off + |s + t|][|s|..];
  }

  lemma AtIndex(b: seq<Byte>, off: nat, s: seq<Byte>, k: nat)
    requires At(b, off, s) && k < |s|
    ensures b[off + k] == s[k]
  {
    assert b[off..off + |s|][k] == b[off + k];
  }

  lemma AtFits(b: seq<Byte>, off: nat, s: seq<Byte>)
    requires At(b, off, s)
    ensures off + |s| <= |b|
  {
  }

  lemma ReadStrAt(b: seq<Byte>, plen: nat, off: nat, s: seq<Byte>, limited: bool)
    requires At(b, off, Str(s)) && off + |Str(s)| <= plen < 65536
    ensures ReadStr(b, plen, off, limited) ==
            if limited && |s| > MAX_PROPERTY_STRING then Refused else Done(Text(s, off + |Str(s)|))
  {
    AtSplit(b, off, Be16(|s|), s);
    AtIndex(b, off, Be16(|s|), 0);
    AtIndex(b, off, Be16(|s|), 1);
    Be16RoundTrip(|s|);
  }

  /** The properties that hold one string: response topic, correlation data, content type, reason. */
  lemma StringCase(b: seq<Byte>, plen: nat, off: nat, acc: Props)
    requires off < |b| && off < plen < 65536
    ensures b[off] == 8 ==>
              var t := ReadStr(b, plen, off + 1, true);
              && (t.Done? ==> ReadProperty(b, plen, off, acc) ==
                               Done(Read(t.value.next, acc.(response := Some(t.value.bytes)))))
              && (t.Refused? ==> ReadProperty(b, plen, off, acc) == Refused)
    ensures b[off] == 9 ==>
              var t := ReadStr(b, plen, off + 1, false);
              t.Done? ==> ReadProperty(b, plen, off, acc) ==
                            Done(Read(t.value.next, acc.(correlation := t.value.bytes)))
    ensures b[off] == 3 ==>
              var t := ReadStr(b, plen, off + 1, false);
              t.Done? ==> ReadProperty(b, plen, off, acc) ==
                            Done(Read(t.value.next, acc.(contentType := Some(t.value.bytes))))
    ensures b[off] == 0x1F ==>
              var t := ReadStr(b, plen, off + 1, true);
              && (t.Done? ==> ReadProperty(b, plen, off, acc) == Done(Read(t.value.next, acc)))
              && (t.Refused? ==> ReadProperty(b, plen, off, acc) == Refused)
  {
    hide ReadStr, ReadUser, VariableLen, Scan, FromBe16, FromBe32;
  }

  /** Where a one-string property is read from. */
  lemma StringAt(b: seq<Byte>, plen: nat, off: nat, tag: Byte, s: seq<Byte>, limited: bool)
    requires At(b, off, [tag] + Str(s)) && off + 3 + |s| <= plen < 65536
    ensures off < |b| && b[off] == tag
    ensures ReadStr(b, plen, off + 1, limited) ==
            if limited && |s| > MAX_PROPERTY_STRING then Refused else Done(Text(s, off + 3 + |s|))
  {
    AtSplit(b, off, [tag], Str(s));
    AtIndex(b, off, [tag], 0);
    hide ReadStr, Be16;
    ReadStrAt(b, plen, off + 1, s, limited);
  }

  lemma ReadUserAt(b: seq<Byte>, plen: nat, off: nat, u: UserProperty)
    requires At(b, off, Str(u.0)) && At(b, off + 2 + |u.0|, Str(u.1))
    requires off + 4 + |u.0| + |u.1| <= plen < 65536
    ensures var r, next: nat := ReadUser(b, plen, off), off + 4 + |u.0| + |u.1|;
            r == if Short(u) then Done((u, next)) else Refused
  {
    hide ReadStr, Be16, At;
    ReadStrAt(b, plen, off, u.0, true);
    ReadStrAt(b, plen, off + 2 + |u.0|, u.1, true);
    assert (u.0, u.1) == u;
  }

  /** One user property. */
  lemma ReadUserProperty(b: seq<Byte>, plen: nat, off: nat, acc: Props, u: UserProperty)
    requires At(b, off, [0x26] + Str(u.0) + Str(u.1))
    requires off + 5 + |u.0| + |u.1| <= plen < 65536
    ensures off < |b| && b[off] == 0x26
    ensures ReadProperty(b, plen, off, acc) ==
            if Short(u) then Done(Read(off + 5 + |u.0| + |u.1|, acc.(user := acc.user + [u]))) else Refused
  {
    hide *;
    AtSplit(b, off, [0x26] + Str(u.0), Str(u.1));
    AtSplit(b, off, [0x26], Str(u.0));
    AtIndex(b, off, [0x26], 0);
    AtFits(b, off, [0x26]);
    ReadUserAt(b, plen, off + 1, u);
    UserCase(b, plen, off, acc);
  }

  lemma UserCase(b: seq<Byte>, plen: nat, off: nat, acc: Props)
    requires off < |b| && off < plen < 65536 && b[off] == 0x26
    ensures var u := ReadUser(b, plen, off + 1);
            && (u.Done? ==> ReadProperty(b, plen, off, acc) ==
                               Done(Read(u.value.1, acc.(user := acc.user + [u.value.0]))))
            && (u.Refused? ==> ReadProperty(b, plen, off, acc) == Refused)
  {
    hide ReadUser, ReadStr, VariableLen, FromBe16, FromBe32;
  }

  // ---------------------------------------------------------------- one property

  /** A property as it may stand in a received block. */
  datatype Property =
    | Format(on: Byte)
    | Expiry(n: nat)
    | Alias(n: nat)
    | Response(s: seq<Byte>)
    | Correlation(s: seq<Byte>)
    | SubscribeId(n: nat)
    | ContentType(s: seq<Byte>)
    | User(u: UserProperty)
    | Reason(s: seq<Byte>)

  /** Within the ranges of section 3.3.2.3 of MQTT 5.0. */
  predicate Sendable(q: Property) {
    match q
    case Expiry(n) => n < 0x1_0000_0000
    case Alias(n) => n < 65536
    case SubscribeId(n) => n < MAX_VARINT
    case _ => true
  }

  function Enc(q: Property): (s: seq<Byte>)
    ensures |s| >= 2
  {
    match q
    case Format(on) => [1, on]
    case Expiry(n) => [2] + Be32(n)
    case Alias(n) => [0x23] + Be16(n)
    case Response(s) => [8] + Str(s)
    case Correlation(s) => [9] + Str(s)
    case SubscribeId(n) => [0x0B] + Varint(n)
    case ContentType(s) => [3] + Str(s)
    case User(u) => [0x26] + Str(u.0) + Str(u.1)
    case Reason(s) => [0x1F] + Str(s)
  }

  /** What the decoder remembers of it; the reason string is only printed, and the
      subscription identifier is kept in 16 bits. */
  function Put(acc: Props, q: Property): (r: Props) {
    match q
    case Format(on) => acc.(format := on != 0)
    case Expiry(n) => acc.(expiry := n)
    case Alias(n) => acc.(alias := n)
    case Response(s) => acc.(response := Some(s))
    case Correlation(s) => acc.(correlation := s)
    case SubscribeId(n) => acc.(subscribeId := n % 65536)
    case ContentType(s) => acc.(contentType := Some(s))
    case User(u) => acc.(user := acc.user + [u])
    case Reason(_) => acc
  }

  /** A string longer than the decoder's limit. */
  predicate TooLong(q: Property) {
    match q
    case Response(s) => |s| > MAX_PROPERTY_STRING
    case Reason(s) => |s| > MAX_PROPERTY_STRING
    case User(u) => !Short(u)
    case _ => false
  }

  lemma ReadFormat(b: seq<Byte>, plen: nat, off: nat, acc: Props, on: Byte)
    requires At(b, off, [1, on]) && off + 2 <= plen < 65536
    ensures off < |b| && ReadProperty(b, plen, off, acc) == Done(Read(off + 2, acc.(format := on != 0)))
  {
    AtIndex(b, off, [1, on], 0);
    AtIndex(b, off, [1, on], 1);
    hide ReadStr, ReadUser, WithText, VariableLen, Scan;
  }

  lemma ReadExpiry(b: seq<Byte>, plen: nat, off: nat, acc: Props, n: nat)
    requires At(b, off, [2] + Be32(n)) && off + 5 <= plen < 65536 && n < 0x1_0000_0000
    ensures off < |b| && ReadProperty(b, plen, off, acc) == Done(Read(off + 5, acc.(expiry := n)))
  {
    AtSplit(b, off, [2], Be32(n));
    AtIndex(b, off, [2], 0);
    AtIndex(b, off + 1, Be32(n), 0); AtIndex(b, off + 1, Be32(n), 1);
    AtIndex(b, off + 1, Be32(n), 2); AtIndex(b, off + 1, Be32(n), 3);
    Be32RoundTrip(n);
    hide ReadStr, ReadUser, WithText, VariableLen, Scan, Be32, FromBe32;
  }

  lemma ReadAlias(b: seq<Byte>, plen: nat, off: nat, acc: Props, n: nat)
    requires At(b, off, [0x23] + Be16(n)) && off + 3 <= plen < 65536 && n < 65536
    ensures off < |b| && ReadProperty(b, plen, off, acc) == Done(Read(off + 3, acc.(alias := n)))
  {
    AtSplit(b, off, [0x23], Be16(n));
    AtIndex(b, off, [0x23], 0);
    AtIndex(b, off + 1, Be16(n), 0); AtIndex(b, off + 1, Be16(n), 1);
    Be16RoundTrip(n);
    hide ReadStr, ReadUser, WithText, VariableLen, Scan, Be16, FromBe16;
  }

  lemma Slice(b: seq<Byte>, at: nat, end: nat, v: seq<Byte>)
    requires At(b, at, v) && at + |v| <= end <= |b|
    ensures b[at..end] == v + b[at + |v|..end]
  {
    assert b[at..end] == b[at..at + |v|] + b[at + |v|..end];
  }

  lemma ReadSubscribeId(b: seq<Byte>, plen: nat, off: nat, acc: Props, n: nat)
    requires At(b, off, [0x0B] + Varint(n)) && off + 1 + |Varint(n)| <= plen < 65536 && n < MAX_VARINT
    ensures off < |b|
    ensures ReadProperty(b, plen, off, acc) == Done(Read(off + 1 + |Varint(n)|, acc.(subscribeId := n % 65536)))
  {
    hide *;
    AtSplit(b, off, [0x0B], Varint(n));
    AtIndex(b, off, [0x0B], 0);
    AtFits(b, off, [0x0B] + Varint(n));
    var end := if plen <= |b| then plen else |b|;
    Slice(b, off + 1, end, Varint(n));
    VariableLenOfVarint(n, b[off + 1 + |Varint(n)|..end]);
    ClosedVarint(n, b[off + 1 + |Varint(n)|..end]);
    SubscribeIdCase(b, plen, off, acc, end);
  }

  lemma SubscribeIdCase(b: seq<Byte>, plen: nat, off: nat, acc: Props, end: nat)
    requires off < |b| && off < plen < 65536 && b[off] == 0x0B && end == (if plen <= |b| then plen else |b|)
    requires Scan(b[off + 1..end], 4).closed
    ensures var v := VariableLen(b[off + 1..end]);
            ReadProperty(b, plen, off, acc) == Done(Read(off + 1 + v.1, acc.(subscribeId := v.0 % 65536)))
  {
    hide ReadStr, ReadUser, WithText, VariableLen, Scan;
  }

  lemma ClosedVarint(n: nat, tail: seq<Byte>)
    requires n < MAX_VARINT
    ensures Scan(Varint(n) + tail, 4).closed
  {
    assert Pow128(4) == MAX_VARINT by {
      assert Pow128(1) == 128; assert Pow128(2) == 16384; assert Pow128(3) == 2097152;
    }
    ScanVarint(n, tail, 4);
  }

  lemma ReadText(b: seq<Byte>, plen: nat, off: nat, acc: Props, q: Property)
    requires At(b, off, Enc(q)) && off + |Enc(q)| <= plen < 65536
    requires q.Response? || q.Correlation? || q.ContentType? || q.Reason?
    ensures off < |b|
    ensures ReadProperty(b, plen, off, acc) ==
            if TooLong(q) then Refused else Done(Read(off + |Enc(q)|, Put(acc, q)))
  {
    hide ReadStr, Str, At, ReadProperty;
    match q {
      case Response(s) => StringAt(b, plen, off, 8, s, true);
      case Correlation(s) => StringAt(b, plen, off, 9, s, false);
      case ContentType(s) => StringAt(b, plen, off, 3, s, false);
      case Reason(s) => StringAt(b, plen, off, 0x1F, s, true);
    }
    StringCase(b, plen, off, acc);
  }

  /** Each property is read as written, unless a limited string is too long; then the
      whole packet is refused. */
  lemma ReadOne(b: seq<Byte>, plen: nat, off: nat, acc: Props, q: Property)
    requires At(b, off, Enc(q)) && off + |Enc(q)| <= plen < 65536 && Sendable(q)
    ensures off < |b|
    ensures ReadProperty(b, plen, off, acc) ==
            if TooLong(q) then Refused else Done(Read(off + |Enc(q)|, Put(acc, q)))
  {
    hide At, ReadProperty, Str, Short, Varint;
    match q
    case User(u) => ReadUserProperty(b, plen, off, acc, u);
    case SubscribeId(n) => ReadSubscribeId(b, plen, off, acc, n);
    case Format(on) => ReadFormat(b, plen, off, acc, on);
    case Expiry(n) => ReadExpiry(b, plen, off, acc, n);
    case Alias(n) => ReadAlias(b, plen, off, acc, n);
    case Response(_) => ReadText(b, plen, off, acc, q);
    case Correlation(_) => ReadText(b, plen, off, acc, q);
    case ContentType(_) => ReadText(b, plen, off, acc, q);
    case Reason(_) => ReadText(b, plen, off, acc, q);
  }

  /** The lengths that are checked fit the two bytes they are written in. */
  predicate Fits(q: Property) {
    match q
    case Response(s) => |s| < 65536
    case Reason(s) => |s| < 65536
    case User(u) => |u.0| < 65536 && |u.1| < 65536
    case _ => true
  }

  /** A property that the end of the block cuts is refused, if the decoder checks its
      bounds: it does so for all but correlation data, content type and subscription
      identifier. */
  lemma CutRefused(b: seq<Byte>, plen: nat, off: nat, acc: Props, q: Property)
    requires At(b, off, Enc(q)) && off < plen < off + |Enc(q)| && plen < 65536
    requires !q.Correlation? && !q.ContentType? && !q.SubscribeId? && Fits(q)
    ensures off < |b| && ReadProperty(b, plen, off, acc) == Refused
  {
    AtIndex(b, off, Enc(q), 0);
    match q {
      case Response(s) => CutString(b, plen, off, 8, s);
      case Reason(s) => CutString(b, plen, off, 0x1F, s);
      case User(u) => CutUser(b, plen, off, u);
      case _ =>
    }
    hide ReadStr, VariableLen, Scan, Str, Be16, Be32, At;
  }

  lemma CutString(b: seq<Byte>, plen: nat, off: nat, tag: Byte, s: seq<Byte>)
    requires At(b, off, [tag] + Str(s)) && off < plen < off + 3 + |s| && plen < 65536 && |s| < 65536
    ensures ReadStr(b, plen, off + 1, true) == Refused
  {
    AtSplit(b, off, [tag], Str(s));
    ReadStrCut(b, plen, off + 1, s);
  }

  lemma ReadStrCut(b: seq<Byte>, plen: nat, off: nat, s: seq<Byte>)
    requires At(b, off, Str(s)) && off <= plen < off + 2 + |s| && plen < 65536 && |s| < 65536
    ensures ReadStr(b, plen, off, true) == Refused
  {
    AtSplit(b, off, Be16(|s|), s);
    AtIndex(b, off, Be16(|s|), 0);
    AtIndex(b, off, Be16(|s|), 1);
    Be16RoundTrip(|s|);
  }

  lemma CutUser(b: seq<Byte>, plen: nat, off: nat, u: UserProperty)
    requires At(b, off, [0x26] + Str(u.0) + Str(u.1)) && off < plen < off + 5 + |u.0| + |u.1| && plen < 65536
    requires |u.0| < 65536 && |u.1| < 65536
    ensures ReadUser(b, plen, off + 1) == Refused
  {
    AtSplit(b, off, [0x26] + Str(u.0), Str(u.1));
    AtSplit(b, off, [0x26], Str(u.0));
    hide ReadStr, Be16, At;
    if plen < off + 3 + |u.0| {
      ReadStrCut(b, plen, off + 1, u.0);
    } else {
      ReadStrAt(b, plen, off + 1, u.0, true);
      ReadStrCut(b, plen, off + 3 + |u.0|, u.1);
    }
  }

  /** Any other identifier is refused. */
  lemma UnknownRefused(b: seq<Byte>, plen: nat, off: nat, acc: Props)
    requires off < |b| && off < plen < 65536 && b[off] !in [1, 2, 3, 8, 9, 0x0B, 0x1F, 0x23, 0x26]
    ensures ReadProperty(b, plen, off, acc) == Refused
  {
    hide ReadStr, ReadUser, VariableLen, Scan, WithText;
  }

  // ---------------------------------------------------------------- a whole block

  function EncAll(list: seq<Property>): (s: seq<Byte>)
    ensures |s| >= |list|
  {
    if list == [] then [] else Enc(list[0]) + EncAll(list[1..])
  }

  /** Later properties override earlier ones; user properties add up. */
  function PutAll(acc: Props, list: seq<Property>): (r: Props)
    decreases |list|
  {
    if list == [] then acc else PutAll(Put(acc, list[0]), list[1..])
  }

  predicate AllSendable(list: seq<Property>) {
    forall i :: 0 <= i < |list| ==> Sendable(list[i])
  }

  predicate NoneTooLong(list: seq<Property>) {
    forall i :: 0 <= i < |list| ==> !TooLong(list[i])
  }

  lemma OneTurn(b: seq<Byte>, plen: nat, off: nat, acc: Props, turns: nat)
    requires off < |b| && off < plen < 65536 && turns > 0
    ensures var one := ReadProperty(b, plen, off, acc);
            ReadProps(b, plen, off, acc, turns) ==
            if one.Done? then ReadProps(b, plen, one.value.next, one.value.props, turns - 1) else one
  {
    hide ReadProperty;
  }

  lemma {:induction false} ReadAll(b: seq<Byte>, plen: nat, off: nat, acc: Props, list: seq<Property>, turns: nat)
    requires At(b, off, EncAll(list)) && off + |EncAll(list)| == plen < 65536 && AllSendable(list) && turns >= |list|
    ensures ReadProps(b, plen, off, acc, turns) ==
            if NoneTooLong(list) then Done(Read(plen, PutAll(acc, list))) else Refused
    decreases |list|
  {
    hide *;
    if list == [] {
      EmptyList(b, plen, acc, turns);
    } else {
      var q, rest := list[0], list[1..];
      HeadAndTail(list, acc);
      NoneSplits(list);
      AllSplits(list);
      AtSplit(b, off, Enc(q), EncAll(rest));
      ReadOne(b, plen, off, acc, q);
      OneTurn(b, plen, off, acc, turns);
      if !TooLong(q) { ReadAll(b, plen, off + |Enc(q)|, Put(acc, q), rest, turns - 1); }
    }
  }

  lemma EmptyList(b: seq<Byte>, plen: nat, acc: Props, turns: nat)
    requires plen < 65536
    ensures EncAll([]) == [] && NoneTooLong([]) && PutAll(acc, []) == acc
    ensures ReadProps(b, plen, plen, acc, turns) == Done(Read(plen, acc))
  {
  }

  lemma HeadAndTail(list: seq<Property>, acc: Props)
    requires list != []
    ensures EncAll(list) == Enc(list[0]) + EncAll(list[1..])
    ensures PutAll(acc, list) == PutAll(Put(acc, list[0]), list[1..])
  {
    hide Enc, Put;
  }

  lemma AllSplits(list: seq<Property>)
    requires list != [] && AllSendable(list)
    ensures Sendable(list[0]) && AllSendable(list[1..])
  {
  }

  lemma NoneSplits(list: seq<Property>)
    requires list != []
    ensures NoneTooLong(list) <==> !TooLong(list[0]) && NoneTooLong(list[1..])
  {
    hide TooLong;
    assert forall i :: 0 < i < |list| ==> list[i] == list[1..][i - 1];
  }

  /** Any block of properties, in any order and with repetitions, is read as written, as
      long as its length fits 16 bits: what is remembered is what the properties put there
      one after the other. The packet is refused if and only if a limited string is too
      long. */
  lemma AnyBlockIsRead(list: seq<Property>, tail: seq<Byte>)
    requires |EncAll(list)| < 65536 && AllSendable(list)
    ensures ReadBlock(EncAll(list) + tail, |EncAll(list)|) ==
            if NoneTooLong(list) then Done(Read(|EncAll(list)|, PutAll(NO_PROPS, list))) else Refused
  {
    hide ReadProps, EncAll, PutAll;
    var b := EncAll(list) + tail;
    assert b[0..0 + |EncAll(list)|] == EncAll(list);
    ReadAll(b, |EncAll(list)|, 0, NO_PROPS, list, |EncAll(list)|);
  }

  lemma {:induction false} EncConcat(a: seq<Property>, c: seq<Property>)
    ensures EncAll(a + c) == EncAll(a) + EncAll(c)
  {
    if a == [] {
      assert a + c == c;
    } else {
      assert (a + c)[1..] == a[1..] + c;
      EncConcat(a[1..], c);
    }
  }

  lemma {:induction false} PutConcat(acc: Props, a: seq<Property>, c: seq<Property>)
    ensures PutAll(acc, a + c) == PutAll(PutAll(acc, a), c)
    decreases |a|
  {
    if a == [] {
      assert a + c == c;
    } else {
      assert (a + c)[1..] == a[1..] + c;
      PutConcat(Put(acc, a[0]), a[1..], c);
    }
  }

  lemma NoneConcat(a: seq<Property>, c: seq<Property>)
    ensures NoneTooLong(a + c) <==> NoneTooLong(a) && NoneTooLong(c)
    ensures AllSendable(a) && AllSendable(c) ==> AllSendable(a + c)
  {
    hide TooLong, Sendable;
    assert forall i :: 0 <= i < |a| ==> (a + c)[i] == a[i];
    assert forall i :: 0 <= i < |c| ==> (a + c)[|a| + i] == c[i];
  }

  // ---------------------------------------------------------------- the encoder writes such a block

  function Users(user: seq<UserProperty>): (list: seq<Property>)
    ensures |list| == |user| && forall i :: 0 <= i < |user| ==> list[i] == User(user[i])
  {
    seq(|user|, i requires 0 <= i < |user| => User(user[i]))
  }

  function If(present: bool, q: Property): (list: seq<Property>) {
    if present then [q] else []
  }

  /** The numbers and the texts around the user properties, in the order of the encoder. */
  function Numbers(p: Props): (list: seq<Property>) {
    If(p.format, Format(1)) + (If(p.expiry > 0, Expiry(p.expiry)) + If(p.alias > 0, Alias(p.alias)))
  }

  function Texts(p: Props): (list: seq<Property>) {
    If(p.response.Some?, Response(if p.response.Some? then p.response.value else []))
    + If(p.correlation != [], Correlation(p.correlation))
  }

  function Content(p: Props): (list: seq<Property>) {
    If(p.contentType.Some?, ContentType(if p.contentType.Some? then p.contentType.value else []))
  }

  /** The properties of the structure as a list. */
  function Listed(p: Props): (list: seq<Property>) {
    Numbers(p) + (Texts(p) + (Users(p.user) + Content(p)))
  }

  lemma EncOne(present: bool, q: Property)
    ensures EncAll(If(present, q)) == if present then Enc(q) else []
  {
    assert [q][1..] == [];
    assert Enc(q) + [] == Enc(q);
  }

  lemma {:induction false} UsersEncoded(user: seq<UserProperty>)
    ensures EncAll(Users(user)) == UserBytes(user)
  {
    if user != [] {
      assert Users(user)[1..] == Users(user[1..]);
      UsersEncoded(user[1..]);
    }
  }

  lemma NumbersEncoded(p: Props)
    ensures EncAll(Numbers(p)) == FormatBytes(p.format) + (ExpiryBytes(p.expiry) + AliasBytes(p.alias))
  {
    EncOne(p.format, Format(1));
    EncOne(p.expiry > 0, Expiry(p.expiry));
    EncOne(p.alias > 0, Alias(p.alias));
    EncConcat(If(p.expiry > 0, Expiry(p.expiry)), If(p.alias > 0, Alias(p.alias)));
    EncConcat(If(p.format, Format(1)), If(p.expiry > 0, Expiry(p.expiry)) + If(p.alias > 0, Alias(p.alias)));
    hide EncAll, If, Be32, Be16;
  }

  lemma TextsEncoded(p: Props)
    ensures EncAll(Texts(p)) == ResponseBytes(p.response) + CorrelationBytes(p.correlation)
    ensures EncAll(Content(p)) == ContentTypeBytes(p.contentType)
  {
    var r := Response(if p.response.Some? then p.response.value else []);
    EncOne(p.response.Some?, r);
    EncOne(p.correlation != [], Correlation(p.correlation));
    EncConcat(If(p.response.Some?, r), If(p.correlation != [], Correlation(p.correlation)));
    EncOne(p.contentType.Some?, ContentType(if p.contentType.Some? then p.contentType.value else []));
    hide EncAll, If, Str;
  }

  lemma ListedEncoded(p: Props)
    ensures EncAll(Listed(p)) == PropBlock(p)
  {
    NumbersEncoded(p);
    TextsEncoded(p);
    UsersEncoded(p.user);
    EncConcat(Users(p.user), Content(p));
    EncConcat(Texts(p), Users(p.user) + Content(p));
    EncConcat(Numbers(p), Texts(p) + (Users(p.user) + Content(p)));
    hide EncAll, Numbers, Texts, Content, Users, UserBytes, FormatBytes, ExpiryBytes, AliasBytes, ResponseBytes,
        CorrelationBytes, ContentTypeBytes;
  }

  lemma PutOne(acc: Props, present: bool, q: Property)
    ensures PutAll(acc, If(present, q)) == if present then Put(acc, q) else acc
  {
    assert [q][1..] == [];
  }

  lemma {:induction false} UsersPut(acc: Props, user: seq<UserProperty>)
    ensures PutAll(acc, Users(user)) == acc.(user := acc.user + user)
    decreases |user|
  {
    if user == [] {
      assert acc.user + user == acc.user;
    } else {
      assert Users(user)[1..] == Users(user[1..]);
      UsersPut(acc.(user := acc.user + [user[0]]), user[1..]);
      assert (acc.user + [user[0]]) + user[1..] == acc.user + user;
    }
  }

  lemma NumbersPut(p: Props)
    ensures PutAll(NO_PROPS, Numbers(p)) == NO_PROPS.(format := p.format, expiry := p.expiry, alias := p.alias)
  {
    var f, e, a := If(p.format, Format(1)), If(p.expiry > 0, Expiry(p.expiry)), If(p.alias > 0, Alias(p.alias));
    PutConcat(NO_PROPS, f, e + a);
    PutOne(NO_PROPS, p.format, Format(1));
    var acc := PutAll(NO_PROPS, f);
    PutConcat(acc, e, a);
    PutOne(acc, p.expiry > 0, Expiry(p.expiry));
    PutOne(PutAll(acc, e), p.alias > 0, Alias(p.alias));
    hide PutAll, If;
  }

  lemma TextsPut(acc: Props, p: Props)
    requires acc.response == None && acc.correlation == []
    ensures PutAll(acc, Texts(p)) == acc.(response := p.response, correlation := p.correlation)
  {
    var r := Response(if p.response.Some? then p.response.value else []);
    var c := Correlation(p.correlation);
    PutConcat(acc, If(p.response.Some?, r), If(p.correlation != [], c));
    PutOne(acc, p.response.Some?, r);
    PutOne(PutAll(acc, If(p.response.Some?, r)), p.correlation != [], c);
    hide PutAll, If;
  }

  lemma ListedPut(p: Props)
    requires p.subscribeId == 0
    ensures PutAll(NO_PROPS, Listed(p)) == p
  {
    PutConcat(NO_PROPS, Numbers(p), Texts(p) + (Users(p.user) + Content(p)));
    NumbersPut(p);
    var a := PutAll(NO_PROPS, Numbers(p));
    PutConcat(a, Texts(p), Users(p.user) + Content(p));
    TextsPut(a, p);
    var c := PutAll(a, Texts(p));
    PutConcat(c, Users(p.user), Content(p));
    UsersPut(c, p.user);
    assert [] + p.user == p.user;
    PutOne(PutAll(c, Users(p.user)), p.contentType.Some?,
           ContentType(if p.contentType.Some? then p.contentType.value else []));
    hide PutAll, If, Numbers, Texts, Users;
  }

  lemma {:induction false} UsersShort(user: seq<UserProperty>)
    ensures NoneTooLong(Users(user)) <==> UserWithinLimit(user)
    ensures AllSendable(Users(user))
  {
    if user != [] {
      assert Users(user)[1..] == Users(user[1..]);
      UsersShort(user[1..]);
      NoneSplits(Users(user));
    }
    hide NoneTooLong;
  }

  lemma NumbersShort(p: Props)
    requires p.expiry < 0x1_0000_0000 && p.alias < 65536
    ensures NoneTooLong(Numbers(p)) && AllSendable(Numbers(p))
    ensures NoneTooLong(Content(p)) && AllSendable(Content(p)) && AllSendable(Texts(p))
  {
  }

  lemma TextsShort(p: Props)
    ensures NoneTooLong(Texts(p)) <==> (p.response.Some? ==> |p.response.value| <= MAX_PROPERTY_STRING)
  {
    if p.response.Some? { assert Texts(p)[0] == Response(p.response.value); }
  }

  lemma ListedShort(p: Props)
    requires p.expiry < 0x1_0000_0000 && p.alias < 65536
    ensures AllSendable(Listed(p)) && (NoneTooLong(Listed(p)) <==> WithinStringLimit(p))
  {
    NumbersShort(p);
    TextsShort(p);
    UsersShort(p.user);
    hide Numbers, Texts, Content, Users, NoneTooLong, AllSendable, UserWithinLimit;
    NoneConcat(Users(p.user), Content(p));
    NoneConcat(Texts(p), Users(p.user) + Content(p));
    NoneConcat(Numbers(p), Texts(p) + (Users(p.user) + Content(p)));
  }

  /** The block the encoder writes, as long as its length fits 16 bits: decoded exactly when
      its limited strings are short enough. */
  lemma BlockRoundTrip(p: Props, tail: seq<Byte>)
    requires p.expiry < 0x1_0000_0000 && p.alias < 65536 && p.subscribeId == 0 && |PropBlock(p)| < 65536
    ensures ReadBlock(PropBlock(p) + tail, |PropBlock(p)|) ==
            if WithinStringLimit(p) then Done(Read(|PropBlock(p)|, p)) else Refused
  {
    ListedEncoded(p);
    ListedPut(p);
    ListedShort(p);
    hide *;
    AnyBlockIsRead(Listed(p), tail);
  }

  // ---------------------------------------------------------------- the loop

  /** The property loop, over the packet from the start of the block, when it ends. */
  method GetProperties(property: seq<Byte>, plen: nat) returns (r: Outcome<Read>)
    requires plen < 65536 && ReadBlock(property, plen) != Running
    ensures r == ReadBlock(property, plen)
  {
    hide ReadProperty;
    var at: nat := 0;
    var props := NO_PROPS;
    ghost var left: nat := plen;
    while at < plen
      invariant at < 65536
      invariant ReadProps(property, plen, at, props, left) == ReadBlock(property, plen)
      decreases left
    {
      if at >= |property| { return Outside; }
      var one := ReadProperty(property, plen, at, props);
      if !one.Done? { return one; }
      at, props := one.value.next, one.value.props;
      left := left - 1;
    }
    return Done(Read(at, props));
  }
}
