/** Text accepted by runtime/emqtt_contract.c: UTF-8 of allowed code points, and topic
    names and filters. The loops are proved against definitions that do not mention
    them: encodings of code points (section 3 of RFC 3629) and topic levels
    (section 4.7.1 of MQTT 3.1.1). */
module TextRules {
  import opened Bytes

  const TOPIC_MAX: nat := 256
  const SLASH: Byte := 47
  const HASH: Byte := 35
  const PLUS: Byte := 43

  // ---------------------------------------------------------------- UTF-8

  predicate Allowed(c: int) {
    && 0x20 <= c <= 0x10ffff
    && !(0x7f <= c <= 0x9f) && !(0xd800 <= c <= 0xdfff) && !(0xfdd0 <= c <= 0xfdef)
    && c % 0x10000 < 0xfffe
  }

  /** The encoding of one code point. */
  function Utf8(c: nat): (s: seq<Byte>)
    requires c <= 0x10ffff
    ensures 1 <= |s| <= 4
  {
    if c < 0x80 then [c]
    else if c < 0x800 then [0xc0 + c / 64, 0x80 + c % 64]
    else if c < 0x10000 then [0xe0 + c / 4096, 0x80 + c / 64 % 64, 0x80 + c % 64]
    else [0xf0 + c / 262144, 0x80 + c / 4096 % 64, 0x80 + c / 64 % 64, 0x80 + c % 64]
  }

  function EncodeAll(cps: seq<nat>): (s: seq<Byte>)
    requires forall i :: 0 <= i < |cps| ==> cps[i] <= 0x10ffff
  {
    if cps == [] then [] else Utf8(cps[0]) + EncodeAll(cps[1..])
  }

  /** `s` encodes the code points `cps`, all of them allowed. */
  ghost predicate Encodes(s: seq<Byte>, cps: seq<nat>) {
    (forall i :: 0 <= i < |cps| ==> Allowed(cps[i])) && s == EncodeAll(cps)
  }

  ghost predicate IsText(s: seq<Byte>) {
    exists cps :: Encodes(s, cps)
  }

  /** What the first byte announces: its own bits, how many bytes follow, and the
      smallest code that needs that many. */
  datatype Lead = Lead(bits: nat, extra: nat, minimum: nat) | BadLead

  function LeadOf(b: Byte): (l: Lead)
    ensures l.Lead? ==> l.extra <= 3
  {
    if 0xc2 <= b <= 0xdf then Lead(b - 0xc0, 1, 0x80)
    else if 0xe0 <= b <= 0xef then Lead(b - 0xe0, 2, 0x800)
    else if 0xf0 <= b <= 0xf4 then Lead(b - 0xf0, 3, 0x10000)
    else if b >= 0x80 then BadLead
    else Lead(b, 0, 0)
  }

  /** The continuation bytes folded into the code. */
  function Fold(s: seq<Byte>, extra: nat, code: nat): (r: Option<nat>)
    requires extra <= |s|
  {
    if extra == 0 then Some(code)
    else if !(0x80 <= s[0] < 0xc0) then None
    else Fold(s[1..], extra - 1, code * 64 + s[0] % 64)
  }

  predicate AcceptedCode(code: nat, minimum: nat) {
    code >= minimum && Allowed(code)
  }

  datatype One = One(code: nat, used: nat)

  /** One turn of the outer loop. */
  function DecodeOne(s: seq<Byte>): (r: Option<One>)
    requires s != []
    ensures r.Some? ==> 1 <= r.value.used <= |s|
  {
    var l := LeadOf(s[0]);
    if l.BadLead? || l.extra > |s| - 1 then None
    else
      var c := Fold(s[1..], l.extra, l.bits);
      if c.None? || !AcceptedCode(c.value, l.minimum) then None else Some(One(c.value, 1 + l.extra))
  }

  predicate Accepted(s: seq<Byte>) {
    s == [] || (DecodeOne(s).Some? && Accepted(s[DecodeOne(s).value.used..]))
  }

  /** The code points kept out: the control characters, the surrogates and those that
      Unicode sets aside as noncharacters. */
  lemma AllowedMeans(c: int)
    requires 0 <= c <= 0x10ffff
    ensures var control := c <= 31 || 127 <= c <= 159;
            var surrogate := c / 0x800 == 27;
            var noncharacter := c / 16 == 0xfdd || c / 16 == 0xfde || c % 0x10000 == 0xfffe || c % 0x10000 == 0xffff;
            Allowed(c) <==> !control && !surrogate && !noncharacter
  {
  }

  // Digits in base 64, both ways.

  lemma Digits2(a: nat, b: nat)
    requires b < 64
    ensures var c := a * 64 + b; c / 64 == a && c % 64 == b
  {
  }

  lemma Digits3(a: nat, b: nat, d: nat)
    requires b < 64 && d < 64
    ensures var c := (a * 64 + b) * 64 + d; c / 4096 == a && c / 64 % 64 == b && c % 64 == d
  {
    Digits2(a * 64 + b, d);
    Digits2(a, b);
  }

  lemma Digits4(a: nat, b: nat, d: nat, e: nat)
    requires b < 64 && d < 64 && e < 64
    ensures var c := ((a * 64 + b) * 64 + d) * 64 + e;
            c / 262144 == a && c / 4096 % 64 == b && c / 64 % 64 == d && c % 64 == e
  {
    Digits2((a * 64 + b) * 64 + d, e);
    Digits3(a, b, d);
  }

  predicate Cont(b: Byte) { 0x80 <= b < 0xc0 }

  lemma Fold1(s: seq<Byte>, code: nat)
    requires |s| >= 1
    ensures Fold(s, 1, code) == if Cont(s[0]) then Some(code * 64 + s[0] % 64) else None
  {
  }

  lemma Fold2(s: seq<Byte>, code: nat)
    requires |s| >= 2
    ensures Fold(s, 2, code) ==
            if Cont(s[0]) && Cont(s[1]) then Some((code * 64 + s[0] % 64) * 64 + s[1] % 64) else None
  {
    Fold1(s[1..], code * 64 + s[0] % 64);
  }

  lemma Fold3(s: seq<Byte>, code: nat)
    requires |s| >= 3
    ensures Fold(s, 3, code) ==
            if Cont(s[0]) && Cont(s[1]) && Cont(s[2])
            then Some(((code * 64 + s[0] % 64) * 64 + s[1] % 64) * 64 + s[2] % 64) else None
  {
    Fold2(s[1..], code * 64 + s[0] % 64);
  }

  lemma Recompose(c: nat)
    ensures c / 64 * 64 + c % 64 == c
    ensures (c / 4096 * 64 + c / 64 % 64) * 64 + c % 64 == c
    ensures ((c / 262144 * 64 + c / 4096 % 64) * 64 + c / 64 % 64) * 64 + c % 64 == c
  {
    assert c / 4096 == c / 64 / 64 && c / 262144 == c / 4096 / 64;
  }

  /** A byte sequence that starts with a lead byte and the right continuation bytes. */
  lemma ReadsAs(s: seq<Byte>, l: Lead, c: nat)
    requires s != [] && l.Lead? && LeadOf(s[0]) == l && l.extra < |s|
    requires Fold(s[1..], l.extra, l.bits) == Some(c) && AcceptedCode(c, l.minimum)
    ensures DecodeOne(s) == Some(One(c, 1 + l.extra))
  {
  }

  lemma Decodes12(c: nat, s: seq<Byte>)
    requires Allowed(c) && c < 0x800 && |Utf8(c)| <= |s| && s[..|Utf8(c)|] == Utf8(c)
    ensures DecodeOne(s) == Some(One(c, |Utf8(c)|))
  {
    hide Fold, Allowed, DecodeOne;
    assert s[0] == Utf8(c)[0];
    if c < 0x80 {
      FoldNone(s[1..], c);
      ReadsAs(s, Lead(c, 0, 0), c);
    } else {
      assert s[1] == s[..2][1];
      Fold1(s[1..], c / 64);
      ReadsAs(s, Lead(c / 64, 1, 0x80), c);
    }
  }

  lemma Decodes3(c: nat, s: seq<Byte>)
    requires Allowed(c) && 0x800 <= c < 0x10000 && |s| >= 3 && s[..3] == Utf8(c)
    ensures DecodeOne(s) == Some(One(c, 3))
  {
    hide Fold, Allowed, DecodeOne;
    var a, b, d := c / 4096, c / 64 % 64, c % 64;
    assert s[0] == s[..3][0] == 0xe0 + a && s[1] == s[..3][1] == 0x80 + b && s[2] == s[..3][2] == 0x80 + d;
    assert (a * 64 + b) * 64 + d == c by { Recompose(c); }
    assert a < 16;
    Fold2(s[1..], a);
    ReadsAs(s, Lead(a, 2, 0x800), c);
  }

  lemma TailByte(b: nat)
    requires b < 64
    ensures (0x80 + b) % 64 == b && Cont(0x80 + b)
  {
  }

  lemma ReadsDigits4(s: seq<Byte>, a: nat, b: nat, d: nat, e: nat, c: nat)
    requires |s| >= 4 && a <= 4 && b < 64 && d < 64 && e < 64 && c == ((a * 64 + b) * 64 + d) * 64 + e
    requires s[0] == 0xf0 + a && s[1] == 0x80 + b && s[2] == 0x80 + d && s[3] == 0x80 + e
    requires AcceptedCode(c, 0x10000)
    ensures DecodeOne(s) == Some(One(c, 4))
  {
    hide Fold, AcceptedCode, DecodeOne;
    TailByte(b);
    TailByte(d);
    TailByte(e);
    Fold3(s[1..], a);
    ReadsAs(s, Lead(a, 3, 0x10000), c);
  }

  lemma Decodes4(c: nat, s: seq<Byte>)
    requires Allowed(c) && 0x10000 <= c <= 0x10ffff && |s| >= 4 && s[..4] == Utf8(c)
    ensures DecodeOne(s) == Some(One(c, 4))
  {
    hide Fold, Allowed, DecodeOne;
    var a, b, d, e := c / 262144, c / 4096 % 64, c / 64 % 64, c % 64;
    assert s[0] == s[..4][0] == 0xf0 + a && s[1] == s[..4][1] == 0x80 + b
           && s[2] == s[..4][2] == 0x80 + d && s[3] == s[..4][3] == 0x80 + e;
    hide Utf8;
    Recompose(c);
    ReadsDigits4(s, a, b, d, e, c);
  }

  /** An allowed code point is read back from its encoding, whatever follows. */
  lemma EncodingDecodes(c: nat, tail: seq<Byte>)
    requires Allowed(c)
    ensures DecodeOne(Utf8(c) + tail) == Some(One(c, |Utf8(c)|))
  {
    hide Allowed, DecodeOne, Utf8;
    AllowedRange(c);
    WidthOf(c);
    var s := Utf8(c) + tail;
    assert s[..|Utf8(c)|] == Utf8(c);
    if c < 0x800 {
      Decodes12(c, s);
    } else if c < 0x10000 {
      Decodes3(c, s);
    } else {
      Decodes4(c, s);
    }
  }

  lemma WidthOf(c: nat)
    requires c <= 0x10ffff
    ensures |Utf8(c)| == if c < 0x80 then 1 else if c < 0x800 then 2 else if c < 0x10000 then 3 else 4
  {
  }

  /** What is read is allowed and is the encoding it was read from. */
  lemma DecodingEncodes(s: seq<Byte>)
    requires s != [] && DecodeOne(s).Some?
    ensures var o := DecodeOne(s).value; Allowed(o.code) && s[..o.used] == Utf8(o.code)
  {
    var l := LeadOf(s[0]);
    assert AcceptedCode(Fold(s[1..], l.extra, l.bits).value, l.minimum);
    assert Allowed(DecodeOne(s).value.code);
    hide Fold, Allowed, Utf8;
    if l.extra <= 1 {
      DecodingEncodes12(s, l, DecodeOne(s).value.code);
    } else if l.extra == 2 {
      DecodingEncodes3(s, l, DecodeOne(s).value.code);
    } else {
      AllowedRange(DecodeOne(s).value.code);
      DecodingEncodes4(s, l, DecodeOne(s).value.code);
    }
  }

  lemma DecodingEncodes12(s: seq<Byte>, l: Lead, c: nat)
    requires s != [] && l == LeadOf(s[0]) && l.Lead? && l.extra <= 1 && l.extra < |s|
    requires Fold(s[1..], l.extra, l.bits) == Some(c) && l.minimum <= c <= 0x10ffff
    ensures s[..1 + l.extra] == Utf8(c)
  {
    hide Fold;
    if l.extra == 0 {
      FoldNone(s[1..], l.bits);
      assert s[..1] == [s[0]];
    } else {
      Fold1(s[1..], l.bits);
      Digits2(l.bits, s[1] % 64);
      assert s[..2] == [s[0], s[1]];
    }
  }

  lemma DecodingEncodes3(s: seq<Byte>, l: Lead, c: nat)
    requires s != [] && l == LeadOf(s[0]) && l.Lead? && l.extra == 2 < |s|
    requires Fold(s[1..], 2, l.bits) == Some(c) && l.minimum <= c <= 0x10ffff
    ensures s[..3] == Utf8(c)
  {
    hide Fold;
    Fold2(s[1..], l.bits);
    Digits3(l.bits, s[1] % 64, s[2] % 64);
    assert s[..3] == [s[0], s[1], s[2]];
  }

  lemma DecodingEncodes4(s: seq<Byte>, l: Lead, c: nat)
    requires s != [] && l == LeadOf(s[0]) && l.Lead? && l.extra == 3 < |s|
    requires Fold(s[1..], 3, l.bits) == Some(c) && l.minimum <= c <= 0x10ffff
    ensures s[..4] == Utf8(c)
  {
    hide Fold;
    Fold3(s[1..], l.bits);
    Digits4(l.bits, s[1] % 64, s[2] % 64, s[3] % 64);
    assert s[..4] == [s[0], s[1], s[2], s[3]];
  }

  lemma FoldNone(s: seq<Byte>, code: nat)
    ensures Fold(s, 0, code) == Some(code)
  {
  }

  lemma AllowedRange(c: nat)
    requires Allowed(c)
    ensures c <= 0x10ffff
  {
  }

  lemma {:induction false} AcceptedIsText(s: seq<Byte>)
    requires Accepted(s)
    ensures IsText(s)
  {
    if s == [] {
      assert Encodes(s, []);
    } else {
      var o := DecodeOne(s).value;
      DecodingEncodes(s);
      AllowedRange(o.code);
      hide DecodeOne, Utf8, Allowed;
      var rest := s[o.used..];
      AcceptedIsText(rest);
      var cps :| Encodes(rest, cps);
      EncodesMore(s, o.used, o.code, cps);
    }
  }

  lemma EncodesMore(s: seq<Byte>, used: nat, c: nat, cps: seq<nat>)
    requires Allowed(c) && c <= 0x10ffff && used <= |s| && s[..used] == Utf8(c) && Encodes(s[used..], cps)
    ensures Encodes(s, [c] + cps)
  {
    hide Allowed, Utf8;
    var all := [c] + cps;
    assert all[1..] == cps;
    assert s == s[..used] + s[used..];
  }

  lemma {:induction false} TextIsAccepted(s: seq<Byte>, cps: seq<nat>)
    requires Encodes(s, cps)
    ensures Accepted(s)
    decreases |cps|
  {
    if cps != [] {
      EncodingDecodes(cps[0], EncodeAll(cps[1..]));
      assert s[|Utf8(cps[0])|..] == EncodeAll(cps[1..]);
      TextIsAccepted(EncodeAll(cps[1..]), cps[1..]);
    }
  }

  lemma AcceptedIffText(s: seq<Byte>)
    ensures Accepted(s) <==> IsText(s)
  {
    if Accepted(s) { AcceptedIsText(s); }
    if IsText(s) {
      var cps :| Encodes(s, cps);
      TextIsAccepted(s, cps);
    }
  }

  /** The function `utf8`. */
  method IsUtf8(text: seq<Byte>) returns (ok: bool)
    ensures ok <==> IsText(text)
  {
    hide DecodeOne, IsText;
    AcceptedIffText(text);
    var at := 0;
    while at < |text|
      invariant at <= |text|
      invariant Accepted(text) <==> Accepted(text[at..])
    {
      ghost var s := text[at..];
      ghost var from := at;
      ok, at := NextCode(text, at);
      if !ok { return; }
      assert s[at - from..] == text[at..];
    }
    return true;
  }

  /** One turn: a lead byte, its continuation bytes, and the tests on the code. */
  method NextCode(text: seq<Byte>, from: nat) returns (ok: bool, at: nat)
    requires from < |text|
    ensures ok <==> DecodeOne(text[from..]).Some?
    ensures ok ==> from < at <= |text| && at == from + DecodeOne(text[from..]).value.used
  {
    hide Allowed;
    ghost var s := text[from..];
    at := from;
    var l := LeadOf(text[at]);
    at := at + 1;
    if l.BadLead? { return false, at; }
    if l.extra > |text| - at { return false, at; }
    var code: nat, extra: nat := l.bits, l.extra;
    assert s[1..] == text[at..];
    while extra > 0
      invariant at + extra == from + 1 + l.extra <= |text|
      invariant Fold(s[1..], l.extra, l.bits) == Fold(text[at..], extra, code)
    {
      var byte := text[at];
      assert text[at..][1..] == text[at + 1..];
      at := at + 1;
      if !(0x80 <= byte < 0xc0) { return false, at; }
      code := code * 64 + byte % 64;
      extra := extra - 1;
    }
    ok := AcceptedCode(code, l.minimum);
  }

  // ---------------------------------------------------------------- topic levels

  /** The levels of a topic: the pieces between slashes. */
  function Levels(s: seq<Byte>): (ls: seq<seq<Byte>>)
    ensures |ls| >= 1
  {
    if s == [] then [[]]
    else if s[0] == SLASH then [[]] + Levels(s[1..])
    else [[s[0]] + Levels(s[1..])[0]] + Levels(s[1..])[1..]
  }

  function Join(ls: seq<seq<Byte>>): (s: seq<Byte>)
    requires |ls| >= 1
  {
    if |ls| == 1 then ls[0] else ls[0] + [SLASH] + Join(ls[1..])
  }

  /** The levels are slash-free and joining them gives the topic back. */
  lemma {:induction false} LevelsPartition(s: seq<Byte>)
    ensures Join(Levels(s)) == s
    ensures forall i :: 0 <= i < |Levels(s)| ==> SLASH !in Levels(s)[i]
  {
    if s != [] {
      var r := Levels(s[1..]);
      LevelsPartition(s[1..]);
      if s[0] == SLASH {
        assert ([[]] + r)[1..] == r;
      } else {
        assert ([[s[0]] + r[0]] + r[1..])[1..] == r[1..];
      }
    }
  }

  predicate WildcardFree(level: seq<Byte>) {
    HASH !in level && PLUS !in level
  }

  /** A level of a topic name, or of a filter. */
  predicate LevelOk(level: seq<Byte>, filter: bool, last: bool) {
    WildcardFree(level) || (filter && (level == [PLUS] || (last && level == [HASH])))
  }

  predicate LevelsOk(ls: seq<seq<Byte>>, filter: bool) {
    ls == [] || (LevelOk(ls[0], filter, |ls| == 1) && LevelsOk(ls[1..], filter))
  }

  /** The test of emqtt_topic_valid at position `i`. */
  predicate CharOk(s: seq<Byte>, i: nat, filter: bool, start: bool)
    requires i < |s|
  {
    var opens := if i == 0 then start else s[i - 1] == SLASH;
    && (s[i] == HASH ==> filter && i + 1 == |s| && opens)
    && (s[i] == PLUS ==> filter && opens && (i + 1 < |s| ==> s[i + 1] == SLASH))
  }

  predicate CharsOk(s: seq<Byte>, filter: bool, start: bool) {
    forall i :: 0 <= i < |s| ==> CharOk(s, i, filter, start)
  }

  lemma CharsOkStep(s: seq<Byte>, filter: bool, start: bool)
    requires s != []
    ensures CharsOk(s, filter, start) <==> CharOk(s, 0, filter, start) && CharsOk(s[1..], filter, s[0] == SLASH)
  {
    var t, st := s[1..], s[0] == SLASH;
    assert forall i :: 0 <= i < |t| ==> (CharOk(t, i, filter, st) <==> CharOk(s, i + 1, filter, start));
    if CharOk(s, 0, filter, start) && CharsOk(t, filter, st) {
      forall i | 0 <= i < |s| ensures CharOk(s, i, filter, start) {
        if i > 0 { assert CharOk(t, i - 1, filter, st); }
      }
    }
  }

  /** Position by position is level by level. `start` false: the first level is the
      rest of one already begun, so it may hold no wildcard. */
  lemma {:induction false} CharsOkIffLevelsOk(s: seq<Byte>, filter: bool, start: bool)
    ensures CharsOk(s, filter, start) <==>
            (if start then LevelsOk(Levels(s), filter)
             else WildcardFree(Levels(s)[0]) && LevelsOk(Levels(s)[1..], filter))
  {
    if s == [] {
      assert Levels(s) == [[]];
      assert LevelsOk(Levels(s)[1..], filter);
    } else {
      var r := Levels(s[1..]);
      CharsOkStep(s, filter, start);
      CharsOkIffLevelsOk(s[1..], filter, s[0] == SLASH);
      if s[0] == SLASH {
        assert Levels(s) == [[]] + r && Levels(s)[1..] == r;
      } else {
        var l := [s[0]] + r[0];
        assert Levels(s)[0] == l && Levels(s)[1..] == r[1..];
        assert r[0] == [] <==> s[1..] == [] || s[1] == SLASH;
        assert r == [[]] <==> s[1..] == [];
        assert WildcardFree(l) <==> s[0] != HASH && s[0] != PLUS && WildcardFree(r[0]);
        if s[0] == PLUS || s[0] == HASH {
          assert LevelOk(l, filter, |r| == 1) <==> filter && r[0] == [] && (s[0] == PLUS || |r| == 1);
        } else {
          assert LevelOk(l, filter, |r| == 1) <==> WildcardFree(l);
        }
      }
    }
  }

  ghost predicate TopicOk(topic: seq<Byte>, filter: bool) {
    1 <= |topic| <= TOPIC_MAX && IsText(topic) && LevelsOk(Levels(topic), filter)
  }

  /** No wildcard anywhere in a topic name; in a filter "+" only as a whole level, and "#"
      only as the whole last one. */
  predicate WildcardsOk(ls: seq<seq<Byte>>, filter: bool) {
    forall i :: 0 <= i < |ls| ==>
      || (35 !in ls[i] && 43 !in ls[i])
      || (filter && ls[i] == [43])
      || (filter && ls[i] == [35] && i == |ls| - 1)
  }

  lemma {:induction false} LevelsMean(ls: seq<seq<Byte>>, filter: bool)
    ensures LevelsOk(ls, filter) <==> WildcardsOk(ls, filter)
  {
    if ls != [] {
      LevelsMean(ls[1..], filter);
      assert forall i :: 0 < i < |ls| ==> ls[i] == ls[1..][i - 1];
    }
  }

  /** One to 256 bytes of text, with wildcards where they may be. */
  lemma TopicMeans(topic: seq<Byte>, filter: bool)
    ensures TopicOk(topic, filter) <==>
            1 <= |topic| <= 256 && IsText(topic) && WildcardsOk(Levels(topic), filter)
  {
    LevelsMean(Levels(topic), filter);
    hide IsText, Levels, LevelsOk, WildcardsOk;
  }

  /** emqtt_topic_valid accepts exactly the well-formed topic names, or filters. */
  method TopicValid(topic: seq<Byte>, filter: bool) returns (ok: bool)
    ensures ok <==> TopicOk(topic, filter)
  {
    if |topic| == 0 || |topic| > TOPIC_MAX { return false; }
    ok := IsUtf8(topic);
    if !ok { return; }
    CharsOkIffLevelsOk(topic, filter, true);
    for i := 0 to |topic|
      invariant forall j :: 0 <= j < i ==> CharOk(topic, j, filter, true)
    {
      if topic[i] == HASH && (!filter || i + 1 != |topic| || (i > 0 && topic[i - 1] != SLASH)) {
        assert !CharOk(topic, i, filter, true);
        return false;
      }
      if topic[i] == PLUS && (!filter || (i > 0 && topic[i - 1] != SLASH)
                              || (i + 1 < |topic| && topic[i + 1] != SLASH)) {
        assert !CharOk(topic, i, filter, true);
        return false;
      }
    }
    return true;
  }
}
