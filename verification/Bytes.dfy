/** Bytes, big-endian numbers and the MQTT variable byte integer.

    Bit tests of the C code are written with division and remainder by powers of
    two: `b & 0x7f` is `b % 128`, `(b & 0x80) == 0` is `b < 128`. */
module Bytes {

  type Byte = b: int | 0 <= b < 256

  datatype Option<+T> = None | Some(value: T)

  /** The two length bytes of lib/mqtt_msg.c: the number is truncated to 16 bits. */
  function Be16(n: nat): (s: seq<Byte>)
    ensures |s| == 2
  {
    [n / 256 % 256, n % 256]
  }

  function FromBe16(hi: Byte, lo: Byte): (n: nat)
    ensures n < 65536
  {
    hi * 256 + lo
  }

  function Be32(n: nat): (s: seq<Byte>)
    ensures |s| == 4
  {
    [n / 16777216 % 256, n / 65536 % 256, n / 256 % 256, n % 256]
  }

  function FromBe32(a: Byte, b: Byte, c: Byte, d: Byte): (n: nat) {
    a * 16777216 + b * 65536 + c * 256 + d
  }

  lemma Be16RoundTrip(n: nat)
    requires n < 65536
    ensures FromBe16(Be16(n)[0], Be16(n)[1]) == n
  {
  }

  lemma Be32RoundTrip(n: nat)
    requires n < 0x1_0000_0000
    ensures var s := Be32(n); FromBe32(s[0], s[1], s[2], s[3]) == n
  {
    var a, b, c := n / 16777216, n / 65536, n / 256;
    assert b == c / 256 && a == b / 256;
    assert n == c * 256 + n % 256;
    assert c == b * 256 + c % 256;
    assert b == a * 256 + b % 256;
  }

  /** A length-prefixed string, as append_string and append_property write it. */
  function Str(s: seq<Byte>): (r: seq<Byte>)
    ensures |r| == |s| + 2
  {
    Be16(|s|) + s
  }

  // ---------------------------------------------------------------- variable byte integer

  const MAX_VARINT: nat := 0x1000_0000

  /** Shortest encoding, 7 bits a byte, least significant group first. */
  function Varint(n: nat): (s: seq<Byte>)
    ensures |s| >= 1
  {
    if n < 128 then [n] else [n % 128 + 128] + Varint(n / 128)
  }

  /** 128 to the k. */
  function Pow128(k: nat): (p: nat)
    ensures p >= 1
  {
    if k == 0 then 1 else 128 * Pow128(k - 1)
  }

  lemma {:induction false} VarintLength(n: nat, k: nat)
    requires k >= 1 && n < Pow128(k)
    ensures |Varint(n)| <= k
  {
    if n >= 128 {
      assert k > 1;
      assert n / 128 < Pow128(k - 1);
      VarintLength(n / 128, k - 1);
    }
  }

  lemma VarintAtMostFour(n: nat)
    requires n < MAX_VARINT
    ensures |Varint(n)| <= 4
  {
    assert Pow128(4) == MAX_VARINT by {
      assert Pow128(1) == 128; assert Pow128(2) == 16384; assert Pow128(3) == 2097152;
    }
    VarintLength(n, 4);
  }

  /** What a decoder limited to `n` bytes reads from the front of `s`: the value of
      the groups seen, how many bytes they took, and whether the last one closed. */
  datatype Scanned = Scanned(value: nat, used: nat, closed: bool)

  function Scan(s: seq<Byte>, n: nat): (r: Scanned)
    ensures r.used <= |s| && r.used <= n
    ensures r.closed ==> r.used >= 1 && s[r.used - 1] < 128
    ensures !r.closed && r.used < n ==> r.used == |s|
    ensures !r.closed && r.used >= 1 ==> s[r.used - 1] >= 128
  {
    if n == 0 || s == [] then Scanned(0, 0, false)
    else if s[0] < 128 then Scanned(s[0], 1, true)
    else
      var rest := Scan(s[1..], n - 1);
      Scanned(s[0] % 128 + 128 * rest.value, 1 + rest.used, rest.closed)
  }

  /** Decoding an encoded number gives it back whatever follows it. */
  lemma {:induction false} ScanVarint(n: nat, tail: seq<Byte>, k: nat)
    requires k >= 1 && n < Pow128(k)
    ensures Scan(Varint(n) + tail, k) == Scanned(n, |Varint(n)|, true)
  {
    var s := Varint(n) + tail;
    if n < 128 {
      assert s[0] == n;
    } else {
      assert k > 1 && n / 128 < Pow128(k - 1);
      assert s[0] == n % 128 + 128;
      assert s[1..] == Varint(n / 128) + tail;
      ScanVarint(n / 128, tail, k - 1);
      assert n == n % 128 + 128 * (n / 128);
    }
  }

  /** The groups read one at a time from position `k`, as the C loops do it. */
  lemma {:induction false} ScanStep(s: seq<Byte>, n: nat, k: nat)
    requires k < n && k < |s| && (forall j :: 0 <= j < k ==> s[j] >= 128)
    ensures Scan(s, n).used >= k + 1
    ensures s[k] < 128 ==> Scan(s, n).closed && Scan(s, n).used == k + 1
  {
    if k > 0 {
      assert forall j :: 0 <= j < k - 1 ==> s[1..][j] == s[j + 1];
      ScanStep(s[1..], n - 1, k - 1);
    }
  }

  /** Value of the first `k` groups of `s`. */
  function Groups(s: seq<Byte>, k: nat): (v: nat)
    requires k <= |s|
  {
    if k == 0 then 0 else s[0] % 128 + 128 * Groups(s[1..], k - 1)
  }

  lemma {:induction false} GroupsSnoc(s: seq<Byte>, k: nat)
    requires k < |s|
    ensures Groups(s, k + 1) == Groups(s, k) + (s[k] % 128) * Pow128(k)
  {
    if k == 0 {
      assert Groups(s, 1) == s[0] % 128 + 128 * Groups(s[1..], 0);
    } else {
      GroupsSnoc(s[1..], k - 1);
      assert s[1..][k - 1] == s[k];
      var g := s[k] % 128;
      assert 128 * (g * Pow128(k - 1)) == g * (128 * Pow128(k - 1));
    }
  }

  lemma {:induction false} ScanIsGroups(s: seq<Byte>, n: nat)
    ensures Scan(s, n).value == Groups(s, Scan(s, n).used)
  {
    if n > 0 && s != [] && s[0] >= 128 {
      ScanIsGroups(s[1..], n - 1);
    }
  }

  /** get_variable_len of lib/mqtt5_msg.c: at most four bytes; an integer still open
      after four bytes counts as no bytes at all. */
  function VariableLen(s: seq<Byte>): (r: (nat, nat))
    ensures r.1 <= |s| && r.1 <= 4
  {
    var sc := Scan(s, 4);
    if sc.used == 4 && !sc.closed then (0, 0) else (sc.value, sc.used)
  }

  lemma VariableLenOfVarint(n: nat, tail: seq<Byte>)
    requires n < MAX_VARINT
    ensures VariableLen(Varint(n) + tail) == (n, |Varint(n)|)
  {
    assert Pow128(4) == MAX_VARINT by {
      assert Pow128(1) == 128; assert Pow128(2) == 16384; assert Pow128(3) == 2097152;
    }
    ScanVarint(n, tail, 4);
  }

  /** Different lengths show in the bytes, whatever follows. */
  lemma VarintTells(m: nat, n: nat, tail: seq<Byte>)
    requires m < MAX_VARINT && n < MAX_VARINT
    ensures Varint(m) + tail == Varint(n) + tail <==> m == n
  {
    VariableLenOfVarint(m, tail);
    VariableLenOfVarint(n, tail);
  }

  /** generate_variable_len: the do-while loop that fills `encoded_lens`. */
  method GenerateVariableLen(len: nat) returns (encoded: seq<Byte>)
    ensures encoded == Varint(len)
  {
    encoded := [];
    var rest := len;
    var open := true;
    while open
      invariant open ==> encoded + Varint(rest) == Varint(len)
      invariant !open ==> encoded == Varint(len)
      decreases open, rest
    {
      var i := rest % 128;
      ghost var before := rest;
      rest := rest / 128;
      if rest > 0 {
        i := i + 128;
        assert Varint(before) == [i] + Varint(rest);
        assert (encoded + [i]) + Varint(rest) == encoded + ([i] + Varint(rest));
      }
      encoded := encoded + [i];
      open := rest > 0;
    }
  }

  /** get_variable_len as the loop over a buffer from `offset`. */
  method GetVariableLen(buffer: seq<Byte>, offset: nat) returns (len: nat, lenBytes: nat)
    requires offset <= |buffer|
    ensures (len, lenBytes) == VariableLen(buffer[offset..])
  {
    ghost var s := buffer[offset..];
    len := 0;
    var i := offset;
    var closed := false;
    while i < |buffer| && i - offset < 4 && !closed
      invariant offset <= i <= |buffer| && i - offset <= 4
      invariant !closed ==> forall j :: 0 <= j < i - offset ==> s[j] >= 128
      invariant closed ==> i > offset && s[i - offset - 1] < 128
                           && forall j :: 0 <= j < i - offset - 1 ==> s[j] >= 128
      invariant len == Groups(s, i - offset)
      decreases |buffer| - i, !closed
    {
      assert s[i - offset] == buffer[i];
      GroupsSnoc(s, i - offset);
      len := len + (buffer[i] % 128) * Pow128(i - offset);
      closed := buffer[i] < 128;
      i := i + 1;
    }
    if i > offset { ScanStep(s, 4, i - offset - 1); }
    ScanIsGroups(s, 4);
    if i - offset == 4 && !closed {
      return 0, 0;
    }
    lenBytes := i - offset;
  }
}
