/** CoopBreakableSync.cpp: the Base64 text of a glass impact, which is the padded encoding of section 4 of RFC 4648.
    Shifts and masks are written as division and remainder. */
module GlassPayload {

  datatype Option<+T> = None | Some(value: T)

  type Byte = n: int | 0 <= n < 256

  type Sextet = n: int | 0 <= n < 64

  /** Table 1 of RFC 4648. */
  function Letter(n: Sextet): char {
    if n < 26 then 'A' + n as char
    else if n < 52 then 'a' + (n - 26) as char
    else if n < 62 then '0' + (n - 52) as char
    else if n == 62 then '+'
    else '/'
  }

  /** DecodeGlassBase64Character. */
  function Value(c: char): (v: int)
    ensures -1 <= v < 64
  {
    if 'A' <= c <= 'Z' then (c - 'A') as int
    else if 'a' <= c <= 'z' then (c - 'a') as int + 26
    else if '0' <= c <= '9' then (c - '0') as int + 52
    else if c == '+' then 62
    else if c == '/' then 63
    else -1
  }

  lemma LettersAreValues(n: Sextet, c: char)
    ensures Value(Letter(n)) == n && Letter(n) != '='
    ensures Value(c) >= 0 ==> Letter(Value(c)) == c
  {
  }

  // ---- Bits: three bytes are four sextets ----------------------------------------------------

  function First(a: Byte): Sextet { a / 4 }

  function Second(a: Byte, b: Byte): Sextet { a % 4 * 16 + b / 16 }

  function Third(b: Byte, c: Byte): Sextet { b % 16 * 4 + c / 64 }

  function Fourth(c: Byte): Sextet { c % 64 }

  function High(s: Sextet, t: Sextet): Byte { s * 4 + t / 16 }

  function Middle(t: Sextet, u: Sextet): Byte { t % 16 * 16 + u / 4 }

  function Low(u: Sextet, v: Sextet): Byte { u % 4 * 64 + v }

  /** A shift to the right and a mask. */
  function Field(value: int, divisor: int, modulus: int): int
    requires divisor > 0 && modulus > 0
  {
    value / divisor % modulus
  }

  lemma SextetsOfBytes(a: Byte, b: Byte, c: Byte)
    ensures High(First(a), Second(a, b)) == a
    ensures Middle(Second(a, b), Third(b, c)) == b
    ensures Low(Third(b, c), Fourth(c)) == c
  {
  }

  function Joined(a: int, b: int, c: int): int {
    a * 65536 + b * 256 + c
  }

  function JoinedSextets(s: int, t: int, u: int, v: int): int {
    s * 262144 + t * 4096 + u * 64 + v
  }

  lemma Split64(k: int, r: int)
    requires 0 <= r < 64
    ensures (k * 64 + r) / 64 == k && (k * 64 + r) % 64 == r
  {
  }

  lemma Split256(k: int, r: int)
    requires 0 <= r < 256
    ensures (k * 256 + r) / 256 == k && (k * 256 + r) % 256 == r
  {
  }

  lemma Split4096(k: int, r: int)
    requires 0 <= r < 4096
    ensures (k * 4096 + r) / 4096 == k
  {
  }

  lemma Split65536(k: int, r: int)
    requires 0 <= r < 65536
    ensures (k * 65536 + r) / 65536 == k
  {
  }

  lemma Split262144(k: int, r: int)
    requires 0 <= r < 262144
    ensures (k * 262144 + r) / 262144 == k
  {
  }

  /** What the encoder cuts out of the 24 bits it puts together. */
  lemma CutSextets(a: Byte, b: Byte, c: Byte)
    ensures var value := Joined(a, b, c);
            && Field(value, 262144, 64) == First(a) && Field(value, 4096, 64) == Second(a, b)
            && Field(value, 64, 64) == Third(b, c) && Field(value, 1, 64) == Fourth(c)
  {
    hide *;
    CutFirst(a, b, c);
    CutSecond(a, b, c);
    CutThird(a, b, c);
    CutFourth(a, b, c);
  }

  lemma CutFirst(a: Byte, b: Byte, c: Byte)
    ensures Field(Joined(a, b, c), 262144, 64) == First(a)
  {
    Split262144(a / 4, a % 4 * 65536 + b as int * 256 + c);
    Split64(0, a / 4);
  }

  lemma CutSecond(a: Byte, b: Byte, c: Byte)
    ensures Field(Joined(a, b, c), 4096, 64) == Second(a, b)
  {
    Split4096(a as int * 16 + b / 16, b % 16 * 256 + c);
    Split64(a / 4, a % 4 * 16 + b / 16);
  }

  lemma CutThird(a: Byte, b: Byte, c: Byte)
    ensures Field(Joined(a, b, c), 64, 64) == Third(b, c)
  {
    Split64(a as int * 1024 + b as int * 4 + c / 64, c % 64);
    Split64(a as int * 16 + b / 16, b % 16 * 4 + c / 64);
  }

  lemma CutFourth(a: Byte, b: Byte, c: Byte)
    ensures Field(Joined(a, b, c), 1, 64) == Fourth(c)
  {
    Split64(a as int * 1024 + b as int * 4 + c / 64, c % 64);
  }

  /** What the decoder cuts out of the 24 bits it puts together. */
  lemma CutBytes(s: Sextet, t: Sextet, u: Sextet, v: Sextet)
    ensures var value := JoinedSextets(s, t, u, v);
            && Field(value, 65536, 256) == High(s, t) && Field(value, 256, 256) == Middle(t, u)
               && Field(value, 1, 256) == Low(u, v)
  {
    hide *;
    CutHigh(s, t, u, v);
    CutMiddle(s, t, u, v);
    CutLow(s, t, u, v);
  }

  lemma CutHigh(s: Sextet, t: Sextet, u: Sextet, v: Sextet)
    ensures Field(JoinedSextets(s, t, u, v), 65536, 256) == High(s, t)
  {
    Split65536(High(s, t), t % 16 * 4096 + u as int * 64 + v);
    Split256(0, High(s, t));
  }

  lemma CutMiddle(s: Sextet, t: Sextet, u: Sextet, v: Sextet)
    ensures Field(JoinedSextets(s, t, u, v), 256, 256) == Middle(t, u)
  {
    Split256(High(s, t) as int * 256 + Middle(t, u), u % 4 * 64 + v);
    Split256(High(s, t), Middle(t, u));
  }

  lemma CutLow(s: Sextet, t: Sextet, u: Sextet, v: Sextet)
    ensures Field(JoinedSextets(s, t, u, v), 1, 256) == Low(u, v)
  {
    Split256(s as int * 1024 + t as int * 16 + u / 4, Low(u, v));
  }

  // ---- The encoding of section 4 of RFC 4648 -------------------------------------------------

  /** The bits of up to three bytes regrouped by six, with padding for the bytes that are missing. */
  function Quantum(bytes: seq<Byte>): (text: string)
    requires 1 <= |bytes| <= 3
    ensures |text| == 4
  {
    var a, b, c := bytes[0], if |bytes| > 1 then bytes[1] else 0, if |bytes| > 2 then bytes[2] else 0;
    [Letter(First(a)), Letter(Second(a, b)),
     if |bytes| > 1 then Letter(Third(b, c)) else '=', if |bytes| > 2 then Letter(Fourth(c)) else '=']
  }

  function Encoded(bytes: seq<Byte>): (text: string)
  {
    if |bytes| == 0 then "" else if |bytes| <= 3 then Quantum(bytes) else Quantum(bytes[..3]) + Encoded(bytes[3..])
  }

  function Quanta(size: nat): nat {
    (size + 2) / 3
  }

  function EncodedSize(size: nat): nat {
    Quanta(size) * 4
  }

  lemma {:induction false} SizeOfEncoded(bytes: seq<Byte>)
    ensures |Encoded(bytes)| == EncodedSize(|bytes|)
  {
    FewQuanta(|bytes|);
    hide Quanta, Quantum;
    if |bytes| > 3 {
      SizeOfEncoded(bytes[3..]);
      OneQuantumMore(|bytes|);
    }
  }

  lemma FewQuanta(n: nat)
    ensures n <= 3 ==> Quanta(n) == if n == 0 then 0 else 1
  {
  }

  lemma OneQuantumMore(n: nat)
    requires n >= 3
    ensures Quanta(n) == 1 + Quanta(n - 3)
  {
  }

  method EncodeGlassPayload(bytes: seq<Byte>) returns (encoded: string)
    ensures encoded == Encoded(bytes)
  {
    encoded := "";
    var i := 0;
    while i < |bytes|
      invariant 0 <= i && (i >= |bytes| ==> encoded == Encoded(bytes))
      invariant i < |bytes| ==> encoded + Encoded(bytes[i..]) == Encoded(bytes)
    {
      EncodedStep(bytes, i, encoded);
      encoded := EncodeGroup(bytes, i, encoded);
      i := i + 3;
      hide Quantum, Encoded;
    }
  }

  function Group(bytes: seq<Byte>, i: nat): (group: seq<Byte>)
    requires i < |bytes|
    ensures 1 <= |group| <= 3
  {
    if i + 3 <= |bytes| then bytes[i..i + 3] else bytes[i..]
  }

  lemma EncodedStep(bytes: seq<Byte>, i: nat, done: string)
    requires i < |bytes|
    ensures done + Encoded(bytes[i..]) ==
            done + Quantum(Group(bytes, i)) + if i + 3 < |bytes| then Encoded(bytes[i + 3..]) else ""
  {
    var rest := bytes[i..];
    if i + 3 < |bytes| {
      assert rest[..3] == Group(bytes, i) && rest[3..] == bytes[i + 3..];
    } else {
      assert rest == Group(bytes, i);
    }
    hide Quantum;
  }

  lemma QuantumOfGroup(bytes: seq<Byte>, i: nat, a: Byte, b: Byte, c: Byte)
    requires i < |bytes| && a == bytes[i]
    requires b == (if i + 1 < |bytes| then bytes[i + 1] else 0) && c == (if i + 2 < |bytes| then bytes[i + 2] else 0)
    ensures Quantum(Group(bytes, i)) ==
            [Letter(First(a)), Letter(Second(a, b)),
             if i + 1 < |bytes| then Letter(Third(b, c)) else '=', if i + 2 < |bytes| then Letter(Fourth(c)) else '=']
  {
    hide Letter, First, Second, Third, Fourth;
  }

  method EncodeGroup(bytes: seq<Byte>, i: nat, before: string) returns (encoded: string)
    requires i < |bytes|
    ensures encoded == before + Quantum(Group(bytes, i))
  {
    hide *;
    var a := bytes[i];
    var b := if i + 1 < |bytes| then bytes[i + 1] else 0;
    var c := if i + 2 < |bytes| then bytes[i + 2] else 0;
    QuantumOfGroup(bytes, i, a, b, c);
    encoded := PushQuantum(a, b, c, i + 1 < |bytes|, i + 2 < |bytes|, before);
  }

  method PushQuantum(a: Byte, b: Byte, c: Byte, hasSecond: bool, hasThird: bool, before: string)
      returns (encoded: string)
    ensures encoded == before + [Letter(First(a)), Letter(Second(a, b)),
                                 if hasSecond then Letter(Third(b, c)) else '=',
                                 if hasThird then Letter(Fourth(c)) else '=']
  {
    var value := Joined(a, b, c);
    CutSextets(a, b, c);
    hide *;
    encoded := before;
    encoded := encoded + [Letter(Field(value, 262144, 64))];
    encoded := encoded + [Letter(Field(value, 4096, 64))];
    encoded := encoded + [if hasSecond then Letter(Field(value, 64, 64)) else '='];
    encoded := encoded + [if hasThird then Letter(Field(value, 1, 64)) else '='];
  }

  // ---- The decoder ---------------------------------------------------------------------------

  /** A character of a text; in the last two places of a quantum the padding reads as zero. */
  function ValueAt(group: string, k: nat): (v: int)
    requires |group| == 4 && k < 4
    ensures v < 64
  {
    if k >= 2 && group[k] == '=' then 0 else Value(group[k])
  }

  predicate IsGroup(group: string) {
    |group| == 4 && ValueAt(group, 0) >= 0 && ValueAt(group, 1) >= 0 && ValueAt(group, 2) >= 0 && ValueAt(group, 3) >= 0
  }

  function Unpadded(group: string, x: Byte, y: Byte, z: Byte): (bytes: seq<Byte>)
    requires |group| == 4
    ensures 1 <= |bytes| <= 3
  {
    [x] + (if group[2] == '=' then [] else [y]) + (if group[3] == '=' then [] else [z])
  }

  /** The bytes a group offers; the decoder takes as many as there is room for. */
  function Offered(group: string): (bytes: seq<Byte>)
    requires IsGroup(group)
    ensures 1 <= |bytes| <= 3
  {
    var s, t, u, v := ValueAt(group, 0), ValueAt(group, 1), ValueAt(group, 2), ValueAt(group, 3);
    Unpadded(group, High(s, t), Middle(t, u), Low(u, v))
  }

  function Pushed(out: seq<Byte>, more: seq<Byte>, size: nat): (r: seq<Byte>)
    requires |out| <= size
    ensures |r| <= size
  {
    if |out + more| <= size then out + more else (out + more)[..size]
  }

  function DecodedFrom(text: string, out: seq<Byte>, size: nat): (r: Option<seq<Byte>>)
    requires |out| <= size
    ensures r.Some? ==> |r.value| == size
  {
    if |text| < 4 then if |out| == size then Some(out) else None
    else if IsGroup(text[..4]) then DecodedFrom(text[4..], Pushed(out, Offered(text[..4]), size), size)
    else None
  }

  function Decoded(text: string, size: nat): Option<seq<Byte>> {
    if |text| != EncodedSize(size) then None else DecodedFrom(text, [], size)
  }

  lemma QuantumValues(bytes: seq<Byte>)
    requires 1 <= |bytes| <= 3
    ensures var a, b, c := bytes[0], if |bytes| > 1 then bytes[1] else 0, if |bytes| > 2 then bytes[2] else 0;
            var q := Quantum(bytes);
            && ValueAt(q, 0) == First(a) && ValueAt(q, 1) == Second(a, b)
            && ValueAt(q, 2) == (if |bytes| > 1 then Third(b, c) else 0) && (q[2] == '=' <==> |bytes| <= 1)
            && ValueAt(q, 3) == (if |bytes| > 2 then Fourth(c) else 0) && (q[3] == '=' <==> |bytes| <= 2)
  {
    var a, b, c := bytes[0], if |bytes| > 1 then bytes[1] else 0, if |bytes| > 2 then bytes[2] else 0;
    LettersAreValues(First(a), 'A');
    LettersAreValues(Second(a, b), 'A');
    LettersAreValues(Third(b, c), 'A');
    LettersAreValues(Fourth(c), 'A');
    hide Letter, Value, First, Second, Third, Fourth;
  }

  lemma QuantumIsGroup(bytes: seq<Byte>)
    requires 1 <= |bytes| <= 3
    ensures IsGroup(Quantum(bytes))
  {
    QuantumValues(bytes);
    hide Quantum, ValueAt, First, Second, Third, Fourth;
  }

  lemma OfferedParts(q: string)
    requires IsGroup(q)
    ensures var s, t, u, v := ValueAt(q, 0), ValueAt(q, 1), ValueAt(q, 2), ValueAt(q, 3);
            && 0 <= s < 64 && 0 <= t < 64 && 0 <= u < 64 && 0 <= v < 64
            && Offered(q) == Unpadded(q, High(s, t), Middle(t, u), Low(u, v))
  {
    hide ValueAt, Unpadded, High, Middle, Low;
  }

  lemma HighOfQuantum(bytes: seq<Byte>)
    requires 1 <= |bytes| <= 3
    ensures IsGroup(Quantum(bytes)) && High(ValueAt(Quantum(bytes), 0), ValueAt(Quantum(bytes), 1)) == bytes[0]
  {
    var a, b, c := bytes[0], if |bytes| > 1 then bytes[1] else 0, if |bytes| > 2 then bytes[2] else 0;
    hide *;
    QuantumIsGroup(bytes);
    QuantumValues(bytes);
    SextetsOfBytes(a, b, c);
  }

  lemma RestOfQuantum(bytes: seq<Byte>, q: string, t: Sextet, u: Sextet, v: Sextet)
    requires 1 <= |bytes| <= 3 && q == Quantum(bytes) && t == ValueAt(q, 1) && u == ValueAt(q, 2) && v == ValueAt(q, 3)
    ensures Unpadded(q, bytes[0], Middle(t, u), Low(u, v)) == bytes
  {
    var a, b, c := bytes[0], if |bytes| > 1 then bytes[1] else 0, if |bytes| > 2 then bytes[2] else 0;
    hide *;
    QuantumValues(bytes);
    SextetsOfBytes(a, b, c);
    UnpaddedIsPrefix(q, bytes, Middle(t, u), Low(u, v));
  }

  lemma QuantumIsOffered(bytes: seq<Byte>)
    requires 1 <= |bytes| <= 3
    ensures IsGroup(Quantum(bytes)) && Offered(Quantum(bytes)) == bytes
  {
    hide *;
    QuantumIsGroup(bytes);
    var q := Quantum(bytes);
    OfferedParts(q);
    HighOfQuantum(bytes);
    RestOfQuantum(bytes, q, ValueAt(q, 1), ValueAt(q, 2), ValueAt(q, 3));
  }

  lemma UnpaddedIsPrefix(group: string, bytes: seq<Byte>, y: Byte, z: Byte)
    requires |group| == 4 && 1 <= |bytes| <= 3 && (group[2] == '=' <==> |bytes| <= 1)
             && (group[3] == '=' <==> |bytes| <= 2)
    requires (|bytes| > 1 ==> y == bytes[1]) && (|bytes| > 2 ==> z == bytes[2])
    ensures Unpadded(group, bytes[0], y, z) == bytes
  {
  }

  lemma NextGroup(group: string, rest: string, out: seq<Byte>, size: nat)
    requires |out| <= size && IsGroup(group)
    ensures DecodedFrom(group + rest, out, size) == DecodedFrom(rest, Pushed(out, Offered(group), size), size)
  {
    assert (group + rest)[..4] == group && (group + rest)[4..] == rest;
    hide IsGroup, Offered, Pushed;
  }

  lemma EncodedFromFront(bytes: seq<Byte>, n: nat)
    requires bytes != [] && n == (if |bytes| < 3 then |bytes| else 3)
    ensures Encoded(bytes) == Quantum(bytes[..n]) + Encoded(bytes[n..])
  {
    if |bytes| <= 3 {
      assert bytes[..n] == bytes && bytes[n..] == [] && Quantum(bytes) + "" == Quantum(bytes);
    }
    hide Quantum;
  }

  lemma AllPushed(out: seq<Byte>, more: seq<Byte>, size: nat)
    requires |out| + |more| <= size
    ensures Pushed(out, more, size) == out + more
  {
  }

  lemma Rejoined(out: seq<Byte>, bytes: seq<Byte>, n: nat)
    requires n <= |bytes|
    ensures (out + bytes[..n]) + bytes[n..] == out + bytes
  {
  }

  lemma {:induction false} DecodedFromEncoded(bytes: seq<Byte>, out: seq<Byte>, size: nat)
    requires size == |out| + |bytes|
    ensures DecodedFrom(Encoded(bytes), out, size) == Some(out + bytes)
  {
    if |bytes| == 0 {
      assert out + bytes == out;
    } else {
      var n := if |bytes| < 3 then |bytes| else 3;
      hide *;
      var head, tail := bytes[..n], bytes[n..];
      QuantumIsOffered(head);
      EncodedFromFront(bytes, n);
      NextGroup(Quantum(head), Encoded(tail), out, size);
      AllPushed(out, head, size);
      DecodedFromEncoded(tail, out + head, size);
      Rejoined(out, bytes, n);
    }
  }

  lemma DecodedOf(text: string, size: nat)
    ensures |text| == EncodedSize(size) ==> Decoded(text, size) == DecodedFrom(text, [], size)
  {
  }

  /** For every payload the decoder undoes the encoder; so no two payloads have one text. */
  lemma PayloadRoundTrip(bytes: seq<Byte>)
    ensures Decoded(Encoded(bytes), |bytes|) == Some(bytes)
  {
    assert [] + bytes == bytes;
    hide *;
    DecodedFromEncoded(bytes, [], |bytes|);
    SizeOfEncoded(bytes);
    DecodedOf(Encoded(bytes), |bytes|);
  }

  method DecodeGlassPayload(encoded: string, size: nat) returns (payload: Option<seq<Byte>>)
    ensures payload == Decoded(encoded, size)
  {
    if |encoded| != EncodedSize(size) {
      return None;
    }
    var bytes := new Byte[size](i => 0);
    var output, i := 0, 0;
    ghost var k := 0;
    while i < |encoded|
      invariant 0 <= k <= Quanta(size) && i == 4 * k && 0 <= output <= bytes.Length == size
      invariant DecodedFrom(encoded[i..], bytes[..output], size) == Decoded(encoded, size)
    {
      hide IsGroup, Offered, Pushed, Decoded, Quanta;
      GroupStep(encoded, i, bytes[..output], size);
      if !IsGroup(encoded[i..i + 4]) {
        return None;
      }
      output := PushGroup(bytes, output, encoded[i..i + 4]);
      i, k := i + 4, k + 1;
      hide DecodedFrom;
    }
    if output != bytes.Length {
      return None;
    }
    assert encoded[i..] == "" && bytes[..output] == bytes[..];
    return Some(bytes[..]);
  }

  lemma GroupStep(text: string, i: nat, out: seq<Byte>, size: nat)
    requires |out| <= size && i + 4 <= |text|
    ensures DecodedFrom(text[i..], out, size) ==
            if IsGroup(text[i..i + 4]) then
              DecodedFrom(text[i + 4..], Pushed(out, Offered(text[i..i + 4]), size), size)
            else None
  {
    var rest := text[i..];
    assert rest[..4] == text[i..i + 4] && rest[4..] == text[i + 4..];
    hide IsGroup, Offered, Pushed;
  }

  method PushGroup(bytes: array<Byte>, start: nat, group: string) returns (output: nat)
    requires start <= bytes.Length && IsGroup(group)
    modifies bytes
    ensures output <= bytes.Length && bytes[..output] == Pushed(old(bytes[..start]), Offered(group), bytes.Length)
  {
    var s, t, u, v := ValueAt(group, 0), ValueAt(group, 1), ValueAt(group, 2), ValueAt(group, 3);
    var value := JoinedSextets(s, t, u, v);
    OfferedParts(group);
    CutBytes(s, t, u, v);
    hide ValueAt, High, Middle, Low, IsGroup, Offered, Field, JoinedSextets;
    output := start;
    if output < bytes.Length {
      bytes[output], output := Field(value, 65536, 256), output + 1;
    }
    if output < bytes.Length && group[2] != '=' {
      bytes[output], output := Field(value, 256, 256), output + 1;
    }
    if output < bytes.Length && group[3] != '=' {
      bytes[output], output := Field(value, 1, 256), output + 1;
    }
  }

  // ---- When the encoder undoes the decoder ---------------------------------------------------

  /** The bytes the last quantum lacks. */
  function Missing(size: nat): (n: nat)
    ensures n < 3
  {
    (3 - size % 3) % 3
  }

  /** Exactly the characters of the missing bytes, which are the last ones, are padding; and the bits of the last
      letter that belong to no byte are zero. */
  predicate Canonical(text: string, missing: nat)
    requires missing < 3 && (missing == 0 || |text| >= 4)
  {
    && (forall i :: 0 <= i < |text| ==> (text[i] == '=' <==> |text| - missing <= i))
    && (missing == 1 ==> Value(text[|text| - 2]) % 4 == 0)
    && (missing == 2 ==> Value(text[|text| - 3]) % 16 == 0)
  }

  lemma MissingOf(n: nat)
    ensures n <= 3 ==> Missing(n) == if n == 0 then 0 else 3 - n
    ensures n >= 3 ==> Missing(n - 3) == Missing(n)
  {
  }

  lemma PaddedIsNotEmpty(text: string, size: nat)
    requires |text| == EncodedSize(size)
    ensures Missing(size) == 0 || |text| >= 4
  {
  }

  lemma CanonicalFromFront(group: string, rest: string, missing: nat)
    requires |group| == 4 && missing < 3 && |rest| >= 4
    ensures Canonical(group + rest, missing) <==> Canonical(group, 0) && Canonical(rest, missing)
  {
    var text := group + rest;
    assert forall i :: 0 <= i < |rest| ==> rest[i] == text[i + 4];
    assert forall i :: 0 <= i < 4 ==> group[i] == text[i];
    hide Value;
  }

  lemma LettersAreCanonical(q: string, s: Sextet, t: Sextet, u: Sextet, v: Sextet, n: nat)
    requires 1 <= n <= 3 && (n == 1 ==> t % 16 == 0) && (n == 2 ==> u % 4 == 0)
    requires q == [Letter(s), Letter(t), if n > 1 then Letter(u) else '=', if n > 2 then Letter(v) else '=']
    ensures Canonical(q, 3 - n)
  {
    LettersAreValues(s, 'A');
    LettersAreValues(t, 'A');
    LettersAreValues(u, 'A');
    LettersAreValues(v, 'A');
    hide Letter, Value;
  }

  lemma UnusedBitsAreZero(a: Byte, b: Byte)
    ensures Second(a, 0) % 16 == 0 && Third(b, 0) % 4 == 0
  {
  }

  lemma QuantumIsCanonical(bytes: seq<Byte>)
    requires 1 <= |bytes| <= 3
    ensures Canonical(Quantum(bytes), 3 - |bytes|)
  {
    hide Canonical, Letter, First, Second, Third, Fourth;
    var a, b, c := bytes[0], if |bytes| > 1 then bytes[1] else 0, if |bytes| > 2 then bytes[2] else 0;
    UnusedBitsAreZero(a, b);
    LettersAreCanonical(Quantum(bytes), First(a), Second(a, b), Third(b, c), Fourth(c), |bytes|);
  }

  lemma {:induction false} EncodedIsCanonical(bytes: seq<Byte>)
    ensures Missing(|bytes|) == 0 || |Encoded(bytes)| >= 4
    ensures Canonical(Encoded(bytes), Missing(|bytes|))
  {
    MissingOf(|bytes|);
    hide Canonical, Quantum, Missing;
    if |bytes| == 0 {
      NothingIsCanonical();
    } else if |bytes| <= 3 {
      QuantumIsCanonical(bytes);
    } else {
      QuantumIsCanonical(bytes[..3]);
      EncodedIsCanonical(bytes[3..]);
      NotEmpty(bytes[3..]);
      CanonicalFromFront(Quantum(bytes[..3]), Encoded(bytes[3..]), Missing(|bytes|));
    }
  }

  lemma NothingIsCanonical()
    ensures Canonical("", 0)
  {
  }

  lemma NotEmpty(bytes: seq<Byte>)
    requires bytes != []
    ensures |Encoded(bytes)| >= 4
  {
    hide Quantum;
  }

  /** The other direction of SextetsOfBytes. */
  lemma BytesOfSextets(s: Sextet, t: Sextet, u: Sextet, v: Sextet)
    ensures First(High(s, t)) == s
    ensures Second(High(s, t), Middle(t, u)) == t && (t % 16 == 0 ==> Second(High(s, t), 0) == t)
    ensures Third(Middle(t, u), Low(u, v)) == u && (u % 4 == 0 ==> Third(Middle(t, u), 0) == u)
    ensures Fourth(Low(u, v)) == v
  {
  }

  lemma ValuesAreLetters(group: string, missing: nat)
    requires IsGroup(group) && missing < 3 && Canonical(group, missing)
    ensures group[2] == '=' <==> missing == 2
    ensures group[3] == '=' <==> missing >= 1
    ensures Letter(ValueAt(group, 0)) == group[0] && Letter(ValueAt(group, 1)) == group[1]
    ensures missing < 2 ==> Letter(ValueAt(group, 2)) == group[2]
    ensures missing < 1 ==> Letter(ValueAt(group, 3)) == group[3]
    ensures missing == 1 ==> ValueAt(group, 2) % 4 == 0
    ensures missing == 2 ==> ValueAt(group, 1) % 16 == 0
  {
    LettersAreValues(0, group[0]);
    LettersAreValues(0, group[1]);
    LettersAreValues(0, group[2]);
    LettersAreValues(0, group[3]);
    hide Letter, Value;
  }

  lemma GroupIsQuantum(group: string, missing: nat)
    requires IsGroup(group) && missing < 3 && Canonical(group, missing)
    ensures |Offered(group)| == 3 - missing && Quantum(Offered(group)) == group
  {
    ValuesAreLetters(group, missing);
    OfferedParts(group);
    var s, t, u, v := ValueAt(group, 0), ValueAt(group, 1), ValueAt(group, 2), ValueAt(group, 3);
    hide Canonical, Offered, IsGroup, ValueAt, Letter, First, Second, Third, Fourth, High, Middle, Low;
    BytesOfSextets(s, t, u, v);
    assert group == [group[0], group[1], group[2], group[3]];
  }

  lemma FirstIsGroup(text: string, out: seq<Byte>, size: nat)
    requires |out| < size && DecodedFrom(text, out, size).Some?
    ensures |text| >= 4 && IsGroup(text[..4])
  {
    hide IsGroup, Offered, Pushed;
  }

  lemma LastGroup(group: string, out: seq<Byte>, size: nat)
    requires IsGroup(group) && |out| + |Offered(group)| == size
    ensures DecodedFrom(group, out, size) == Some(out + Offered(group))
    ensures Encoded((out + Offered(group))[|out|..]) == Quantum(Offered(group))
  {
    var x := Offered(group);
    assert group + "" == group && (out + x)[|out|..] == x;
    NextGroup(group, "", out, size);
    AllPushed(out, x, size);
    hide IsGroup, Offered, Pushed, Quantum;
  }

  lemma FrontEncoded(group: string, rest: string, out: seq<Byte>, x: seq<Byte>, bytes: seq<Byte>)
    requires |x| == 3 && out + x <= bytes && group == Quantum(x) && rest == Encoded(bytes[|out + x|..])
    ensures out <= bytes && group + rest == Encoded(bytes[|out|..])
  {
    var tail := bytes[|out|..];
    assert tail[..3] == x && tail[3..] == bytes[|out + x|..];
    hide Quantum, Encoded;
    EncodedFromFront(tail, 3);
  }

  lemma NothingLeft(text: string, out: seq<Byte>, size: nat)
    requires |out| == size && |text| == EncodedSize(0)
    ensures DecodedFrom(text, out, size) == Some(out) && text == Encoded(out[|out|..])
  {
  }

  lemma OnlyGroup(text: string, out: seq<Byte>, size: nat)
    requires |out| < size <= |out| + 3 && DecodedFrom(text, out, size).Some? && |text| == EncodedSize(size - |out|)
    requires Canonical(text, Missing(size - |out|))
    ensures var bytes := DecodedFrom(text, out, size).value;
            out <= bytes && text == Encoded(bytes[|out|..])
  {
    hide *;
    FirstIsGroup(text, out, size);
    OneQuantum(size - |out|);
    MissingOf(size - |out|);
    assert text[..4] == text;
    GroupIsQuantum(text, Missing(size - |out|));
    LastGroup(text, out, size);
  }

  lemma OneQuantum(n: nat)
    ensures 0 < n <= 3 ==> EncodedSize(n) == 4
    ensures n > 3 ==> EncodedSize(n) == 4 + EncodedSize(n - 3) && EncodedSize(n - 3) >= 4
  {
  }

  lemma {:induction false} CanonicalIsEncoded(text: string, out: seq<Byte>, size: nat)
    requires |out| <= size && |text| == EncodedSize(size - |out|) && DecodedFrom(text, out, size).Some?
    requires Missing(size - |out|) == 0 || |text| >= 4
    requires Canonical(text, Missing(size - |out|))
    ensures var bytes := DecodedFrom(text, out, size).value;
            out <= bytes && text == Encoded(bytes[|out|..])
    decreases |text|
  {
    hide *;
    var n := size - |out|;
    if n == 0 {
      NothingLeft(text, out, size);
    } else if n <= 3 {
      OnlyGroup(text, out, size);
    } else {
      MissingOf(n);
      OneQuantum(n);
      FirstIsGroup(text, out, size);
      var group, rest := text[..4], text[4..];
      assert text == group + rest;
      CanonicalFromFront(group, rest, Missing(n));
      GroupIsQuantum(group, 0);
      NextGroup(group, rest, out, size);
      AllPushed(out, Offered(group), size);
      CanonicalIsEncoded(rest, out + Offered(group), size);
      FrontEncoded(group, rest, out, Offered(group), DecodedFrom(text, out, size).value);
    }
  }

  /** A text the decoder accepts is the encoder's text for the decoded bytes if and only if it is canonical. */
  lemma CanonicalExactly(text: string, size: nat)
    requires Decoded(text, size).Some?
    ensures Missing(size) == 0 || |text| >= 4
    ensures text == Encoded(Decoded(text, size).value) <==> Canonical(text, Missing(size))
  {
    hide Canonical, Missing, Encoded, DecodedFrom;
    PaddedIsNotEmpty(text, size);
    DecodedOf(text, size);
    var bytes := Decoded(text, size).value;
    EncodedIsCanonical(bytes);
    if Canonical(text, Missing(size)) {
      CanonicalIsEncoded(text, [], size);
      assert bytes[0..] == bytes;
    }
  }

  /** An accepted text that is not canonical: the decoder also takes padding inside the text. It shortens one quantum,
      and the room it leaves is taken from the last one, so four bytes have a second text. */
  lemma InnerPaddingIsAccepted(x: seq<Byte>, y: seq<Byte>)
    requires |x| == |y| == 2
    ensures var text := Quantum(x) + Quantum(y);
            Decoded(text, 4) == Some(x + y) == Decoded(Encoded(x + y), 4) && text != Encoded(x + y)
  {
    PayloadRoundTrip(x + y);
    QuantumValues(x);
    QuantumValues((x + y)[..3]);
    var text := Quantum(x) + Quantum(y);
    assert Encoded(x + y) == Quantum((x + y)[..3]) + Encoded((x + y)[3..]);
    assert text[3] == Quantum(x)[3] && Encoded(x + y)[3] == Quantum((x + y)[..3])[3];
    assert EncodedSize(4) == 8;
    hide *;
    QuantumIsOffered(x);
    QuantumIsOffered(y);
    TwoGroups(Quantum(x), Quantum(y), x, y, 4);
    DecodedOf(text, 4);
  }

  lemma TwoGroups(one: string, two: string, x: seq<Byte>, y: seq<Byte>, size: nat)
    requires IsGroup(one) && IsGroup(two) && Offered(one) == x && Offered(two) == y && |x| + |y| == size
    ensures DecodedFrom(one + two, [], size) == Some(x + y)
  {
    assert two + "" == two && [] + x == x;
    assert DecodedFrom("", x + y, size) == Some(x + y);
    hide *;
    NextGroup(one, two, [], size);
    AllPushed([], x, size);
    NextGroup(two, "", x, size);
    AllPushed(x, y, size);
  }
}
