/** UTF-8 as RFC 3629 defines it, over bytes written as numbers.  The shifts and masks of CoopChat.cpp appear
    as the division, remainder and multiplication by powers of two that they are. */
module Utf8 {

  type Byte = x: int | 0 <= x < 256
  type Text = seq<Byte>

  datatype Option<+T> = None | Some(value: T)

  predicate IsSurrogate(c: int) {
    0xd800 <= c <= 0xdfff
  }

  predicate IsScalar(c: int) {
    0 <= c <= 0x10ffff && !IsSurrogate(c)
  }

  type Scalar = c: int | 0 <= c <= 0x10ffff && !(0xd800 <= c <= 0xdfff)

  /** Not a C0 control, DEL or a C1 control. */
  predicate IsPrintable(c: int) {
    0x20 <= c && !(0x7f <= c <= 0x9f)
  }

  predicate AllPrintable(ss: seq<Scalar>) {
    forall i :: 0 <= i < |ss| ==> IsPrintable(ss[i])
  }

  predicate IsTail(b: Byte) {
    0x80 <= b <= 0xbf
  }

  /** The last six bits of a code point as a tail byte. */
  function TailOf(c: nat): (b: Byte)
    ensures IsTail(b) && b == 0x80 + c % 64
  {
    0x80 + c % 64
  }

  /** The table of section 3 of RFC 3629. */
  function Encode(c: Scalar): (b: Text)
    ensures 1 <= |b| <= 4
  {
    var c1 := c / 64;
    var c2 := c1 / 64;
    var c3 := c2 / 64;
    if c <= 0x7f then var lead: Byte := c; [lead]
    else if c <= 0x7ff then var lead: Byte := 0xc0 + c1; [lead, TailOf(c)]
    else if c <= 0xffff then var lead: Byte := 0xe0 + c2; [lead, TailOf(c1), TailOf(c)]
    else var lead: Byte := 0xf0 + c3; [lead, TailOf(c2), TailOf(c1), TailOf(c)]
  }

  function EncodeAll(ss: seq<Scalar>): Text {
    if ss == [] then [] else EncodeAll(ss[..|ss| - 1]) + Encode(ss[|ss| - 1])
  }

  /** One character of the grammar in section 4 of RFC 3629. */
  predicate IsRfcCharacter(b: Text) {
    || (|b| == 1 && b[0] <= 0x7f)
    || (|b| == 2 && 0xc2 <= b[0] <= 0xdf && IsTail(b[1]))
    || (|b| == 3 && IsTail(b[2]) &&
        ((b[0] == 0xe0 && 0xa0 <= b[1] <= 0xbf) || (0xe1 <= b[0] <= 0xec && IsTail(b[1])) ||
         (b[0] == 0xed && 0x80 <= b[1] <= 0x9f) || (0xee <= b[0] <= 0xef && IsTail(b[1]))))
    || (|b| == 4 && IsTail(b[2]) && IsTail(b[3]) &&
        ((b[0] == 0xf0 && 0x90 <= b[1] <= 0xbf) || (0xf1 <= b[0] <= 0xf3 && IsTail(b[1])) ||
         (b[0] == 0xf4 && 0x80 <= b[1] <= 0x8f)))
  }

  function Bits(b: Byte): int {
    b - 0x80
  }

  /** The payload bits of one encoded character. */
  function Payload(b: Text): int
    requires 1 <= |b| <= 4
  {
    var lead: int := b[0];
    if |b| == 1 then lead
    else if |b| == 2 then (lead - 0xc0) * 64 + Bits(b[1])
    else if |b| == 3 then ((lead - 0xe0) * 64 + Bits(b[1])) * 64 + Bits(b[2])
    else (((lead - 0xf0) * 64 + Bits(b[1])) * 64 + Bits(b[2])) * 64 + Bits(b[3])
  }

  lemma PayloadOfEncode(c: Scalar)
    ensures IsRfcCharacter(Encode(c)) && Payload(Encode(c)) == c
  {
    var c1 := c / 64;
    var c2 := c1 / 64;
    var c3 := c2 / 64;
    assert c == c1 * 64 + c % 64 && c1 == c2 * 64 + c1 % 64 && c2 == c3 * 64 + c2 % 64;
  }

  lemma Shift(high: nat, low: nat)
    requires low < 64
    ensures (high * 64 + low) / 64 == high && (high * 64 + low) % 64 == low
  {
  }

  lemma EncodeOfPayload2(b: Text)
    requires IsRfcCharacter(b) && |b| <= 2
    ensures IsScalar(Payload(b)) && Encode(Payload(b)) == b
  {
    if |b| == 2 {
      Shift(b[0] - 0xc0, Bits(b[1]));
    }
  }

  lemma EncodeOfPayload3(b: Text)
    requires IsRfcCharacter(b) && |b| == 3
    ensures IsScalar(Payload(b)) && Encode(Payload(b)) == b
  {
    var high := (b[0] - 0xe0) * 64 + Bits(b[1]);
    Shift(b[0] - 0xe0, Bits(b[1]));
    Shift(high, Bits(b[2]));
    assert Payload(b) == high * 64 + Bits(b[2]);
    assert high >= 0x20 && !(0x360 <= high <= 0x37f);
  }

  lemma EncodeOfPayload4(b: Text)
    requires IsRfcCharacter(b) && |b| == 4
    ensures IsScalar(Payload(b)) && Encode(Payload(b)) == b
  {
    var high := (b[0] - 0xf0) * 64 + Bits(b[1]);
    var middle := high * 64 + Bits(b[2]);
    Shift(b[0] - 0xf0, Bits(b[1]));
    Shift(high, Bits(b[2]));
    Shift(middle, Bits(b[3]));
    assert Payload(b) == middle * 64 + Bits(b[3]);
    assert 0x10 <= high <= 0x10f;
  }

  lemma EncodeOfPayload(b: Text)
    requires IsRfcCharacter(b)
    ensures IsScalar(Payload(b)) && Encode(Payload(b)) == b
  {
    if |b| <= 2 {
      EncodeOfPayload2(b);
    } else if |b| == 3 {
      EncodeOfPayload3(b);
    } else {
      EncodeOfPayload4(b);
    }
    hide Encode, Payload;
  }

  /** The grammar of section 4 and the table of section 3 describe the same byte sequences. */
  lemma GrammarIsImageOfEncode(b: Text)
    ensures IsRfcCharacter(b) <==> exists c: Scalar :: Encode(c) == b
  {
    if IsRfcCharacter(b) {
      EncodeOfPayload(b);
    }
    forall c: Scalar | Encode(c) == b ensures IsRfcCharacter(b) {
      PayloadOfEncode(c);
    }
  }

  /** The width announced by a leading byte, 0 when no character starts with it. */
  function Width(first: Byte): nat {
    if first <= 0x7f then 1
    else if 0xc2 <= first <= 0xdf then 2
    else if 0xe0 <= first <= 0xef then 3
    else if 0xf0 <= first <= 0xf4 then 4
    else 0
  }

  lemma WidthOfEncode(c: Scalar)
    ensures Width(Encode(c)[0]) == |Encode(c)|
    ensures !IsTail(Encode(c)[0]) && forall i :: 1 <= i < |Encode(c)| ==> IsTail(Encode(c)[i])
  {
  }

  /** No encoding is the start of another one. */
  lemma EncodePrefixFree(c: Scalar, d: Scalar)
    requires Encode(d) <= Encode(c)
    ensures c == d
  {
    WidthOfEncode(c);
    WidthOfEncode(d);
    PayloadOfEncode(c);
    PayloadOfEncode(d);
    assert Encode(d)[0] == Encode(c)[0];
    assert Encode(d) == Encode(c);
    hide Encode;
  }

  /** The printable scalar whose encoding the text starts with. */
  function First(text: Text): Option<Scalar> {
    if text == [] then None
    else
      var w := Width(text[0]);
      if w == 0 || |text| < w || !IsRfcCharacter(text[..w]) || !IsPrintable(Payload(text[..w])) then None
      else
        EncodeOfPayload(text[..w]);
        Some(Payload(text[..w]))
  }

  lemma FirstIsPrefix(text: Text, c: Scalar)
    ensures First(text) == Some(c) <==> IsPrintable(c) && Encode(c) <= text
  {
    WidthOfEncode(c);
    PayloadOfEncode(c);
    if Encode(c) <= text {
      assert text[..|Encode(c)|] == Encode(c);
      assert text[0] == Encode(c)[0];
    }
    if First(text) == Some(c) {
      EncodeOfPayload(text[..Width(text[0])]);
    }
  }

  lemma EncodeAllAppend(ss: seq<Scalar>, c: Scalar)
    ensures EncodeAll(ss + [c]) == EncodeAll(ss) + Encode(c)
  {
    assert (ss + [c])[..|ss|] == ss;
  }

  lemma {:induction false} EncodeAllConcat(ss: seq<Scalar>, tt: seq<Scalar>)
    ensures EncodeAll(ss + tt) == EncodeAll(ss) + EncodeAll(tt)
  {
    hide Encode;
    if tt == [] {
      assert ss + tt == ss;
    } else {
      var last := |tt| - 1;
      EncodeAllConcat(ss, tt[..last]);
      assert (ss + tt)[..|ss + tt| - 1] == ss + tt[..last];
    }
  }

  lemma EncodeAllPrepend(c: Scalar, ss: seq<Scalar>)
    ensures EncodeAll([c] + ss) == Encode(c) + EncodeAll(ss)
  {
    EncodeAllConcat([c], ss);
    EncodeAllAppend([], c);
    assert [] + [c] == [c];
    assert EncodeAll([c]) == Encode(c);
  }

  /** The printable scalars at the start of the text, at most `limit` of them. */
  function Scan(text: Text, limit: nat): (ss: seq<Scalar>)
    ensures |ss| <= limit && AllPrintable(ss)
    decreases limit
  {
    if limit == 0 || First(text) == None then []
    else
      var c := First(text).value;
      FirstIsPrefix(text, c);
      [c] + Scan(text[|Encode(c)|..], limit - 1)
  }

  lemma {:induction false} ScanIsPrefix(text: Text, limit: nat)
    ensures EncodeAll(Scan(text, limit)) <= text
    decreases limit
  {
    hide Encode, First;
    if limit != 0 && First(text) != None {
      var c := First(text).value;
      FirstIsPrefix(text, c);
      var rest := text[|Encode(c)|..];
      ScanIsPrefix(rest, limit - 1);
      EncodeAllPrepend(c, Scan(rest, limit - 1));
      assert text == Encode(c) + rest;
    }
  }

  /** Scan finds the longest valid prefix: every other one within the limit is the start of it. */
  lemma {:induction false} ScanIsLongest(text: Text, limit: nat, ss: seq<Scalar>)
    requires AllPrintable(ss) && |ss| <= limit && EncodeAll(ss) <= text
    ensures ss <= Scan(text, limit)
    decreases limit
  {
    hide Encode, First, EncodeAll;
    if ss != [] {
      var c, rest := ss[0], ss[1..];
      assert ss == [c] + rest;
      EncodeAllPrepend(c, rest);
      assert Encode(c) <= text;
      FirstIsPrefix(text, c);
      assert EncodeAll(rest) <= text[|Encode(c)|..] by {
        assert text[|Encode(c)|..][..|EncodeAll(rest)|] == EncodeAll(ss)[|Encode(c)|..];
      }
      ScanIsLongest(text[|Encode(c)|..], limit - 1, rest);
    }
  }

  lemma ScanOfEncoded(ss: seq<Scalar>, limit: nat)
    requires AllPrintable(ss) && |ss| <= limit
    ensures Scan(EncodeAll(ss), limit) == ss
  {
    var text := EncodeAll(ss);
    ScanIsLongest(text, limit, ss);
    ScanIsPrefix(text, limit);
    LongerEncodesLonger(ss, Scan(text, limit));
  }

  lemma LongerEncodesLonger(ss: seq<Scalar>, tt: seq<Scalar>)
    requires ss <= tt
    ensures EncodeAll(ss) <= EncodeAll(tt)
    ensures |EncodeAll(tt)| >= |EncodeAll(ss)| + |tt| - |ss|
  {
    var more := tt[|ss|..];
    assert tt == ss + more;
    EncodeAllConcat(ss, more);
    EncodedLength(more);
  }

  lemma {:induction false} EncodedLength(ss: seq<Scalar>)
    ensures |ss| <= |EncodeAll(ss)| <= 4 * |ss|
  {
    if ss != [] {
      EncodedLength(ss[..|ss| - 1]);
    }
  }

  /** Encoding is injective on printable text. */
  lemma EncodeAllInjective(ss: seq<Scalar>, tt: seq<Scalar>)
    requires AllPrintable(ss) && AllPrintable(tt) && EncodeAll(ss) == EncodeAll(tt)
    ensures ss == tt
  {
    hide EncodeAll, Scan;
    ScanOfEncoded(ss, |ss| + |tt|);
    ScanOfEncoded(tt, |ss| + |tt|);
  }

  /** The text is the encoding of printable scalars. */
  ghost predicate IsPrintableText(text: Text) {
    exists ss: seq<Scalar> :: AllPrintable(ss) && EncodeAll(ss) == text
  }

  lemma PrintableTextIsScanned(text: Text)
    ensures IsPrintableText(text) <==> EncodeAll(Scan(text, |text|)) == text
  {
    forall ss: seq<Scalar> | AllPrintable(ss) && EncodeAll(ss) == text
      ensures EncodeAll(Scan(text, |text|)) == text
    {
      EncodedLength(ss);
      ScanOfEncoded(ss, |text|);
    }
  }
}
