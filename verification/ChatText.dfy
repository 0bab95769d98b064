/** The text functions of CoopChat.cpp: the byte loops of the validator, the encoder and the truncator. */
module ChatText {
  import opened Utf8

  const MAX_BYTES: nat := 768
  const MAX_CHARS: nat := 255

  /** CombineSurrogate: RFC 2781, section 2.2. */
  function CombineSurrogate(high: int, low: int): (c: Scalar)
    requires 0xd800 <= high <= 0xdbff && 0xdc00 <= low <= 0xdfff
    ensures 0x10000 <= c
  {
    0x10000 + (high - 0xd800) * 0x400 + (low - 0xdc00)
  }

  /** The two halves RFC 2781, section 2.1 makes of a scalar above the basic plane. */
  lemma CombineUndoesSplit(c: Scalar)
    requires 0x10000 <= c
    ensures CombineSurrogate(0xd800 + (c - 0x10000) / 0x400, 0xdc00 + (c - 0x10000) % 0x400) == c
  {
  }

  method WideCharToUtf8(codepoint: nat) returns (result: Text)
    ensures IsScalar(codepoint) ==> result == Encode(codepoint)
    ensures !IsScalar(codepoint) ==> result == []
  {
    result := [];
    if codepoint > 0x10ffff || IsSurrogate(codepoint) {
      return;
    }
    var c1 := codepoint / 64;
    var c2 := c1 / 64;
    if codepoint <= 0x7f {
      result := result + [codepoint];
    } else if codepoint <= 0x7ff {
      result := result + [0xc0 + c1];
      result := result + [0x80 + codepoint % 64];
    } else if codepoint <= 0xffff {
      result := result + [0xe0 + c2];
      result := result + [0x80 + c1 % 64];
      result := result + [0x80 + codepoint % 64];
    } else {
      result := result + [0xf0 + c2 / 64];
      result := result + [0x80 + c2 % 64];
      result := result + [0x80 + c1 % 64];
      result := result + [0x80 + codepoint % 64];
    }
  }

  /** The code point of the first `i` bytes of one character. */
  function Partial(b: Text, i: nat): int
    requires 1 <= i <= |b| <= 4
  {
    if i == 1 then
      if |b| == 1 then b[0] else if |b| == 2 then b[0] - 0xc0 else if |b| == 3 then b[0] - 0xe0 else b[0] - 0xf0
    else Partial(b, i - 1) * 64 + Bits(b[i - 1])
  }

  predicate TailsUpTo(b: Text, i: nat) {
    forall k :: 1 <= k < i && k < |b| ==> IsTail(b[k])
  }

  /** The range checks of the validator, on the assembled code point. */
  predicate RejectsCodepoint(width: nat, codepoint: int) {
    || (width == 2 && codepoint < 0x80)
    || (width == 3 && codepoint < 0x800)
    || (width == 4 && codepoint < 0x10000)
    || codepoint > 0x10ffff || IsSurrogate(codepoint)
    || codepoint <= 0x1f || (0x7f <= codepoint <= 0x9f)
  }

  /** On bytes of the announced width with proper tails the range checks accept exactly the printable
      characters of the RFC grammar: overlong forms, surrogates and code points beyond 0x10ffff are out. */
  lemma RangeChecksAreTheGrammar(b: Text)
    requires 1 <= |b| <= 4 && Width(b[0]) == |b| && TailsUpTo(b, |b|)
    ensures Partial(b, |b|) == Payload(b)
    ensures !RejectsCodepoint(|b|, Payload(b)) <==> IsRfcCharacter(b) && IsPrintable(Payload(b))
  {
    if |b| == 3 {
      assert Partial(b, 2) == Partial(b, 1) * 64 + Bits(b[1]);
    } else if |b| == 4 {
      assert Partial(b, 2) == Partial(b, 1) * 64 + Bits(b[1]);
      assert Partial(b, 3) == Partial(b, 2) * 64 + Bits(b[2]);
    }
  }

  /** A validated prefix can only be continued by one more character where the text continues it. */
  lemma NextCharacterDecides(text: Text, offset: nat, done: seq<Scalar>)
    requires offset < |text| && AllPrintable(done) && EncodeAll(done) == text[..offset]
    ensures First(text[offset..]) == None ==> !IsPrintableText(text)
    ensures First(text[offset..]).Some? ==>
              var c := First(text[offset..]).value;
              && IsPrintable(c) && Encode(c) <= text[offset..]
              && EncodeAll(done + [c]) == text[..offset + |Encode(c)|]
  {
    hide Encode, First;
    forall ss: seq<Scalar> | AllPrintable(ss) && EncodeAll(ss) == text
      ensures First(text[offset..]).Some?
    {
      EncodedLength(ss);
      EncodedLength(done);
      ScanIsLongest(text, |text|, done);
      ScanOfEncoded(ss, |text|);
      assert done <= ss && done != ss;
      var c := ss[|done|];
      EncodeAllAppend(done, c);
      assert done + [c] <= ss;
      LongerEncodesLonger(done + [c], ss);
      assert Encode(c) <= text[offset..];
      FirstIsPrefix(text[offset..], c);
    }
    if First(text[offset..]).Some? {
      var c := First(text[offset..]).value;
      FirstIsPrefix(text[offset..], c);
      EncodeAllAppend(done, c);
      assert text[..offset + |Encode(c)|] == text[..offset] + text[offset..][..|Encode(c)|];
    }
  }

  /** Reads one character; the inner loop of the validator. */
  method ReadCharacter(text: Text, offset: nat) returns (ok: bool, width: nat)
    requires offset < |text|
    ensures ok <==> First(text[offset..]).Some?
    ensures ok ==> width == |Encode(First(text[offset..]).value)| && offset + width <= |text|
  {
    var first := text[offset];
    assert text[offset..][0] == first;
    width := 0;
    if first <= 0x7f {
      width := 1;
    } else if 0xc2 <= first <= 0xdf {
      width := 2;
    } else if 0xe0 <= first <= 0xef {
      width := 3;
    } else if 0xf0 <= first <= 0xf4 {
      width := 4;
    } else {
      return false, 0;
    }
    if offset + width > |text| {
      return false, width;
    }
    ghost var b := text[offset..][..width];
    var codepoint: int :=
      first % (if width == 1 then 0x80 else if width == 2 then 0x20 else if width == 3 then 0x10 else 0x08);
    assert codepoint == Partial(b, 1);
    var i := 1;
    while i < width
      invariant 1 <= i <= width
      invariant TailsUpTo(b, i) && codepoint == Partial(b, i)
    {
      var continuation: int := text[offset + i];
      assert b[i] == continuation;
      if continuation / 64 != 2 {
        assert !IsTail(b[i]);
        assert !IsRfcCharacter(b);
        return false, width;
      }
      codepoint := codepoint * 64 + continuation % 64;
      i := i + 1;
    }
    RangeChecksAreTheGrammar(b);
    if RejectsCodepoint(width, codepoint) {
      return false, width;
    }
    EncodeOfPayload(b);
    ok := true;
  }

  /** The validator accepts exactly the encodings of printable scalars, and counts them. */
  method IsValidUtf8(text: Text) returns (ok: bool, characters: nat)
    ensures ok <==> IsPrintableText(text)
    ensures ok ==> forall ss: seq<Scalar> :: AllPrintable(ss) && EncodeAll(ss) == text ==> characters == |ss|
    ensures ok ==> characters == |Scan(text, |text|)|
    ensures !ok ==> characters == 0
  {
    var offset := 0;
    characters := 0;
    ghost var done: seq<Scalar> := [];
    while offset < |text|
      invariant 0 <= offset <= |text|
      invariant AllPrintable(done) && EncodeAll(done) == text[..offset] && |done| == characters
    {
      NextCharacterDecides(text, offset, done);
      var good, width := ReadCharacter(text, offset);
      if !good {
        return false, 0;
      }
      done := done + [First(text[offset..]).value];
      offset := offset + width;
      characters := characters + 1;
      hide Encode, First;
    }
    assert text[..offset] == text;
    EncodedLength(done);
    ScanOfEncoded(done, |text|);
    forall ss: seq<Scalar> | AllPrintable(ss) && EncodeAll(ss) == text ensures characters == |ss| {
      EncodeAllInjective(ss, done);
    }
    ok := true;
  }

  // ---- The truncator -------------------------------------------------------------------------

  /** The longest printable prefix of at most MAX_CHARS characters, before the cut at MAX_BYTES. */
  function LongestPrefix(text: Text): Text {
    EncodeAll(Scan(text, MAX_CHARS))
  }

  function Limit(text: Text): Text {
    var longest := LongestPrefix(text);
    if |longest| <= MAX_BYTES then longest else longest[..MAX_BYTES]
  }

  lemma SliceHasFirst(rest: Text, width: nat)
    requires 1 <= width <= |rest| && (if Width(rest[0]) == 0 then width == 1 else width == Width(rest[0]))
    ensures First(rest[..width]) == First(rest)
    ensures First(rest).Some? ==> Encode(First(rest).value) == rest[..width] && IsPrintable(First(rest).value)
  {
    var slice := rest[..width];
    assert slice[0] == rest[0] && slice[..width] == slice;
    assert First(slice) == First(rest);
    if First(rest).Some? {
      FirstIsPrefix(slice, First(rest).value);
      WidthOfEncode(First(rest).value);
    }
  }

  lemma SliceIsOneCharacter(rest: Text, width: nat)
    requires 1 <= width <= |rest| && (if Width(rest[0]) == 0 then width == 1 else width == Width(rest[0]))
    ensures IsPrintableText(rest[..width]) <==> First(rest).Some?
    ensures First(rest).Some? ==> Encode(First(rest).value) == rest[..width]
  {
    var slice := rest[..width];
    SliceHasFirst(rest, width);
    if First(rest).Some? {
      var c := First(rest).value;
      EncodeAllAppend([], c);
      assert AllPrintable([c]) && EncodeAll([c]) == slice by { assert [] + [c] == [c]; }
    }
    hide Encode, First, Width;
    forall ss: seq<Scalar> | AllPrintable(ss) && EncodeAll(ss) == slice ensures First(slice).Some? {
      assert ss != [];
      EncodeAllPrepend(ss[0], ss[1..]);
      assert ss == [ss[0]] + ss[1..];
      FirstIsPrefix(slice, ss[0]);
    }
  }

  /** One turn of the truncator's loop on what is left of the text. */
  lemma ScanTurn(rest: Text, width: nat, left: nat)
    requires rest != [] && left != 0 && (if Width(rest[0]) == 0 then width == 1 else width == Width(rest[0]))
    ensures width > |rest| || !IsPrintableText(rest[..width]) ==> Scan(rest, left) == []
    ensures width <= |rest| && IsPrintableText(rest[..width]) ==>
              && First(rest).Some? && Encode(First(rest).value) == rest[..width]
              && Scan(rest, left) == [First(rest).value] + Scan(rest[width..], left - 1)
  {
    if First(rest).Some? {
      FirstIsPrefix(rest, First(rest).value);
      WidthOfEncode(First(rest).value);
    }
    if width <= |rest| {
      SliceIsOneCharacter(rest, width);
    }
    hide Encode, First, IsPrintableText;
  }

  /** `done` is what the truncator has accepted so far; the rest of the scan is still to come. */
  ghost predicate Scanned(text: Text, offset: nat, chars: nat, done: seq<Scalar>) {
    && offset <= |text| && chars <= MAX_CHARS && EncodeAll(done) == text[..offset]
    && Scan(text, MAX_CHARS) == done + Scan(text[offset..], MAX_CHARS - chars)
  }

  lemma ScannedStart(text: Text)
    ensures Scanned(text, 0, 0, [])
  {
    assert text[0..] == text && [] + Scan(text, MAX_CHARS) == Scan(text, MAX_CHARS);
  }

  lemma ScannedTurn(text: Text, offset: nat, chars: nat, done: seq<Scalar>, width: nat)
    requires Scanned(text, offset, chars, done) && offset + width <= |text| && offset < |text| && chars < MAX_CHARS
    requires if Width(text[offset]) == 0 then width == 1 else width == Width(text[offset])
    requires IsPrintableText(text[offset..offset + width])
    ensures First(text[offset..]).Some?
    ensures Scanned(text, offset + width, chars + 1, done + [First(text[offset..]).value])
  {
    hide Encode, First, Scan, EncodeAll, IsPrintableText;
    var rest := text[offset..];
    assert rest[..width] == text[offset..offset + width];
    ScanTurn(rest, width, MAX_CHARS - chars);
    var c := First(rest).value;
    EncodeAllAppend(done, c);
    var tail := Scan(rest[width..], MAX_CHARS - chars - 1);
    assert rest[width..] == text[offset + width..];
    assert text[..offset + width] == text[..offset] + rest[..width];
    assert done + ([c] + tail) == (done + [c]) + tail;
  }

  lemma ScanOfNothing(rest: Text, left: nat)
    requires rest == [] || left == 0
    ensures Scan(rest, left) == []
  {
  }

  lemma ScannedStop(text: Text, offset: nat, chars: nat, done: seq<Scalar>)
    requires Scanned(text, offset, chars, done)
    requires offset < |text| && chars < MAX_CHARS ==>
               var width := if Width(text[offset]) == 0 then 1 else Width(text[offset]);
               offset + width > |text| || !IsPrintableText(text[offset..offset + width])
    ensures LongestPrefix(text) == text[..offset]
  {
    hide Encode, First, EncodeAll, IsPrintableText, Scan;
    var rest := text[offset..];
    if offset < |text| && chars < MAX_CHARS {
      var width := if Width(text[offset]) == 0 then 1 else Width(text[offset]);
      assert offset + width <= |text| ==> rest[..width] == text[offset..offset + width];
      ScanTurn(rest, width, MAX_CHARS - chars);
    } else {
      ScanOfNothing(rest, MAX_CHARS - chars);
    }
    assert Scan(rest, MAX_CHARS - chars) == [];
    assert done + [] == done;
  }

  /** The truncator returns the longest printable prefix within the character limit, cut at the byte limit. */
  method LimitUtf8(text: Text) returns (result: Text)
    ensures result == Limit(text)
  {
    hide Encode, First, Scan, EncodeAll, Scanned, IsPrintableText, LongestPrefix;
    var chars: nat := 0;
    var offset: nat := 0;
    ghost var done: seq<Scalar> := [];
    ScannedStart(text);
    while offset < |text| && chars < MAX_CHARS
      invariant offset <= |text| && Scanned(text, offset, chars, done)
    {
      var first := text[offset];
      var width := 1;
      if 0xc2 <= first <= 0xdf {
        width := 2;
      } else if 0xe0 <= first <= 0xef {
        width := 3;
      } else if 0xf0 <= first <= 0xf4 {
        width := 4;
      }
      if offset + width > |text| {
        break;
      }
      var ok, _ := IsValidUtf8(text[offset..offset + width]);
      if !ok {
        break;
      }
      ScannedTurn(text, offset, chars, done, width);
      done := done + [First(text[offset..]).value];
      offset := offset + width;
      chars := chars + 1;
    }
    ScannedStop(text, offset, chars, done);
    result := text[..if offset < MAX_BYTES then offset else MAX_BYTES];
    assert |LongestPrefix(text)| > MAX_BYTES ==> LongestPrefix(text)[..MAX_BYTES] == result;
  }

  /** The byte limit cuts a character in two. */
  predicate CutsCharacter(text: Text) {
    var longest := LongestPrefix(text);
    |longest| > MAX_BYTES && IsTail(longest[MAX_BYTES])
  }

  /** A position inside encoded text is a character boundary exactly when no tail byte stands there. */
  lemma {:induction false} BoundaryAt(ss: seq<Scalar>, n: nat) returns (k: nat)
    requires n < |EncodeAll(ss)|
    ensures k < |ss| && |EncodeAll(ss[..k])| <= n < |EncodeAll(ss[..k])| + |Encode(ss[k])|
    ensures EncodeAll(ss[..k]) + Encode(ss[k]) <= EncodeAll(ss)
    ensures !IsTail(EncodeAll(ss)[n]) <==> |EncodeAll(ss[..k])| == n
  {
    var last := |ss| - 1;
    if n < |EncodeAll(ss[..last])| {
      k := BoundaryAt(ss[..last], n);
      assert ss[..last][..k] == ss[..k];
    } else {
      k := last;
      WidthOfEncode(ss[last]);
    }
    hide Encode;
  }

  lemma ScanOfCutText(ss: seq<Scalar>, k: nat, n: nat, limit: nat)
    requires AllPrintable(ss) && k < |ss| <= limit
    requires |EncodeAll(ss[..k])| <= n < |EncodeAll(ss[..k])| + |Encode(ss[k])|
    requires EncodeAll(ss[..k]) + Encode(ss[k]) <= EncodeAll(ss)
    ensures Scan(EncodeAll(ss)[..n], limit) == ss[..k]
  {
    hide Encode, Scan;
    var cut := EncodeAll(ss)[..n];
    var found := Scan(cut, limit);
    ScanIsPrefix(cut, limit);
    assert EncodeAll(found) <= EncodeAll(ss);
    ScanOfEncoded(ss, limit);
    ScanIsLongest(EncodeAll(ss), limit, found);
    assert EncodeAll(ss[..k]) <= cut;
    ScanIsLongest(cut, limit, ss[..k]);
    if |found| > k {
      EncodeAllAppend(ss[..k], ss[k]);
      assert ss[..k + 1] == ss[..k] + [ss[k]];
      LongerEncodesLonger(ss[..k + 1], found);
      assert false;
    }
  }

  lemma ScanOfPrintableCut(ss: seq<Scalar>, n: nat)
    requires AllPrintable(ss) && n < |EncodeAll(ss)|
    ensures IsPrintableText(EncodeAll(ss)[..n]) <==> !IsTail(EncodeAll(ss)[n])
    ensures |ss| <= MAX_CHARS && n <= MAX_BYTES ==> (Limit(EncodeAll(ss)[..n]) == EncodeAll(ss)[..n]
                                                     <==> !IsTail(EncodeAll(ss)[n]))
  {
    hide Encode, Scan;
    var cut := EncodeAll(ss)[..n];
    var k := BoundaryAt(ss, n);
    ScanOfCutText(ss, k, n, |ss| + n);
    assert AllPrintable(ss[..k]);
    if |EncodeAll(ss[..k])| == n {
      assert EncodeAll(ss[..k]) == cut;
    }
    forall tt: seq<Scalar> | AllPrintable(tt) && EncodeAll(tt) == cut ensures tt == ss[..k] {
      EncodedLength(tt);
      ScanOfEncoded(tt, |ss| + n);
    }
    if |ss| <= MAX_CHARS && n <= MAX_BYTES {
      ScanOfCutText(ss, k, n, MAX_CHARS);
    }
  }

  /** With the real limits (255 characters, 768 bytes) the truncator can cut inside a character.  Its result is
      valid, and truncating again changes nothing, exactly when the byte limit does not fall on a tail byte. */
  lemma LimitIsSoundExactlyWithoutCut(text: Text)
    ensures IsPrintableText(Limit(text)) <==> !CutsCharacter(text)
    ensures Limit(Limit(text)) == Limit(text) <==> !CutsCharacter(text)
  {
    var ss := Scan(text, MAX_CHARS);
    hide Encode, Scan;
    if |LongestPrefix(text)| > MAX_BYTES {
      ScanOfPrintableCut(ss, MAX_BYTES);
    } else {
      ScanOfEncoded(ss, MAX_CHARS);
    }
  }

  lemma {:induction false} WideRunLength(n: nat)
    ensures var ss: seq<Scalar> := seq(n, i => 0x10000); |EncodeAll(ss)| == 4 * n && AllPrintable(ss)
  {
    var ss: seq<Scalar> := seq(n, i => 0x10000);
    if n != 0 {
      WideRunLength(n - 1);
      assert ss[..n - 1] == seq(n - 1, i => 0x10000);
    }
  }

  /** One letter and 192 characters of four bytes: 769 bytes in 193 characters. */
  lemma LimitCanCut()
    ensures CutsCharacter(EncodeAll([0x41] + seq(192, i => 0x10000)))
  {
    var wide: seq<Scalar> := seq(192, i => 0x10000);
    var ss: seq<Scalar> := [0x41] + wide;
    var text := EncodeAll(ss);
    WideRunLength(192);
    EncodeAllPrepend(0x41, wide);
    ScanOfEncoded(ss, MAX_CHARS);
    assert |text| == 769;
    assert EncodeAll(ss) == EncodeAll(ss[..192]) + Encode(ss[192]);
    assert text[768] == Encode(0x10000)[3];
    hide Scan;
  }
}
