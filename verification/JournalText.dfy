/** The hand-written JSON printer and substring parser of CoopAreaObjectJournal.cpp, on single values and on
    one row: a lookup for a field finds that field and nothing inside a string value. */
module JournalText {

  datatype Option<+T> = None | Some(value: T)

  // ---- Strings -------------------------------------------------------------------------------

  function EscapeChar(c: char): string {
    if c == '"' || c == '\\' then ['\\', c] else [c]
  }

  function Escape(s: string): string {
    if s == "" then "" else Escape(s[..|s| - 1]) + EscapeChar(s[|s| - 1])
  }

  function Quoted(s: string): string {
    "\"" + Escape(s) + "\""
  }

  method EscapeJson(value: string) returns (escaped: string)
    ensures escaped == Escape(value)
  {
    escaped := "";
    for i := 0 to |value|
      invariant escaped == Escape(value[..i])
    {
      assert value[..i + 1][..i] == value[..i];
      if value[i] == '"' || value[i] == '\\' {
        escaped := escaped + "\\";
      }
      escaped := escaped + [value[i]];
    }
    assert value[..|value|] == value;
  }

  /** What the parser makes of the characters after an opening quote. */
  function Unescape(s: string): Option<string>
    decreases |s|
  {
    if s == "" then None
    else if s[0] == '"' then Some("")
    else if s[0] == '\\' then
      if |s| == 1 then None else Prepend(s[1], Unescape(s[2..]))
    else Prepend(s[0], Unescape(s[1..]))
  }

  function Prepend(c: char, r: Option<string>): Option<string> {
    if r == None then None else Some([c] + r.value)
  }

  lemma {:induction false} EscapeFromFront(s: string)
    requires s != ""
    ensures Escape(s) == EscapeChar(s[0]) + Escape(s[1..])
  {
    if |s| == 1 {
      assert s[..0] == "" && s[1..] == "";
    } else {
      var before, last := s[..|s| - 1], EscapeChar(s[|s| - 1]);
      EscapeFromFront(before);
      assert before[1..] == s[1..][..|s| - 2] && before[0] == s[0];
      assert Escape(s[1..]) == Escape(before[1..]) + last;
      hide Escape, EscapeChar;
      assert EscapeChar(s[0]) + Escape(before[1..]) + last == EscapeChar(s[0]) + (Escape(before[1..]) + last);
    }
  }

  lemma {:induction false} UnescapeUndoesEscape(s: string, rest: string)
    ensures Unescape(Escape(s) + "\"" + rest) == Some(s)
  {
    var text := Escape(s) + "\"" + rest;
    if s == "" {
      assert text == "\"" + rest;
    } else {
      EscapeFromFront(s);
      UnescapeUndoesEscape(s[1..], rest);
      var more := Escape(s[1..]) + "\"" + rest;
      assert text == EscapeChar(s[0]) + more;
      assert text[|EscapeChar(s[0])|..] == more;
      assert s == [s[0]] + s[1..];
    }
  }

  /** Every quote inside an escaped value follows a backslash. */
  lemma {:induction false} EscapedQuotes(s: string, k: nat)
    requires k < |Escape(s)| && Escape(s)[k] == '"'
    ensures k > 0 && Escape(s)[k - 1] == '\\'
  {
    var before := s[..|s| - 1];
    if k < |Escape(before)| {
      EscapedQuotes(before, k);
    }
  }

  // ---- Numbers -------------------------------------------------------------------------------

  predicate IsDigit(c: char) {
    '0' <= c <= '9'
  }

  function Digit(d: nat): (c: char)
    requires d < 10
    ensures IsDigit(c) && DigitValue(c) == d
  {
    '0' + d as char
  }

  function DigitValue(c: char): nat
    requires IsDigit(c)
  {
    (c - '0') as nat
  }

  function Decimal(n: nat): string {
    if n < 10 then [Digit(n)] else Decimal(n / 10) + [Digit(n % 10)]
  }

  function SignedDecimal(n: int): string {
    if n < 0 then "-" + Decimal(-n) else Decimal(n)
  }

  function DigitRun(s: string): (k: nat)
    ensures k <= |s| && forall i :: 0 <= i < k ==> IsDigit(s[i])
    ensures k < |s| ==> !IsDigit(s[k])
  {
    if s == "" || !IsDigit(s[0]) then 0 else 1 + DigitRun(s[1..])
  }

  function Number(s: string): nat
    requires forall i :: 0 <= i < |s| ==> IsDigit(s[i])
  {
    if s == "" then 0 else Number(s[..|s| - 1]) * 10 + DigitValue(s[|s| - 1])
  }

  /** isspace in the C locale. */
  predicate IsSpace(c: char) {
    c == ' ' || 9 <= c as int <= 13
  }

  function SkipSpace(s: string): string {
    if s != "" && IsSpace(s[0]) then SkipSpace(s[1..]) else s
  }

  /** strtoull in base 10 on the token, with the error cases of the caller. */
  function ParseUnsigned(token: string): Option<nat> {
    var s := SkipSpace(token);
    var negative := s != "" && s[0] == '-';
    var digits := if s != "" && (s[0] == '-' || s[0] == '+') then s[1..] else s;
    var n := Number(digits[..DigitRun(digits)]);
    if DigitRun(digits) == 0 || n > 0xffff_ffff_ffff_ffff then None
    else if negative && n != 0 then Some(0x1_0000_0000_0000_0000 - n) else Some(n)
  }

  /** strtol in base 10 on the token, with the 32-bit range check of the caller. */
  function ParseSigned(token: string): Option<int> {
    var s := SkipSpace(token);
    var digits := if s != "" && (s[0] == '-' || s[0] == '+') then s[1..] else s;
    var n := Number(digits[..DigitRun(digits)]);
    var value := if s != "" && s[0] == '-' then -(n as int) else n as int;
    if DigitRun(digits) == 0 || value < -0x8000_0000 || value > 0x7fff_ffff then None else Some(value)
  }

  function Power10(k: nat): nat {
    if k == 0 then 1 else 10 * Power10(k - 1)
  }

  lemma {:induction false} DecimalIsNumber(n: nat)
    ensures forall i :: 0 <= i < |Decimal(n)| ==> IsDigit(Decimal(n)[i])
    ensures Decimal(n) != "" && Number(Decimal(n)) == n
  {
    if n < 10 {
      assert Decimal(n)[..0] == "";
      assert Number(Decimal(n)[..0]) == 0;
    } else {
      DecimalIsNumber(n / 10);
      assert Decimal(n)[..|Decimal(n)| - 1] == Decimal(n / 10);
    }
  }

  lemma {:induction false} DecimalLength(n: nat, k: nat)
    requires k >= 1 && n < Power10(k)
    ensures |Decimal(n)| <= k
  {
    if n >= 10 {
      assert Power10(1) == 10 * Power10(0);
      DecimalLength(n / 10, k - 1);
    }
  }

  lemma {:induction false} DigitRunOfPrefix(digits: string, rest: string)
    requires forall i :: 0 <= i < |digits| ==> IsDigit(digits[i])
    requires rest == "" || !IsDigit(rest[0])
    ensures DigitRun(digits + rest) == |digits|
  {
    if digits == "" {
      assert digits + rest == rest;
    } else {
      DigitRunOfPrefix(digits[1..], rest);
      assert (digits + rest)[1..] == digits[1..] + rest;
    }
  }

  lemma DecimalToken(n: nat, rest: string)
    requires rest == "" || !IsDigit(rest[0])
    ensures var token := Decimal(n) + rest;
            && IsDigit(token[0]) && SkipSpace(token) == token
            && DigitRun(token) == |Decimal(n)| > 0 && Number(token[..DigitRun(token)]) == n
  {
    DecimalIsNumber(n);
    DigitRunOfPrefix(Decimal(n), rest);
    var token := Decimal(n) + rest;
    assert token[..|Decimal(n)|] == Decimal(n);
    hide Decimal;
  }

  lemma ParseOfDecimal(n: nat, rest: string)
    requires rest == "" || !IsDigit(rest[0])
    requires n <= 0xffff_ffff_ffff_ffff
    ensures ParseUnsigned(Decimal(n) + rest) == Some(n)
  {
    DecimalToken(n, rest);
    hide Decimal, SkipSpace, DigitRun, Number;
  }

  lemma SignedToken(digits: string)
    requires digits != "" && IsDigit(digits[0])
    ensures var token := "-" + digits; SkipSpace(token) == token && token[0] == '-' && token[1..] == digits
  {
  }

  lemma ParseOfSignedDecimal(n: int, rest: string)
    requires rest == "" || !IsDigit(rest[0])
    requires -0x8000_0000 <= n <= 0x7fff_ffff
    ensures ParseSigned(SignedDecimal(n) + rest) == Some(n)
  {
    hide Decimal, SkipSpace, DigitRun, Number;
    if n < 0 {
      var digits := Decimal(-n) + rest;
      DecimalToken(-n, rest);
      SignedToken(digits);
      assert SignedDecimal(n) + rest == "-" + digits;
    } else {
      DecimalToken(n, rest);
    }
  }
}
