/** CoopAreaObjectJournal.cpp: one exported row per entry, and the parser that must bring the entry back. */
module JournalReplay {
  import opened AreaObjectJournal
  import opened JournalText
  import opened JournalRows

  const TOKEN_LENGTH: nat := 32

  function TypeText(): string {
    "area_object_event"
  }

  // ---- The printer ---------------------------------------------------------------------------

  function Names(): (r: seq<string>)
    ensures |r| == 17
  {
    ["type", "level", "eventId", "eventKind", "targetGuid", "targetClassHash", "value", "count", "textValue",
     "flags", "worldEpoch", "levelId", "hostSaveKeyHash", "sourcePeerHash", "preVersion", "postVersion",
     "areaRevision"]
  }

  const FLAGS: nat := 9

  datatype Value = Text(text: string) | Unsigned(u: U64) | Signed(i: I32)

  function Printed(v: Value): string {
    match v
    case Text(s) => Quoted(s)
    case Unsigned(n) => Decimal(n)
    case Signed(n) => SignedDecimal(n)
  }

  function Values(e: Entry): (r: seq<Value>)
    ensures |r| == 17
  {
    var p := e.packet;
    [Text(TypeText()), Text(e.level), Unsigned(p.eventId), Unsigned(p.eventKind), Unsigned(p.targetGuid),
     Unsigned(p.targetClassHash), Unsigned(p.value), Signed(p.count), Text(p.textValue), Unsigned(p.flags),
     Unsigned(p.worldEpoch), Unsigned(p.levelId), Unsigned(p.hostSaveKeyHash), Unsigned(p.sourcePeerHash),
     Unsigned(p.preVersion), Unsigned(p.postVersion), Unsigned(p.areaRevision)]
  }

  function Fields(e: Entry): seq<Field> {
    seq(17, i requires 0 <= i < 17 => Field(Names()[i], Printed(Values(e)[i])))
  }

  function EntryRow(e: Entry): string {
    Row(Fields(e))
  }

  // ---- The parser ----------------------------------------------------------------------------

  function Token(s: string): string {
    if |s| <= TOKEN_LENGTH then s else s[..TOKEN_LENGTH]
  }

  function UnsignedFrom(text: string): Option<U64> {
    var n := ParseUnsigned(Token(text));
    if n == None then None else Some(n.value)
  }

  function SignedFrom(text: string): Option<I32> {
    var n := ParseSigned(Token(text));
    if n == None then None else Some(n.value)
  }

  function TextFrom(text: string): Option<string> {
    if text == "" || text[0] != '"' then None else Unescape(text[1..])
  }

  function ReadUint64(line: string, name: string): Option<U64> {
    var text := After(line, KeyText(name));
    if text == None then None else UnsignedFrom(text.value)
  }

  function ReadInt32(line: string, name: string): Option<I32> {
    var text := After(line, KeyText(name));
    if text == None then None else SignedFrom(text.value)
  }

  function ReadText(line: string, name: string): Option<string> {
    var text := After(line, KeyText(name));
    if text == None then None else TextFrom(text.value)
  }

  function CString(s: string): (r: string)
    ensures |r| <= |s| && '\0' !in r
    ensures '\0' !in s ==> r == s
  {
    if s == "" || s[0] == '\0' then "" else [s[0]] + CString(s[1..])
  }

  datatype RowResult = Skipped | Rejected | Accepted(entry: Entry)

  /** The unsigned fields in the order they are demanded; one that is missing or malformed refuses the row. */
  function ReadAll(line: string, names: seq<string>): (r: Option<seq<U64>>)
    ensures r.Some? ==> |r.value| == |names|
  {
    if names == [] then Some([])
    else
      var before := ReadAll(line, names[..|names| - 1]);
      var last := ReadUint64(line, names[|names| - 1]);
      if before == None || last == None then None else Some(before.value + [last.value])
  }

  function UnsignedNames(): (r: seq<string>)
    ensures |r| == 13
  {
    ["eventId", "eventKind", "targetGuid", "targetClassHash", "value", "flags", "worldEpoch", "levelId",
     "hostSaveKeyHash", "sourcePeerHash", "preVersion", "postVersion", "areaRevision"]
  }

  /** The packet with its casts to the narrower fields. */
  function Assembled(ns: seq<U64>, count: I32, text: string): Packet
    requires |ns| == 13 && |text| < TEXT_CAPACITY
  {
    Packet(0, ns[0], ns[1] % 0x1_0000, ns[2], ns[3], ns[4] % 0x1_0000, count, CString(text),
           ns[5] % 0x1_0000_0000, ns[6] % 0x1_0000_0000, ns[7], ns[8], ns[9], ns[10] % 0x1_0000_0000,
           ns[11] % 0x1_0000_0000, ns[12] % 0x1_0000_0000)
  }

  function Marker(): string {
    KeyText("type") + "\"" + TypeText() + "\""
  }

  /** What the loop body makes of one line, up to the callback. A missing count or text is tolerated. */
  function Parsed(line: string, levelName: string): RowResult {
    if Find(line, Marker()) == None then Skipped
    else
      var level := ReadText(line, "level");
      var numbers := ReadAll(line, UnsignedNames());
      if level == None || level.value != levelName || numbers == None then Rejected
      else
        var count := ReadInt32(line, "count");
        var textValue := ReadText(line, "textValue");
        var text := if textValue == None then "" else textValue.value;
        if |text| >= TEXT_CAPACITY then Rejected
        else Accepted(Entry(levelName, Assembled(numbers.value, if count == None then 0 else count.value, text)))
  }

  /** The exported fields are all of them but the link sequence number. */
  function Unsequenced(e: Entry): Entry {
    e.(packet := e.packet.(sequence := 0))
  }

  // ---- One row comes back --------------------------------------------------------------------

  lemma {:induction false} EscapePlain(s: string)
    requires '"' !in s && '\\' !in s
    ensures Escape(s) == s
  {
    if s != "" {
      EscapePlain(s[..|s| - 1]);
    }
  }

  lemma {:induction false} DecimalIsPlain(n: nat)
    ensures IsPlain(Decimal(n)) && '\n' !in Decimal(n)
  {
    DecimalIsNumber(n);
  }

  lemma ShortNames()
    ensures IsName("type") && IsName("level") && IsName("value") && IsName("count") && IsName("flags")
            && IsName("eventId")
    ensures IsName("levelId") && IsName("eventKind")
  {
  }

  lemma LongNames()
    ensures IsName("targetGuid") && IsName("targetClassHash") && IsName("textValue") && IsName("worldEpoch")
  {
  }

  lemma LastNames()
    ensures IsName("hostSaveKeyHash") && IsName("sourcePeerHash") && IsName("preVersion") && IsName("postVersion")
    ensures IsName("areaRevision")
  {
  }

  lemma NamesAreNames(i: nat)
    requires i < 17
    ensures IsName(Names()[i])
  {
    ShortNames();
    LongNames();
    LastNames();
    hide IsName;
  }

  function NameCode(s: string): int
    requires s != ""
  {
    |s| * 1000 + s[0] as int
  }

  lemma NamesDiffer(i: nat, j: nat)
    requires i < j < 17
    ensures Names()[i] != Names()[j]
  {
    assert NameCode(Names()[i]) != NameCode(Names()[j]);
  }

  lemma PrintedIsValue(v: Value)
    ensures IsValue(Printed(v))
  {
    if v.Signed? {
      var i: int := v.i;
      DecimalIsPlain(if i < 0 then -i else i);
    } else if v.Unsigned? {
      DecimalIsPlain(v.u);
    }
    hide Decimal, Escape;
  }

  lemma FieldsAreWellFormed(e: Entry)
    ensures WellFormed(Fields(e))
  {
    hide Names, Values, IsName, IsValue, Printed;
    forall i | 0 <= i < 17 ensures IsName(Names()[i]) && IsValue(Printed(Values(e)[i])) {
      NamesAreNames(i);
      PrintedIsValue(Values(e)[i]);
    }
    forall i, j | 0 <= i < j < 17 ensures Names()[i] != Names()[j] {
      NamesDiffer(i, j);
    }
  }

  lemma TokenSplits(head: string, rest: string) returns (more: string)
    requires |head| < TOKEN_LENGTH && EndsValue(rest)
    ensures Token(head + rest) == head + more && more != "" && !IsDigit(more[0])
  {
    more := Token(head + rest)[|head|..];
    assert Token(head + rest) == head + more;
  }

  lemma DecimalLengths(n: nat)
    ensures n <= 0xffff_ffff_ffff_ffff ==> |Decimal(n)| <= 20
    ensures n <= 0x8000_0000 ==> |Decimal(n)| <= 10
  {
    assert Power10(10) == 100_0000_0000;
    assert Power10(20) == 100_0000_0000 * 100_0000_0000;
    if n <= 0x8000_0000 {
      DecimalLength(n, 10);
    } else if n <= 0xffff_ffff_ffff_ffff {
      DecimalLength(n, 20);
    }
  }

  lemma UnsignedComesBack(n: U64, rest: string)
    requires EndsValue(rest)
    ensures UnsignedFrom(Decimal(n) + rest) == Some(n)
  {
    DecimalLengths(n);
    var more := TokenSplits(Decimal(n), rest);
    ParseOfDecimal(n, more);
    hide *;
  }

  lemma SignedComesBack(n: I32, rest: string)
    requires EndsValue(rest)
    ensures SignedFrom(SignedDecimal(n) + rest) == Some(n)
  {
    var i: int := n;
    DecimalLengths(if i < 0 then -i else i);
    var more := TokenSplits(SignedDecimal(n), rest);
    ParseOfSignedDecimal(n, more);
    hide *;
  }

  lemma TextComesBack(s: string, rest: string)
    ensures TextFrom(Quoted(s) + rest) == Some(s)
  {
    UnescapeUndoesEscape(s, rest);
    assert (Quoted(s) + rest)[1..] == Escape(s) + "\"" + rest;
    hide Escape, Unescape;
  }

  /** Each printed value is read back by the reader of its kind. */
  lemma ValueComesBack(e: Entry, k: nat)
    requires k < 17
    ensures var line, name, v := EntryRow(e), Names()[k], Values(e)[k];
            match v
            case Text(s) => ReadText(line, name) == Some(s)
            case Unsigned(n) => ReadUint64(line, name) == Some(n)
            case Signed(n) => ReadInt32(line, name) == Some(n)
  {
    var v, rest := Values(e)[k], Rest(Fields(e), k + 1);
    FieldsAreWellFormed(e);
    FindsItsField(Fields(e), k);
    hide Names, Values, Rest, After, KeyText, UnsignedFrom, SignedFrom, TextFrom, Quoted, Decimal, SignedDecimal, Row,
      WellFormed, EndsValue;
    match v
    case Text(s) => TextComesBack(s, rest);
    case Unsigned(n) => UnsignedComesBack(n, rest);
    case Signed(n) => SignedComesBack(n, rest);
  }

  lemma {:induction false} ReadAllIs(line: string, names: seq<string>, ns: seq<U64>)
    requires |names| == |ns| && forall i :: 0 <= i < |ns| ==> ReadUint64(line, names[i]) == Some(ns[i])
    ensures ReadAll(line, names) == Some(ns)
  {
    hide ReadUint64;
    if ns != [] {
      var last := |ns| - 1;
      ReadAllIs(line, names[..last], ns[..last]);
      assert ns == ns[..last] + [ns[last]];
    }
  }

  function UnsignedIndex(i: nat): nat {
    if i < 5 then i + 2 else i + 4
  }

  function Numbers(e: Entry): (r: seq<U64>)
    ensures |r| == 13
  {
    var p := e.packet;
    [p.eventId, p.eventKind, p.targetGuid, p.targetClassHash, p.value, p.flags, p.worldEpoch, p.levelId,
     p.hostSaveKeyHash, p.sourcePeerHash, p.preVersion, p.postVersion, p.areaRevision]
  }

  lemma UnsignedIndices(e: Entry, i: nat)
    requires i < 13
    ensures UnsignedNames()[i] == Names()[UnsignedIndex(i)] && Values(e)[UnsignedIndex(i)] == Unsigned(Numbers(e)[i])
  {
  }

  lemma NumbersComeBack(e: Entry)
    ensures ReadAll(EntryRow(e), UnsignedNames()) == Some(Numbers(e))
  {
    hide Names, Values, Numbers, UnsignedNames, ReadUint64, EntryRow;
    forall i | 0 <= i < 13 ensures ReadUint64(EntryRow(e), UnsignedNames()[i]) == Some(Numbers(e)[i]) {
      UnsignedIndices(e, i);
      ValueComesBack(e, UnsignedIndex(i));
    }
    ReadAllIs(EntryRow(e), UnsignedNames(), Numbers(e));
  }

  lemma NamedTexts(e: Entry)
    ensures Names()[0] == "type" && Names()[1] == "level" && Names()[7] == "count" && Names()[8] == "textValue"
    ensures Names()[FLAGS] == "flags"
    ensures Values(e)[0] == Text(TypeText()) && Values(e)[1] == Text(e.level) && Values(e)[7] == Signed(e.packet.count)
    ensures Values(e)[8] == Text(e.packet.textValue)
  {
  }

  lemma OccursBetween(head: string, key: string, tail: string)
    ensures OccursAt(head + key + tail, key, |head|)
  {
    assert (head + key + tail)[|head|..|head| + |key|] == key;
  }

  lemma RowStarts(fs: seq<Field>)
    requires fs != []
    ensures OccursAt(Row(fs), KeyText(fs[0].name) + fs[0].value, 1)
  {
    var name, value, tail := KeyText(fs[0].name), fs[0].value, Rest(fs, 1);
    RowSplits(fs, 0);
    assert fs[..0] == [];
    RegroupFirst(name, value, tail);
    OccursBetween("{", name + value, tail);
    hide OccursAt, KeyText, Row;
  }

  lemma RegroupFirst(key: string, value: string, tail: string)
    ensures "" + (Segmented('{', key, value) + tail) == "{" + (key + value) + tail
  {
  }

  lemma MarkerOccurs(e: Entry)
    ensures OccursAt(EntryRow(e), Marker(), 1)
  {
    NamedTexts(e);
    TypeTextIsPlain();
    EscapePlain(TypeText());
    RowStarts(Fields(e));
    hide Escape, Names, Values, TypeText, KeyText, Row;
    assert Fields(e)[0].value == "\"" + TypeText() + "\"";
    assert KeyText("type") + ("\"" + TypeText() + "\"") == Marker();
  }

  lemma MarkerFound(line: string)
    requires OccursAt(line, Marker(), 1)
    ensures Find(line, Marker()).Some?
  {
    hide Marker, OccursAt;
  }

  lemma TypeTextIsPlain()
    ensures '"' !in TypeText() && '\\' !in TypeText() && '\n' !in TypeText()
  {
  }

  lemma AssembledIsExported(e: Entry)
    ensures Assembled(Numbers(e), e.packet.count, e.packet.textValue) == Unsequenced(e).packet
  {
  }

  lemma ParsedOf(line: string, level: string, ns: seq<U64>, count: I32, text: CText)
    requires Find(line, Marker()).Some? && ReadText(line, "level") == Some(level)
    requires |ns| == 13 && ReadAll(line, UnsignedNames()) == Some(ns)
    requires ReadInt32(line, "count") == Some(count) && ReadText(line, "textValue") == Some(text)
    ensures Parsed(line, level) == Accepted(Entry(level, Assembled(ns, count, text)))
  {
    hide Marker, Find, ReadText, ReadAll, ReadInt32, UnsignedNames, Assembled;
  }

  /** One row restores its entry, whatever characters the level and the text hold. */
  lemma RowComesBack(e: Entry)
    ensures Parsed(EntryRow(e), e.level) == Accepted(Unsequenced(e))
  {
    MarkerOccurs(e);
    MarkerFound(EntryRow(e));
    NumbersComeBack(e);
    NamedTexts(e);
    ValueComesBack(e, 1);
    ValueComesBack(e, 7);
    ValueComesBack(e, 8);
    AssembledIsExported(e);
    assert Unsequenced(e) == Entry(e.level, Unsequenced(e).packet);
    hide *;
    ParsedOf(EntryRow(e), e.level, Numbers(e), e.packet.count, e.packet.textValue);
  }
}
