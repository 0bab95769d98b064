/** Rows that the current printer does not write: those of older journals, which had neither a count nor a text, those
    of other levels, and lines that are no rows at all. */
module JournalCompatibility {
  import opened AreaObjectJournal
  import opened JournalText
  import opened JournalRows
  import opened JournalReplay

  // ---- A field that is not there -------------------------------------------------------------

  lemma NameIsFresh(fs: seq<Field>, name: string)
    requires WellFormed(fs) && IsName(name) && forall i :: 0 <= i < |fs| ==> fs[i].name != name
    ensures WellFormed(fs + [Field(name, "0")])
  {
    assert IsPlain("0");
  }

  lemma MatchSurvives(head: string, tail: string, key: string, i: nat)
    requires key != "" && key[|key| - 1] != '}' && OccursAt(head + "}", key, i)
    ensures OccursAt(head + tail, key, i) && i < |head|
  {
    var line := head + "}";
    assert line[i..i + |key|][|key| - 1] == line[i + |key| - 1];
    assert i + |key| <= |head|;
    assert (head + tail)[i..i + |key|] == line[i..i + |key|];
  }

  /** The search for a field that a row does not have finds nothing, whatever the strings of the row hold. */
  lemma MissingFieldIsNotFound(fs: seq<Field>, name: string)
    requires WellFormed(fs) && IsName(name) && forall i :: 0 <= i < |fs| ==> fs[i].name != name
    ensures After(Row(fs), KeyText(name)) == None
  {
    var more, key := fs + [Field(name, "0")], KeyText(name);
    NameIsFresh(fs, name);
    RowSplits(more, |fs|);
    assert more[..|fs|] == fs;
    assert key[|key| - 1] == ':';
    hide Segments, WellFormed, OccursAt, KeyText, IsName;
    forall i: nat ensures !OccursAt(Row(fs), key, i) {
      if OccursAt(Row(fs), key, i) {
        MatchSurvives(Segments(fs), Rest(more, |fs|), key, i);
        NoMatchBefore(more, |fs|, |fs|, i);
      }
    }
  }

  // ---- Rows of older journals ----------------------------------------------------------------

  /** The fields of a row without its count and text. */
  function OldFields(e: Entry): (fs: seq<Field>)
    ensures |fs| == 15
  {
    Fields(e)[..7] + Fields(e)[9..]
  }

  function OldIndex(k: nat): nat {
    if k < 7 then k else k + 2
  }

  lemma OldFieldIs(e: Entry, k: nat)
    requires k < 15
    ensures OldFields(e)[k] == Fields(e)[OldIndex(k)] == Field(Names()[OldIndex(k)], Printed(Values(e)[OldIndex(k)]))
  {
    hide Names, Values, Printed;
  }

  lemma OldFieldsAreWellFormed(e: Entry)
    ensures WellFormed(OldFields(e))
    ensures forall i :: 0 <= i < 15 ==> OldFields(e)[i].name != "count" && OldFields(e)[i].name != "textValue"
  {
    FieldsAreWellFormed(e);
    NamedTexts(e);
    assert Fields(e)[7].name == "count" && Fields(e)[8].name == "textValue";
    forall k | 0 <= k < 15 ensures OldFields(e)[k] == Fields(e)[OldIndex(k)] && OldIndex(k) < 17 {
      OldFieldIs(e, k);
    }
    hide Fields, Names, Values, Printed, OldFields;
  }

  lemma OldValueComesBack(e: Entry, k: nat)
    requires k < 15
    ensures var line, name, v := Row(OldFields(e)), Names()[OldIndex(k)], Values(e)[OldIndex(k)];
            match v
            case Text(s) => ReadText(line, name) == Some(s)
            case Unsigned(n) => ReadUint64(line, name) == Some(n)
            case Signed(n) => ReadInt32(line, name) == Some(n)
  {
    var v, rest := Values(e)[OldIndex(k)], Rest(OldFields(e), k + 1);
    OldFieldsAreWellFormed(e);
    OldFieldIs(e, k);
    FindsItsField(OldFields(e), k);
    hide Names, Values, Rest, After, KeyText, UnsignedFrom, SignedFrom, TextFrom, Quoted, Decimal, SignedDecimal, Row,
      WellFormed, EndsValue, OldFields, Fields;
    match v
    case Text(s) => TextComesBack(s, rest);
    case Unsigned(n) => UnsignedComesBack(n, rest);
    case Signed(n) => SignedComesBack(n, rest);
  }

  lemma OldNumbersComeBack(e: Entry)
    ensures ReadAll(Row(OldFields(e)), UnsignedNames()) == Some(Numbers(e))
  {
    hide Names, Values, Numbers, UnsignedNames, ReadUint64, OldFields, Row;
    forall i | 0 <= i < 13 ensures ReadUint64(Row(OldFields(e)), UnsignedNames()[i]) == Some(Numbers(e)[i]) {
      UnsignedIndices(e, i);
      OldValueComesBack(e, i + 2);
    }
    ReadAllIs(Row(OldFields(e)), UnsignedNames(), Numbers(e));
  }

  lemma OldMarkerFound(e: Entry)
    ensures Find(Row(OldFields(e)), Marker()).Some?
  {
    NamedTexts(e);
    TypeTextIsPlain();
    EscapePlain(TypeText());
    RowStarts(OldFields(e));
    OldFieldIs(e, 0);
    hide Escape, Names, Values, TypeText, KeyText, Row, Fields, OldFields;
    assert OldFields(e)[0].value == "\"" + TypeText() + "\"";
    assert KeyText("type") + ("\"" + TypeText() + "\"") == Marker();
    MarkerFound(Row(OldFields(e)));
  }

  lemma AbsentNames(e: Entry)
    ensures ReadInt32(Row(OldFields(e)), "count") == None && ReadText(Row(OldFields(e)), "textValue") == None
  {
    OldFieldsAreWellFormed(e);
    assert IsName("count") && IsName("textValue");
    hide OldFields, Row, KeyText, After, WellFormed;
    MissingFieldIsNotFound(OldFields(e), "count");
    MissingFieldIsNotFound(OldFields(e), "textValue");
  }

  lemma ParsedWithout(line: string, level: string, ns: seq<U64>)
    requires Find(line, Marker()).Some? && ReadText(line, "level") == Some(level)
    requires |ns| == 13 && ReadAll(line, UnsignedNames()) == Some(ns)
    requires ReadInt32(line, "count") == None && ReadText(line, "textValue") == None
    ensures Parsed(line, level) == Accepted(Entry(level, Assembled(ns, 0, "")))
  {
    hide Marker, Find, ReadText, ReadAll, ReadInt32, UnsignedNames, Assembled;
  }

  lemma AssembledWithout(e: Entry)
    ensures Assembled(Numbers(e), 0, "") == e.packet.(sequence := 0, count := 0, textValue := "")
  {
  }

  /** A row of an older journal restores its entry with the count zero and the text empty. */
  lemma OldRowComesBack(e: Entry)
    ensures Parsed(Row(OldFields(e)), e.level) ==
            Accepted(e.(packet := e.packet.(sequence := 0, count := 0, textValue := "")))
  {
    NamedTexts(e);
    OldValueComesBack(e, 1);
    OldMarkerFound(e);
    OldNumbersComeBack(e);
    AbsentNames(e);
    AssembledWithout(e);
    assert e.(packet := e.packet.(sequence := 0, count := 0, textValue := "")) ==
           Entry(e.level, e.packet.(sequence := 0, count := 0, textValue := ""));
    assert OldIndex(1) == 1;
    hide *;
    ParsedWithout(Row(OldFields(e)), e.level, Numbers(e));
  }

  // ---- Other lines ---------------------------------------------------------------------------

  /** A row of another level is counted and refused. */
  lemma OtherLevelIsRefused(e: Entry, level: string)
    requires level != e.level
    ensures Parsed(EntryRow(e), level) == Rejected
  {
    RowComesBack(e);
    hide Find, ReadText, ReadAll, ReadInt32, Assembled, EntryRow;
  }

  /** A line without the marker of a row is passed over. */
  lemma OtherLineIsSkipped(line: string, level: string)
    requires forall i: nat :: !OccursAt(line, "\"type\":\"area_object_event\"", i)
    ensures Parsed(line, level) == Skipped
  {
    assert Marker() == "\"type\":\"area_object_event\"";
  }
}
