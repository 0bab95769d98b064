/** CoopAreaObjectJournal.cpp: a level exported to a file of lines and replayed from it. */
module JournalFile {
  import opened AreaObjectJournal
  import opened JournalText
  import opened JournalRows
  import opened JournalReplay

  // ---- Lines ---------------------------------------------------------------------------------

  function LineEnd(text: string): (n: nat)
    ensures n <= |text| && forall k :: 0 <= k < n ==> text[k] != '\n'
    ensures n < |text| ==> text[n] == '\n'
  {
    if text == "" || text[0] == '\n' then 0 else 1 + LineEnd(text[1..])
  }

  /** std::getline until the end of the file. */
  function Lines(text: string): seq<string>
    decreases |text|
  {
    if text == "" then []
    else
      var n := LineEnd(text);
      [text[..n]] + if n < |text| then Lines(text[n + 1..]) else []
  }

  lemma LinesOfRow(row: string, more: string)
    ensures '\n' !in row ==> Lines(row + "\n" + more) == [row] + Lines(more)
    ensures '\n' in row ==> Lines(row + "\n" + more) != [] && Lines(row + "\n" + more)[0] == row[..LineEnd(row)]
  {
    var text, n := row + "\n" + more, LineEnd(row);
    assert forall k :: 0 <= k < n ==> text[k] == row[k];
    assert text[n] == '\n';
    assert LineEnd(text) == n;
    assert text[..n] == row[..n];
    if '\n' !in row {
      assert n == |row|;
      assert row[..n] == row && text[n + 1..] == more;
    }
  }

  // ---- Export --------------------------------------------------------------------------------

  predicate OfLevel(m: Entries, key: Key, level: string) {
    key in m && m[key].level == level
  }

  /** The file of one level, the map enumerated in some order. */
  function Exported(m: Entries, order: seq<Key>, level: string): string {
    if order == [] then ""
    else if OfLevel(m, order[0], level) then EntryRow(m[order[0]]) + "\n" + Exported(m, order[1..], level)
    else Exported(m, order[1..], level)
  }

  ghost predicate Enumerates(order: seq<Key>, m: Entries) {
    && (forall key :: key in m <==> key in order)
    && forall i, j :: 0 <= i < j < |order| ==> order[i] != order[j]
  }

  // ---- Replay --------------------------------------------------------------------------------

  datatype Outcome = Outcome(rows: nat, applied: nat, rejected: nat, entries: Entries)

  function Step(o: Outcome, line: string, level: string, accepts: Packet -> bool): Outcome {
    match Parsed(line, level)
    case Skipped => o
    case Rejected => o.(rows := o.rows + 1, rejected := o.rejected + 1)
    case Accepted(e) =>
      if accepts(e.packet) then
        o.(rows := o.rows + 1, applied := o.applied + 1, entries := Recorded(o.entries, e))
      else o.(rows := o.rows + 1, rejected := o.rejected + 1)
  }

  function ReplayLines(lines: seq<string>, level: string, accepts: Packet -> bool, o: Outcome): (r: Outcome)
    ensures r.rejected >= o.rejected
    ensures r.rows - o.rows == r.applied - o.applied + r.rejected - o.rejected
  {
    if lines == [] then o else ReplayLines(lines[1..], level, accepts, Step(o, lines[0], level, accepts))
  }

  function ReplayText(text: string, level: string, accepts: Packet -> bool, entries: Entries): Outcome {
    ReplayLines(Lines(text), level, accepts, Outcome(0, 0, 0, entries))
  }

  // ---- Newlines ------------------------------------------------------------------------------

  predicate HasNewline(e: Entry) {
    '\n' in e.level || '\n' in e.packet.textValue
  }

  lemma {:induction false} EscapeNewline(s: string)
    ensures '\n' in Escape(s) <==> '\n' in s
  {
    if s != "" {
      EscapeNewline(s[..|s| - 1]);
      assert s == s[..|s| - 1] + [s[|s| - 1]];
    }
  }

  predicate ValueHasNewline(v: Value) {
    v.Text? && '\n' in v.text
  }

  lemma PrintedNewline(v: Value)
    ensures '\n' in Printed(v) <==> ValueHasNewline(v)
  {
    match v
    case Text(s) => EscapeNewline(s);
      hide Escape;
    case Unsigned(n) => DecimalIsPlain(n);
      hide Decimal;
    case Signed(n) =>
      var i: int := n;
      DecimalIsPlain(if i < 0 then -i else i);
      hide Decimal;
  }

  lemma SegmentNewline(sep: char, key: string, value: string, rest: string)
    requires sep != '\n' && '\n' !in key
    ensures '\n' in Segmented(sep, key, value) + rest <==> '\n' in value || '\n' in rest
  {
  }

  lemma FieldNewline(fs: seq<Field>, k: nat)
    requires k < |fs| && WellFormed(fs)
    ensures '\n' in Rest(fs, k) <==> '\n' in fs[k].value || '\n' in Rest(fs, k + 1)
  {
    assert '\n' !in KeyText(fs[k].name);
    hide Segmented, KeyText, IsName, IsValue;
    SegmentNewline(if k == 0 then '{' else ',', KeyText(fs[k].name), fs[k].value, Rest(fs, k + 1));
  }

  lemma {:induction false} RestNewline(fs: seq<Field>, k: nat)
    requires k <= |fs| && WellFormed(fs)
    ensures '\n' in Rest(fs, k) <==> exists i :: k <= i < |fs| && '\n' in fs[i].value
    decreases |fs| - k
  {
    if k < |fs| {
      FieldNewline(fs, k);
      hide Rest, WellFormed;
      RestNewline(fs, k + 1);
    }
  }

  lemma RowNewline(e: Entry, k: nat)
    requires k <= 17
    ensures '\n' in Rest(Fields(e), k) <==> exists i :: k <= i < 17 && ValueHasNewline(Values(e)[i])
  {
    FieldsAreWellFormed(e);
    RestNewline(Fields(e), k);
    hide Names, Values, Printed, Rest, IsName, IsValue, ValueHasNewline;
    forall i | 0 <= i < 17 ensures '\n' in Fields(e)[i].value <==> ValueHasNewline(Values(e)[i]) {
      PrintedNewline(Values(e)[i]);
    }
  }

  lemma RowNewlines(e: Entry)
    ensures '\n' in EntryRow(e) <==> HasNewline(e)
    ensures '\n' !in Rest(Fields(e), FLAGS)
  {
    NewlinesOfValues(e);
    RowNewline(e, 0);
    RowNewline(e, FLAGS);
    RowSplits(Fields(e), 0);
    assert Fields(e)[..0] == [];
    hide Values, ValueHasNewline, Rest, Row, HasNewline;
  }

  lemma NewlinesOfValues(e: Entry)
    ensures (exists i :: 0 <= i < 17 && ValueHasNewline(Values(e)[i])) <==> HasNewline(e)
    ensures !exists i :: FLAGS <= i < 17 && ValueHasNewline(Values(e)[i])
  {
    TypeTextIsPlain();
    hide TypeText;
    var vs := Values(e);
    assert ValueHasNewline(vs[1]) <==> '\n' in e.level;
    assert ValueHasNewline(vs[8]) <==> '\n' in e.packet.textValue;
    forall i | 0 <= i < 17 && i != 1 && i != 8 ensures !ValueHasNewline(vs[i]) {
      assert i == 0 || !vs[i].Text?;
    }
  }

  // ---- A row cut by a newline is refused -----------------------------------------------------

  lemma OccursInPrefix(line: string, n: nat, key: string, i: nat)
    requires n <= |line|
    ensures OccursAt(line[..n], key, i) <==> OccursAt(line, key, i) && i + |key| <= n
  {
    if i + |key| <= n {
      assert line[..n][i..i + |key|] == line[i..i + |key|];
    }
  }

  lemma {:induction false} ReadAllFails(line: string, names: seq<string>, i: nat)
    requires i < |names| && ReadUint64(line, names[i]) == None
    ensures ReadAll(line, names) == None
  {
    hide ReadUint64;
    if i < |names| - 1 {
      ReadAllFails(line, names[..|names| - 1], i);
    }
  }

  lemma MarkerBeforeNewline(e: Entry, n: nat)
    requires n < |EntryRow(e)| && EntryRow(e)[n] == '\n'
    ensures OccursAt(EntryRow(e)[..n], Marker(), 1)
  {
    var line, marker := EntryRow(e), Marker();
    TypeTextIsPlain();
    assert '\n' !in KeyText("type");
    assert '\n' !in marker;
    MarkerOccurs(e);
    RowSplits(Fields(e), 0);
    assert line[0] == '{' by {
      assert Fields(e)[..0] == [];
    }
    hide Marker, EntryRow;
    assert forall k :: 1 <= k <= |marker| ==> line[k] == line[1..1 + |marker|][k - 1];
    OccursInPrefix(line, n, marker, 1);
  }

  lemma NewlineInHead(head: string, tail: string, n: nat)
    ensures '\n' !in tail && n < |head + tail| && (head + tail)[n] == '\n' ==> n < |head|
  {
    assert forall k :: |head| <= k < |head + tail| ==> (head + tail)[k] == tail[k - |head|];
  }

  lemma NewlineBeforeFlags(e: Entry, n: nat)
    requires n < |EntryRow(e)| && EntryRow(e)[n] == '\n'
    ensures n < |Segments(Fields(e)[..FLAGS])|
  {
    RowNewlines(e);
    RowSplits(Fields(e), FLAGS);
    NewlineInHead(Segments(Fields(e)[..FLAGS]), Rest(Fields(e), FLAGS), n);
    hide *;
  }

  lemma NoFlagsBeforeNewline(e: Entry, n: nat)
    requires n < |EntryRow(e)| && EntryRow(e)[n] == '\n'
    ensures ReadUint64(EntryRow(e)[..n], "flags") == None
  {
    var line, key := EntryRow(e), KeyText("flags");
    FieldsAreWellFormed(e);
    NamedTexts(e);
    NewlineBeforeFlags(e, n);
    assert Fields(e)[FLAGS].name == "flags";
    hide Fields, Segments, Row, KeyText, OccursAt, WellFormed;
    forall i: nat ensures !OccursAt(line[..n], key, i) {
      OccursInPrefix(line, n, key, i);
      if i < n {
        NoMatchBefore(Fields(e), FLAGS, FLAGS, i);
      }
    }
  }

  /** A newline in the level or the text cuts the row; what stands before it is a row that is refused. */
  lemma BrokenRow(e: Entry, level: string)
    requires HasNewline(e)
    ensures Parsed(EntryRow(e)[..LineEnd(EntryRow(e))], level) == Rejected
  {
    RowNewlines(e);
    var n := LineEnd(EntryRow(e));
    MarkerBeforeNewline(e, n);
    MarkerFound(EntryRow(e)[..n]);
    NoFlagsBeforeNewline(e, n);
    assert UnsignedNames()[5] == "flags";
    ReadAllFails(EntryRow(e)[..n], UnsignedNames(), 5);
    hide *;
    ParsedNeedsNumbers(EntryRow(e)[..n], level);
  }

  lemma ParsedNeedsNumbers(line: string, level: string)
    ensures Find(line, Marker()).Some? && ReadAll(line, UnsignedNames()) == None ==> Parsed(line, level) == Rejected
  {
    hide ReadAll, Find, ReadText, UnsignedNames, Marker;
  }

  // ---- The round trip ------------------------------------------------------------------------

  /** The entries of the level that the callback accepts, as the exported fields give them. */
  function Selected(m: Entries, order: seq<Key>, level: string, accepts: Packet -> bool): Entries {
    map key | key in order && key in m && m[key].level == level && accepts(Unsequenced(m[key]).packet) ::
      Unsequenced(m[key])
  }

  ghost predicate NoRepeats(order: seq<Key>) {
    forall i, j :: 0 <= i < j < |order| ==> order[i] != order[j]
  }

  predicate HasBrokenRow(m: Entries, order: seq<Key>, level: string) {
    exists key :: key in order && OfLevel(m, key, level) && HasNewline(m[key])
  }

  lemma SelectedFromFront(m: Entries, order: seq<Key>, level: string, accepts: Packet -> bool)
    requires order != [] && NoRepeats(order)
    ensures NoRepeats(order[1..]) && order[0] !in order[1..]
    ensures var key, rest := order[0], Selected(m, order[1..], level, accepts);
            Selected(m, order, level, accepts) ==
            if key in m && m[key].level == level && accepts(Unsequenced(m[key]).packet)
              then rest[key := Unsequenced(m[key])] else rest
  {
    assert forall key :: key in order <==> key == order[0] || key in order[1..];
  }

  lemma RowStep(m: Entries, key: Key, accepts: Packet -> bool, o: Outcome)
    requires EntriesOk(m) && key in m && key !in o.entries
    ensures var e := Unsequenced(m[key]);
            Step(o, EntryRow(m[key]), m[key].level, accepts) ==
            if accepts(e.packet) then Outcome(o.rows + 1, o.applied + 1, o.rejected, o.entries[key := e])
            else Outcome(o.rows + 1, o.applied, o.rejected + 1, o.entries)
  {
    RowComesBack(m[key]);
    assert IsRecordable(m[key]) && BuildKey(m[key].packet) == key;
    hide EntryRow, Parsed;
  }

  lemma ReplayOfRow(row: string, more: string, level: string, accepts: Packet -> bool, o: Outcome)
    requires '\n' !in row
    ensures ReplayLines(Lines(row + "\n" + more), level, accepts, o) ==
            ReplayLines(Lines(more), level, accepts, Step(o, row, level, accepts))
  {
    LinesOfRow(row, more);
    hide Lines, Step;
  }

  /** Every row of the file is counted once and the accepted entries are added. */
  ghost predicate Replayed(r: Outcome, o: Outcome, accepted: Entries, all: Entries) {
    && r.entries == o.entries + accepted
    && r.applied == o.applied + |accepted|
    && r.rows == o.rows + |all|
  }

  lemma ReplayedOneMore(r: Outcome, o: Outcome, key: Key, e: Entry, accepted: Entries, all: Entries)
    requires key !in accepted && key !in all
    ensures Replayed(r, Outcome(o.rows + 1, o.applied + 1, o.rejected, o.entries[key := e]), accepted, all)
            ==> Replayed(r, o, accepted[key := e], all[key := e])
    ensures Replayed(r, Outcome(o.rows + 1, o.applied, o.rejected + 1, o.entries), accepted, all)
            ==> Replayed(r, o, accepted, all[key := e])
  {
    OneMoreEntry(o.entries, key, e, accepted);
    OneMoreCounted(key, e, accepted);
    OneMoreCounted(key, e, all);
  }

  lemma OneMoreEntry(m: Entries, key: Key, e: Entry, more: Entries)
    requires key !in more
    ensures m[key := e] + more == m + more[key := e]
  {
  }

  lemma OneMoreCounted(key: Key, e: Entry, more: Entries)
    requires key !in more
    ensures |more[key := e]| == |more| + 1
  {
    assert more[key := e].Keys == more.Keys + {key};
    assert |more.Keys + {key}| == |more.Keys| + 1;
  }

  /** Replaying the export restores exactly the accepted entries of the level and counts every row. */
  lemma {:induction false} ReplayOfExport(m: Entries, order: seq<Key>, level: string, accepts: Packet -> bool,
      o: Outcome)
    requires EntriesOk(m) && NoRepeats(order) && !HasBrokenRow(m, order, level)
    requires forall key :: key in order ==> key !in o.entries
    ensures Replayed(ReplayLines(Lines(Exported(m, order, level)), level, accepts, o), o,
                     Selected(m, order, level, accepts), Selected(m, order, level, _ => true))
  {
    if order != [] {
      var key, rest := order[0], order[1..];
      SelectedFromFront(m, order, level, accepts);
      SelectedFromFront(m, order, level, _ => true);
      assert !HasBrokenRow(m, rest, level);
      if OfLevel(m, key, level) {
        RowNewlines(m[key]);
        RowStep(m, key, accepts, o);
        ReplayOfRow(EntryRow(m[key]), Exported(m, rest, level), level, accepts, o);
        var next := Step(o, EntryRow(m[key]), level, accepts);
        ReplayOfExport(m, rest, level, accepts, next);
        hide Lines, ReplayLines, Step, EntryRow, Selected, Replayed, Unsequenced, HasNewline, NoRepeats, EntriesOk;
        ReplayedOneMore(ReplayLines(Lines(Exported(m, rest, level)), level, accepts, next), o, key, Unsequenced(m[key]),
                        Selected(m, rest, level, accepts), Selected(m, rest, level, _ => true));
      } else {
        ReplayOfExport(m, rest, level, accepts, o);
      }
    }
  }

  /** A file with a broken row is never replayed to the end without a refusal. */
  lemma {:induction false} BrokenRowIsRefused(m: Entries, order: seq<Key>, level: string, accepts: Packet -> bool,
      o: Outcome)
    requires HasBrokenRow(m, order, level)
    ensures ReplayLines(Lines(Exported(m, order, level)), level, accepts, o).rejected > o.rejected
  {
    var key, rest := order[0], order[1..];
    var more := Exported(m, rest, level);
    assert !(OfLevel(m, key, level) && HasNewline(m[key])) ==> HasBrokenRow(m, rest, level);
    if OfLevel(m, key, level) {
      RowNewlines(m[key]);
      var row := EntryRow(m[key]);
      if HasNewline(m[key]) {
        LinesOfRow(row, more);
        BrokenRow(m[key], level);
        hide EntryRow, Lines, Parsed, HasNewline;
      } else {
        ReplayOfRow(row, more, level, accepts, o);
        BrokenRowIsRefused(m, rest, level, accepts, Step(o, row, level, accepts));
        hide EntryRow, Lines, Parsed, HasNewline, ReplayLines, HasBrokenRow;
      }
    } else {
      BrokenRowIsRefused(m, rest, level, accepts, o);
    }
  }

  predicate Succeeded(o: Outcome) {
    o.rejected == 0
  }

  /** Exporting a level and replaying the file into an empty journal. Without a newline in a level or text every
      row is counted once and exactly the accepted entries stand in the journal under their keys; and the replay
      reports success exactly when no exported string holds a newline and the callback accepts every entry. */
  lemma JournalRoundTrip(m: Entries, order: seq<Key>, level: string, accepts: Packet -> bool)
    requires EntriesOk(m) && Enumerates(order, m)
    ensures var r, broken := ReplayText(Exported(m, order, level), level, accepts, map[]),
            HasBrokenRow(m, order, level);
            && (!broken ==> Replayed(r, Outcome(0, 0, 0, map[]), Selected(m, order, level, accepts),
                                     Selected(m, order, level, _ => true)))
            && (Succeeded(r) <==>
                  !broken && forall key :: OfLevel(m, key, level) ==> accepts(Unsequenced(m[key]).packet))
  {
    var start := Outcome(0, 0, 0, map[]);
    var accepted, all := Selected(m, order, level, accepts), Selected(m, order, level, _ => true);
    if HasBrokenRow(m, order, level) {
      BrokenRowIsRefused(m, order, level, accepts, start);
    } else {
      ReplayOfExport(m, order, level, accepts, start);
      AllAccepted(m, order, level, accepts);
      hide Selected, Exported, OfLevel, EntriesOk;
    }
  }

  lemma AllAccepted(m: Entries, order: seq<Key>, level: string, accepts: Packet -> bool)
    requires Enumerates(order, m)
    ensures var accepted, all := Selected(m, order, level, accepts), Selected(m, order, level, _ => true);
            |accepted| == |all| <==> forall key :: OfLevel(m, key, level) ==> accepts(Unsequenced(m[key]).packet)
  {
    var accepted, all := Selected(m, order, level, accepts), Selected(m, order, level, _ => true);
    assert accepted.Keys <= all.Keys && |accepted| == |accepted.Keys| && |all| == |all.Keys|;
    SameSizeSubset(accepted.Keys, all.Keys);
    assert forall key :: key in all.Keys <==> OfLevel(m, key, level);
    assert forall key :: key in accepted.Keys <==> OfLevel(m, key, level) && accepts(Unsequenced(m[key]).packet);
  }

  lemma SameSizeSubset<T>(a: set<T>, b: set<T>)
    requires a <= b
    ensures |a| <= |b| && (|a| == |b| <==> a == b)
  {
    assert b == a + (b - a);
    assert |b| == |a| + |b - a|;
  }

  // ---- The object ----------------------------------------------------------------------------

  lemma ExportedStep(m: Entries, order: seq<Key>, i: nat, level: string, output: string)
    requires i < |order|
    ensures output + Exported(m, order[i..], level)
         == output + (if OfLevel(m, order[i], level) then EntryRow(m[order[i]]) + "\n" else "")
           + Exported(m, order[i + 1..], level)
  {
    assert order[i..][1..] == order[i + 1..];
    hide EntryRow;
    assert output + "" == output;
  }

  class CoopAreaObjectJournal {
    var entries: Entries

    ghost predicate Valid()
      reads this
    {
      EntriesOk(entries)
    }

    constructor ()
      ensures Valid() && entries == map[]
    {
      entries := map[];
    }

    /** A transient event is taken without being stored; an incomplete one is refused. */
    method Record(levelName: string, packet: Packet) returns (ok: bool)
      requires Valid()
      modifies this
      ensures Valid() && entries == Recorded(old(entries), Entry(levelName, packet))
      ensures ok <==> IsTransient(packet.eventKind) || IsRecordable(Entry(levelName, packet))
    {
      RecordKeepsEntries(entries, Entry(levelName, packet));
      if IsTransient(packet.eventKind) {
        return true;
      }
      if levelName == "" || levelName == "unknown" || packet.levelId == 0
         || packet.targetGuid == 0 || packet.eventKind == 0 || packet.eventId == 0 {
        return false;
      }
      var key := BuildKey(packet);
      if key in entries && entries[key].packet.postVersion > packet.postVersion {
        return true;
      }
      entries := entries[key := Entry(levelName, packet)];
      return true;
    }

    method ExportLevelJsonl(levelName: string, order: seq<Key>) returns (output: string)
      requires Enumerates(order, entries)
      ensures output == Exported(entries, order, levelName)
    {
      output := "";
      for i := 0 to |order|
        invariant output + Exported(entries, order[i..], levelName) == Exported(entries, order, levelName)
      {
        ExportedStep(entries, order, i, levelName, output);
        hide EntryRow, Exported;
        var entry := entries[order[i]];
        if entry.level == levelName {
          output := output + (EntryRow(entry) + "\n");
        }
      }
    }

    method ReplayLine(line: string, levelName: string, accepts: Packet -> bool, rows0: nat, applied0: nat,
        rejected0: nat)
      returns (rows: nat, applied: nat, rejected: nat)
      requires Valid()
      modifies this
      ensures Valid()
      ensures Outcome(rows, applied, rejected, entries) ==
              Step(Outcome(rows0, applied0, rejected0, old(entries)), line, levelName, accepts)
    {
      rows, applied, rejected := rows0, applied0, rejected0;
      var row := ParseRow(line, levelName);
      hide Parsed, EntriesOk, Recorded;
      if row.Skipped? {
        return;
      }
      rows := rows + 1;
      if row.Rejected? || !accepts(row.entry.packet) {
        rejected := rejected + 1;
        return;
      }
      applied := applied + 1;
      var stored := Record(row.entry.level, row.entry.packet);
    }

    /** The file, if it opens, line by line. */
    method ReplayLevelJsonl(file: Option<string>, levelName: string, accepts: Packet -> bool)
      returns (ok: bool, rows: nat, applied: nat, rejected: nat)
      requires Valid()
      modifies this
      ensures Valid()
      ensures file == None ==> !ok && entries == old(entries) && rows == applied == rejected == 0
      ensures file != None ==>
                && ok == Succeeded(Outcome(rows, applied, rejected, entries))
                && Outcome(rows, applied, rejected, entries) == ReplayText(file.value, levelName, accepts, old(entries))
    {
      rows, applied, rejected := 0, 0, 0;
      if file == None {
        return false, 0, 0, 0;
      }
      var input := file.value;
      while input != ""
        invariant Valid()
        invariant ReplayLines(Lines(input), levelName, accepts, Outcome(rows, applied, rejected, entries))
               == ReplayText(file.value, levelName, accepts, old(entries))
        decreases |input|
      {
        LineStep(input, levelName, accepts, Outcome(rows, applied, rejected, entries));
        hide Lines, ReplayLines, LineEnd, EntriesOk, Step, ReplayText;
        var line := input[..LineEnd(input)];
        input := AfterLine(input);
        rows, applied, rejected := ReplayLine(line, levelName, accepts, rows, applied, rejected);
      }
      ok := rejected == 0;
    }
  }

  function AfterLine(input: string): (rest: string)
    ensures input != "" ==> |rest| < |input|
  {
    var end := LineEnd(input);
    if end < |input| then input[end + 1..] else ""
  }

  lemma LineStep(input: string, level: string, accepts: Packet -> bool, o: Outcome)
    requires input != ""
    ensures ReplayLines(Lines(input), level, accepts, o)
         == ReplayLines(Lines(AfterLine(input)), level, accepts, Step(o, input[..LineEnd(input)], level, accepts))
  {
    assert Lines(input) == [input[..LineEnd(input)]] + Lines(AfterLine(input));
    hide Step, LineEnd;
  }

  /** The cursor loop behind ReadText. */
  method ReadString(line: string, key: string) returns (value: Option<string>)
    ensures value == var text := After(line, key); if text == None then None else TextFrom(text.value)
  {
    var pos := Find(line, key);
    if pos == None {
      return None;
    }
    var cursor := pos.value + |key|;
    if cursor >= |line| || line[cursor] != '"' {
      return None;
    }
    cursor := cursor + 1;
    ghost var start := cursor;
    var result, escaped := "", false;
    OntoLaws("", ' ', Unescape(line[start..]));
    while cursor < |line|
      invariant start <= cursor <= |line|
      invariant Unescape(line[start..]) == Onto(result, Continue(escaped, line[cursor..]))
    {
      var ch := line[cursor];
      ContinueStep(escaped, line[cursor..]);
      assert line[cursor..][1..] == line[cursor + 1..];
      OntoLaws(result, ch, Continue(false, line[cursor + 1..]));
      hide Unescape, Continue, Onto;
      if escaped {
        result := result + [ch];
        escaped := false;
      } else if ch == '\\' {
        escaped := true;
      } else if ch == '"' {
        return Some(result);
      } else {
        result := result + [ch];
      }
      cursor := cursor + 1;
    }
    return None;
  }

  /** The loop body on one line: the marker, the level, the unsigned fields one after the other up to the first that
      fails, and then the two fields that may be missing. */
  method ParseRow(line: string, levelName: string) returns (row: RowResult)
    ensures row == Parsed(line, levelName)
  {
    hide Find, ReadText, ReadInt32, ReadUint64, Assembled, Marker;
    if Find(line, Marker()) == None {
      return Skipped;
    }
    var rowLevel := ReadString(line, KeyText("level"));
    assert rowLevel == ReadText(line, "level") by { ReadTextIs(line, "level"); }
    if rowLevel == None || rowLevel.value != levelName {
      return Rejected;
    }
    var names, numbers: seq<U64> := UnsignedNames(), [];
    for i := 0 to |names|
      invariant |numbers| == i && ReadAll(line, names[..i]) == Some(numbers)
    {
      assert names[..i + 1][..i] == names[..i];
      var number := ReadUint64(line, names[i]);
      if number == None {
        ReadAllFails(line, names, i);
        return Rejected;
      }
      numbers := numbers + [number.value];
    }
    assert names[..|names|] == names;
    var count := ReadInt32(line, "count");
    var textValue := ReadString(line, KeyText("textValue"));
    assert textValue == ReadText(line, "textValue") by { ReadTextIs(line, "textValue"); }
    var text := if textValue == None then "" else textValue.value;
    if |text| >= TEXT_CAPACITY {
      return Rejected;
    }
    return Accepted(Entry(levelName, Assembled(numbers, if count == None then 0 else count.value, text)));
  }

  lemma ReadTextIs(line: string, name: string)
    ensures ReadText(line, name) ==
            var text := After(line, KeyText(name)); if text == None then None else TextFrom(text.value)
  {
  }

  /** What is still to come when the cursor stands after a backslash or not. */
  ghost function Continue(escaped: bool, s: string): Option<string> {
    if !escaped then Unescape(s) else if s == "" then None else Prepend(s[0], Unescape(s[1..]))
  }

  lemma ContinueStep(escaped: bool, s: string)
    requires s != ""
    ensures Continue(escaped, s) ==
            if escaped then Prepend(s[0], Continue(false, s[1..]))
            else if s[0] == '\\' then Continue(true, s[1..])
            else if s[0] == '"' then Some("")
            else Prepend(s[0], Continue(false, s[1..]))
  {
    if |s| > 1 {
      assert s[2..] == s[1..][1..] && s[1..][0] == s[1];
    }
  }

  lemma OntoLaws(result: string, c: char, r: Option<string>)
    ensures Onto("", r) == r && Onto(result, Some("")) == Some(result) && Onto(result, None) == None
    ensures Onto(result, Prepend(c, r)) == Onto(result + [c], r)
  {
    assert result + "" == result;
    if r != None {
      assert "" + r.value == r.value;
      assert result + ([c] + r.value) == result + [c] + r.value;
    }
  }

  ghost function Onto(result: string, r: Option<string>): Option<string> {
    if r == None then None else Some(result + r.value)
  }
}
