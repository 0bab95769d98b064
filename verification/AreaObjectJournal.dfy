/** CoopAreaObjectJournal.cpp: the journal of area object events, one entry per key, the newest version wins.
    The 64-bit key hash is a datatype value, so different inputs give different keys. */
module AreaObjectJournal {

  const TEXT_CAPACITY: nat := 96

  type U16 = x: int | 0 <= x <= 0xffff
  type U32 = x: int | 0 <= x <= 0xffff_ffff
  type U64 = x: int | 0 <= x <= 0xffff_ffff_ffff_ffff
  type I32 = x: int | -0x8000_0000 <= x <= 0x7fff_ffff

  /** What a fixed char buffer holds as a C string. */
  type CText = s: string | |s| < 96 && '\0' !in s

  datatype Packet = Packet(
    sequence: U32, eventId: U64, eventKind: U16, targetGuid: U64, targetClassHash: U64, value: U16, count: I32,
    textValue: CText, flags: U32, worldEpoch: U32, levelId: U64, hostSaveKeyHash: U64, sourcePeerHash: U64,
    preVersion: U32, postVersion: U32, areaRevision: U32)

  datatype Key = Key(area: U64, target: U64, kind: U16, button: int)

  datatype Entry = Entry(level: string, packet: Packet)

  type Entries = map<Key, Entry>

  predicate IsButtonScoped(kind: U16) {
    kind in {27, 32, 33, 34}
  }

  predicate IsTransient(kind: U16) {
    kind in {28, 29, 30, 31, 37, 40}
  }

  function BuildKey(p: Packet): Key {
    Key(p.levelId, p.targetGuid, p.eventKind, if IsButtonScoped(p.eventKind) then p.count else 0)
  }

  predicate IsRecordable(e: Entry) {
    && !IsTransient(e.packet.eventKind)
    && e.level != "" && e.level != "unknown"
    && e.packet.levelId != 0 && e.packet.targetGuid != 0 && e.packet.eventKind != 0 && e.packet.eventId != 0
  }

  /** Record on the map of entries. */
  function Recorded(m: Entries, e: Entry): Entries {
    var key := BuildKey(e.packet);
    if !IsRecordable(e) || (key in m && m[key].packet.postVersion > e.packet.postVersion) then m else m[key := e]
  }

  function RecordedAll(m: Entries, es: seq<Entry>): Entries {
    if es == [] then m else Recorded(RecordedAll(m, es[..|es| - 1]), es[|es| - 1])
  }

  // ---- Last writer by version ----------------------------------------------------------------

  predicate Under(es: seq<Entry>, j: int, key: Key) {
    0 <= j < |es| && IsRecordable(es[j]) && BuildKey(es[j].packet) == key
  }

  /** The i-th recording is the last one among those of greatest version under the key. */
  ghost predicate Wins(es: seq<Entry>, i: int, key: Key) {
    && Under(es, i, key)
    && forall j :: Under(es, j, key) ==>
         es[j].packet.postVersion < es[i].packet.postVersion
           || (j <= i && es[j].packet.postVersion == es[i].packet.postVersion)
  }

  lemma {:induction false} FindWinner(es: seq<Entry>, key: Key) returns (i: int)
    ensures i < 0 ==> key !in RecordedAll(map[], es) && forall j :: !Under(es, j, key)
    ensures i >= 0 ==> Wins(es, i, key) && key in RecordedAll(map[], es) && RecordedAll(map[], es)[key] == es[i]
  {
    i := -1;
    if es != [] {
      var last := |es| - 1;
      var before := es[..last];
      i := FindWinner(before, key);
      assert forall j :: Under(es, j, key) && j != last ==> Under(before, j, key) && before[j] == es[j];
      if Under(es, last, key) && (i >= 0 ==> es[i].packet.postVersion <= es[last].packet.postVersion) {
        i := last;
      }
    }
  }

  /** After any recordings an entry stands under a key exactly when its recording wins there. */
  lemma WinnerStands(es: seq<Entry>, key: Key, e: Entry)
    ensures var m := RecordedAll(map[], es);
            (key in m && m[key] == e) <==> exists i :: Wins(es, i, key) && es[i] == e
    ensures key in RecordedAll(map[], es) <==> exists j :: Under(es, j, key)
  {
    var w := FindWinner(es, key);
    forall i | Wins(es, i, key) ensures i == w {
      assert Under(es, w, key) && Under(es, i, key);
    }
  }

  // ---- Which events are about the same thing -------------------------------------------------

  const KIOSK_BUTTON_STATE: U16 := 27
  const KIOSK_BUTTON_PRESSED: U16 := 28
  const ELEVATOR_TRANSIT: U16 := 29
  const WORKSTATION_UTILITY_PRESSED: U16 := 30
  const GENERIC_ELEVATOR_KIOSK_BUTTON_PRESSED: U16 := 31
  const KIOSK_BUTTON_HEADER: U16 := 32
  const KIOSK_BUTTON_BODY: U16 := 33
  const KIOSK_BUTTON_VISIBLE: U16 := 34
  const MAIN_LIFT_OUTAGE: U16 := 37
  const HELICOPTER_PASSENGER_START: U16 := 40

  /** Events of one kind on one object of one area; the state of a kiosk's button belongs to that button. */
  predicate SameThing(a: Packet, b: Packet) {
    && a.levelId == b.levelId && a.targetGuid == b.targetGuid && a.eventKind == b.eventKind
    && (a.eventKind in {KIOSK_BUTTON_STATE, KIOSK_BUTTON_HEADER, KIOSK_BUTTON_BODY, KIOSK_BUTTON_VISIBLE} ==>
          a.count == b.count)
  }

  /** The key tells things apart, and nothing else. */
  lemma KeyNamesTheThing(a: Packet, b: Packet)
    ensures BuildKey(a) == BuildKey(b) <==> SameThing(a, b)
  {
  }

  predicate About(es: seq<Entry>, j: int, p: Packet) {
    0 <= j < |es| && IsRecordable(es[j]) && SameThing(es[j].packet, p)
  }

  /** The i-th recording is recordable, no recording of the same thing is newer, and no later one is as new. */
  ghost predicate IsLastWrite(es: seq<Entry>, i: int) {
    && 0 <= i < |es| && IsRecordable(es[i])
    && forall j :: About(es, j, es[i].packet) ==>
         es[j].packet.postVersion < es[i].packet.postVersion
           || (j <= i && es[j].packet.postVersion == es[i].packet.postVersion)
  }

  ghost predicate Stands(m: Entries, e: Entry) {
    exists key :: key in m && m[key] == e
  }

  lemma LastWriteWins(es: seq<Entry>, i: int)
    requires 0 <= i < |es|
    ensures IsLastWrite(es, i) <==> Wins(es, i, BuildKey(es[i].packet))
  {
    var key := BuildKey(es[i].packet);
    forall j | 0 <= j < |es| ensures Under(es, j, key) <==> About(es, j, es[i].packet) {
      KeyNamesTheThing(es[j].packet, es[i].packet);
    }
    hide BuildKey, SameThing, IsRecordable;
    if Wins(es, i, key) {
      forall j | About(es, j, es[i].packet)
        ensures es[j].packet.postVersion < es[i].packet.postVersion
                || (j <= i && es[j].packet.postVersion == es[i].packet.postVersion)
      {
        assert Under(es, j, key);
      }
    }
  }

  /** After any recordings the entries of the journal are exactly the last writes, one for every thing recorded. */
  lemma LastWriterByVersion(es: seq<Entry>, e: Entry)
    ensures Stands(RecordedAll(map[], es), e) <==> exists i :: IsLastWrite(es, i) && es[i] == e
    ensures var m := RecordedAll(map[], es);
            forall k, l :: k in m && l in m && SameThing(m[k].packet, m[l].packet) ==> k == l
    ensures forall j :: 0 <= j < |es| && IsRecordable(es[j]) ==>
              exists i :: IsLastWrite(es, i) && SameThing(es[i].packet, es[j].packet)
  {
    var m := RecordedAll(map[], es);
    hide *;
    RecordedKeepsEntries(es);
    StandsExactly(es, e);
    forall k, l | k in m && l in m && SameThing(m[k].packet, m[l].packet) ensures k == l {
      OneEntryEach(m, k, l);
    }
    EveryThingHasLastWrite(es);
  }

  lemma EveryThingHasLastWrite(es: seq<Entry>)
    ensures forall j :: 0 <= j < |es| && IsRecordable(es[j]) ==>
              exists i :: IsLastWrite(es, i) && SameThing(es[i].packet, es[j].packet)
  {
    forall j | 0 <= j < |es| && IsRecordable(es[j])
      ensures exists i :: IsLastWrite(es, i) && SameThing(es[i].packet, es[j].packet)
    {
      ThingHasLastWrite(es, j);
    }
    hide IsRecordable, SameThing;
  }

  lemma StandsExactly(es: seq<Entry>, e: Entry)
    ensures Stands(RecordedAll(map[], es), e) <==> exists i :: IsLastWrite(es, i) && es[i] == e
  {
    var m := RecordedAll(map[], es);
    hide RecordedAll, IsRecordable, SameThing;
    if Stands(m, e) {
      var key :| key in m && m[key] == e;
      StandingIsLastWrite(es, key);
    }
    if i :| IsLastWrite(es, i) && es[i] == e {
      LastWriteStands(es, i);
    }
  }

  lemma OneEntryEach(m: Entries, k: Key, l: Key)
    requires EntriesOk(m) && k in m && l in m && SameThing(m[k].packet, m[l].packet)
    ensures k == l
  {
    KeyNamesTheThing(m[k].packet, m[l].packet);
  }

  lemma StandingIsLastWrite(es: seq<Entry>, key: Key)
    requires key in RecordedAll(map[], es)
    ensures exists i :: IsLastWrite(es, i) && es[i] == RecordedAll(map[], es)[key]
  {
    var m := RecordedAll(map[], es);
    WinnerStands(es, key, m[key]);
    hide RecordedAll;
    var i :| Wins(es, i, key) && es[i] == m[key];
    LastWriteWins(es, i);
  }

  lemma LastWriteStands(es: seq<Entry>, i: int)
    requires IsLastWrite(es, i)
    ensures Stands(RecordedAll(map[], es), es[i])
  {
    LastWriteWins(es, i);
    WinnerStands(es, BuildKey(es[i].packet), es[i]);
    hide RecordedAll;
  }

  lemma ThingHasLastWrite(es: seq<Entry>, j: int)
    requires 0 <= j < |es| && IsRecordable(es[j])
    ensures exists i :: IsLastWrite(es, i) && SameThing(es[i].packet, es[j].packet)
  {
    var key := BuildKey(es[j].packet);
    assert Under(es, j, key);
    var i := FindWinner(es, key);
    LastWriteWins(es, i);
    KeyNamesTheThing(es[i].packet, es[j].packet);
    hide RecordedAll;
  }

  lemma {:induction false} RecordedKeepsEntries(es: seq<Entry>)
    ensures EntriesOk(RecordedAll(map[], es))
  {
    if es != [] {
      RecordedKeepsEntries(es[..|es| - 1]);
      RecordKeepsEntries(RecordedAll(map[], es[..|es| - 1]), es[|es| - 1]);
    }
  }

  /** Two recordings under one key differ in version, unless they are the same recording. */
  ghost predicate DistinctVersions(es: seq<Entry>) {
    forall key, i, j {:trigger Under(es, i, key), Under(es, j, key)} ::
      Under(es, i, key) && Under(es, j, key) && es[i].packet.postVersion == es[j].packet.postVersion ==> es[i] == es[j]
  }

  /** With distinct versions only the set of recordings matters: neither order nor repetition does. */
  lemma OrderAndRepetitionDoNotMatter(es: seq<Entry>, fs: seq<Entry>)
    requires DistinctVersions(es) && forall e :: e in es <==> e in fs
    ensures RecordedAll(map[], es) == RecordedAll(map[], fs)
  {
    var m, n := RecordedAll(map[], es), RecordedAll(map[], fs);
    forall key ensures (key in m <==> key in n) && (key in m ==> m[key] == n[key]) {
      SameUnderKey(es, fs, key);
    }
  }

  lemma Mirrored(es: seq<Entry>, fs: seq<Entry>, j: int, key: Key) returns (k: int)
    requires Under(es, j, key) && es[j] in fs
    ensures Under(fs, k, key) && fs[k] == es[j]
  {
    k :| 0 <= k < |fs| && fs[k] == es[j];
  }

  lemma SameUnderKey(es: seq<Entry>, fs: seq<Entry>, key: Key)
    requires DistinctVersions(es) && forall e :: e in es <==> e in fs
    ensures var m, n := RecordedAll(map[], es), RecordedAll(map[], fs);
            (key in m <==> key in n) && (key in m ==> m[key] == n[key])
  {
    var v := FindWinner(es, key);
    var w := FindWinner(fs, key);
    if v >= 0 {
      var k := Mirrored(es, fs, v, key);
      var h := Mirrored(fs, es, w, key);
      assert es[h].packet.postVersion == es[v].packet.postVersion;
    } else if w >= 0 {
      var h := Mirrored(fs, es, w, key);
    }
    hide RecordedAll;
  }

  /** A command that is over at once: a press, a transit, an outage or a take-off. */
  predicate IsCommand(kind: U16) {
    kind in {KIOSK_BUTTON_PRESSED, ELEVATOR_TRANSIT, WORKSTATION_UTILITY_PRESSED, GENERIC_ELEVATOR_KIOSK_BUTTON_PRESSED,
             MAIN_LIFT_OUTAGE, HELICOPTER_PASSENGER_START}
  }

  /** Not recorded are exactly the commands and what lacks a level, an area, an object, a kind or an id. */
  lemma RecordableExactly(e: Entry)
    ensures IsRecordable(e) <==>
              && !IsCommand(e.packet.eventKind) && e.level !in {"", "unknown"}
              && 0 !in {e.packet.levelId, e.packet.targetGuid, e.packet.eventKind, e.packet.eventId}
  {
  }

  /** Commands and incomplete packets leave no trace anywhere in a history. */
  lemma {:induction false} UnrecordableLeavesNoTrace(m: Entries, es: seq<Entry>, e: Entry, fs: seq<Entry>)
    requires !IsRecordable(e)
    ensures RecordedAll(m, es + [e] + fs) == RecordedAll(m, es + fs)
  {
    if fs == [] {
      assert (es + [e] + fs)[..|es|] == es && es + fs == es;
      assert (es + [e] + fs)[|es|] == e;
    } else {
      var last := |fs| - 1;
      UnrecordableLeavesNoTrace(m, es, e, fs[..last]);
      assert (es + [e] + fs)[..|es| + 1 + last] == es + [e] + fs[..last];
      assert (es + fs)[..|es| + last] == es + fs[..last];
    }
  }

  /** What every journal keeps: each entry is recordable and stands under its own key. */
  ghost predicate EntriesOk(m: Entries) {
    forall key :: key in m ==> IsRecordable(m[key]) && BuildKey(m[key].packet) == key
  }

  lemma RecordKeepsEntries(m: Entries, e: Entry)
    requires EntriesOk(m)
    ensures EntriesOk(Recorded(m, e))
  {
  }
}
