/** CoopAreaStateJournal.cpp: which entities of an area changed. What the engine answers about an entity is part of
    the call; the counters are unbounded. */
module AreaStateJournal {

  datatype Option<+T> = None | Some(value: T)

  datatype Kind = Xform | Done | Hide | Unhide | EnablePhysics | PhysicsChangeState | Other

  datatype Body = Body(className: string, entityName: string, position: (real, real, real),
      rotation: (real, real, real, real),
                       scale: (real, real, real), flags: nat, hidden: bool)

  datatype DirtyEntity = DirtyEntity(
    levelName: string, entityId: nat, guid: nat, body: Body,
    eventMask: set<Kind>, xformEvents: nat, removeEvents: nat, removed: bool)

  const INVALID_ID: nat := 0

  /** The engine's answers: the id (zero when the call fails), whether it is the local player, and the captured
      guid, id and body if all of the guarded calls succeed. `allowed` is the test of class and entity name. */
  datatype Entity = Entity(id: nat, isLocalPlayer: bool, capture: Option<(nat, nat, Body)>, allowed: bool)

  datatype LevelStats = LevelStats(dirtyEvents: nat, dirtyEntities: nat, saveBoundaries: nat, loadBoundaries: nat)

  datatype Journal = Journal(
    dirty: map<nat, DirtyEntity>, idToGuid: map<nat, nat>, untracked: set<nat>, levels: map<string, LevelStats>,
    observed: nat, tracked: nat, skips: nat, saves: nat, loads: nat)

  const EMPTY: Journal := Journal(map[], map[], {}, map[], 0, 0, 0, 0, 0)

  // ---- What a call does ----------------------------------------------------------------------

  function Stats(j: Journal, level: string): LevelStats {
    if level in j.levels then j.levels[level] else LevelStats(0, 0, 0, 0)
  }

  function OfLevel(dirty: map<nat, DirtyEntity>, level: string): set<nat> {
    set g | g in dirty && dirty[g].levelName == level
  }

  function Refreshed(j: Journal, level: string): Journal {
    j.(levels := j.levels[level := Stats(j, level).(dirtyEntities := |OfLevel(j.dirty, level)|)])
  }

  /** TryCaptureEntity and ShouldTrackEntity: the fresh snapshot of an entity that is to be tracked. */
  function Snapshot(level: string, e: Entity): (r: Option<DirtyEntity>)
    ensures r.Some? ==> r.value.levelName == level && r.value.guid != 0 && !r.value.removed
  {
    if e.capture == None || e.capture.value.0 == 0 || level == "" || level == "unknown"
      || e.capture.value.2.className == "" || !e.allowed
    then None
    else Some(DirtyEntity(level, e.capture.value.1, e.capture.value.0, e.capture.value.2, {}, 0, 0, false))
  }

  predicate IsCached(j: Journal, level: string, e: Entity) {
    && e.id != INVALID_ID && e.id in j.idToGuid && j.idToGuid[e.id] in j.dirty
    && j.dirty[j.idToGuid[e.id]].levelName == level && !j.dirty[j.idToGuid[e.id]].removed
  }

  function Counted(j: Journal, level: string): Journal {
    j.(tracked := j.tracked + 1,
       levels := j.levels[level := Stats(j, level).(dirtyEvents := Stats(j, level).dirtyEvents + 1)])
  }

  /** The cached path of a moved entity: its guid is looked up by id and its level not recounted. */
  function FastMarked(j: Journal, level: string, e: Entity): Journal
    requires IsCached(j, level, e)
  {
    var g := j.idToGuid[e.id];
    var last := j.dirty[g];
    var latest := match Snapshot(level, e)
                  case None => last
                  case Some(snap) =>
                    snap.(eventMask := last.eventMask, xformEvents := last.xformEvents,
                          removeEvents := last.removeEvents, removed := last.removed);
    Counted(j.(dirty := j.dirty[g := latest.(eventMask := latest.eventMask + {Xform},
                                             xformEvents := latest.xformEvents + 1)]), level)
  }

  /** The fresh snapshot with the events of the entry it replaces and the new one. */
  function Merged(dirty: map<nat, DirtyEntity>, snap: DirtyEntity, event: Option<Kind>, removed: bool): DirtyEntity {
    var known := snap.guid in dirty;
    var mask := if known then dirty[snap.guid].eventMask else {};
    var xforms := if known then dirty[snap.guid].xformEvents else 0;
    var removes := if known then dirty[snap.guid].removeEvents else 0;
    snap.(eventMask := mask + (if event.Some? then {event.value} else {}) + (if removed then {Done} else {}),
          xformEvents := xforms + if event == Some(Xform) then 1 else 0,
          removeEvents := removes + if removed then 1 else 0,
          removed := removed)
  }

  function FullMarked(j: Journal, level: string, e: Entity, event: Option<Kind>, removed: bool): Journal {
    match Snapshot(level, e)
    case None => j.(untracked := if e.id != INVALID_ID then j.untracked + {e.id} else j.untracked, skips := j.skips + 1)
    case Some(snap) =>
      var entry := Merged(j.dirty, snap, event, removed);
      Refreshed(Counted(j.(dirty := j.dirty[snap.guid := entry],
                           idToGuid := if snap.entityId != INVALID_ID then j.idToGuid[snap.entityId := snap.guid]
                             else j.idToGuid), level), level)
  }

  function Marked(j: Journal, level: string, e: Entity, event: Option<Kind>, removed: bool): Journal {
    if e.isLocalPlayer && e.id != INVALID_ID then j.(untracked := j.untracked + {e.id}, skips := j.skips + 1)
    else if event == Some(Xform) && e.id != INVALID_ID && e.id in j.untracked then j
    else if event == Some(Xform) && IsCached(j, level, e) then FastMarked(j, level, e)
    else FullMarked(j, level, e, event, removed)
  }

  datatype Call =
    | EntityEvent(level: string, entity: Entity, kind: Kind)
    | EntityRemoved(level: string, entity: Entity)
    | LevelSave(level: string, before: bool)
    | LevelLoad(level: string, before: bool)

  function Performed(j: Journal, c: Call): Journal {
    match c
    case EntityEvent(level, e, kind) =>
      var seen := j.(observed := j.observed + 1);
      if kind == Other then seen else Marked(seen, level, e, Some(kind), kind == Done)
    case EntityRemoved(level, e) => Marked(j.(observed := j.observed + 1), level, e, None, true)
    case LevelSave(level, before) =>
      if before then
        var saved := Stats(j, level).(saveBoundaries := Stats(j, level).saveBoundaries + 1);
        Refreshed(j.(saves := j.saves + 1, levels := j.levels[level := saved]), level)
      else j.(levels := j.levels[level := Stats(j, level)])
    case LevelLoad(level, before) =>
      if before then
        var loaded := Stats(j, level).(loadBoundaries := Stats(j, level).loadBoundaries + 1);
        Refreshed(j.(loads := j.loads + 1, levels := j.levels[level := loaded]), level)
      else j.(levels := j.levels[level := Stats(j, level)])
  }

  function PerformedAll(j: Journal, cs: seq<Call>): Journal {
    if cs == [] then j else Performed(PerformedAll(j, cs[..|cs| - 1]), cs[|cs| - 1])
  }

  // ---- The fast path refines the full path ---------------------------------------------------

  /** The cached path leaves the same entries as the full one exactly when the capture succeeds, the entity is to be
      tracked and its id still names the same guid. Then recounting the level is all that is left to do, provided
      the id was read the same both times. */
  lemma FastPathIsFullPath(j: Journal, level: string, e: Entity)
    requires IsCached(j, level, e)
    ensures var fast, full := FastMarked(j, level, e), FullMarked(j, level, e, Some(Xform), false);
            var snap := Snapshot(level, e);
            && (fast.dirty == full.dirty <==> snap.Some? && snap.value.guid == j.idToGuid[e.id])
            && (fast.dirty == full.dirty && snap.value.entityId == e.id ==> Refreshed(fast, level) == full)
  {
    var fast, full := FastMarked(j, level, e), FullMarked(j, level, e, Some(Xform), false);
    var g, snap := j.idToGuid[e.id], Snapshot(level, e);
    assert fast.dirty[g].xformEvents == j.dirty[g].xformEvents + 1;
    if snap.Some? && snap.value.guid == g {
      assert fast.dirty[g] == full.dirty[g];
      assert fast.dirty == full.dirty;
      if snap.value.entityId == e.id {
        assert j.idToGuid[e.id := g] == j.idToGuid;
        RecountFast(fast, full, level);
      }
    } else {
      assert full.dirty[g].xformEvents == j.dirty[g].xformEvents;
    }
  }

  lemma RecountFast(fast: Journal, full: Journal, level: string)
    requires level in fast.levels && full == Refreshed(fast.(idToGuid := full.idToGuid), level)
             && fast.idToGuid == full.idToGuid
    ensures Refreshed(fast, level) == full
  {
  }

  // ---- What every run keeps ------------------------------------------------------------------

  ghost function TotalEvents(levels: map<string, LevelStats>): nat
    decreases |levels|
  {
    if levels == map[] then 0
    else
      var level :| level in levels;
      assert |levels - {level}| < |levels| by { assert (levels - {level}).Keys == levels.Keys - {level}; }
      levels[level].dirtyEvents + TotalEvents(levels - {level})
  }

  lemma {:induction false} TotalWithout(levels: map<string, LevelStats>, level: string)
    requires level in levels
    ensures TotalEvents(levels) == levels[level].dirtyEvents + TotalEvents(levels - {level})
    decreases |levels|
  {
    var first :| first in levels && TotalEvents(levels) == levels[first].dirtyEvents + TotalEvents(levels - {first});
    if first != level {
      assert (levels - {first}).Keys == levels.Keys - {first};
      TotalWithout(levels - {first}, level);
      assert (levels - {level}).Keys == levels.Keys - {level};
      TotalWithout(levels - {level}, first);
      assert levels - {first} - {level} == levels - {level} - {first};
    }
  }

  lemma TotalAfterUpdate(j: Journal, level: string, stats: LevelStats)
    ensures TotalEvents(j.levels[level := stats]) + Stats(j, level).dirtyEvents ==
            TotalEvents(j.levels) + stats.dirtyEvents
  {
    var updated := j.levels[level := stats];
    TotalWithout(updated, level);
    assert updated - {level} == j.levels - {level};
    if level in j.levels {
      TotalWithout(j.levels, level);
    } else {
      assert j.levels - {level} == j.levels;
    }
  }

  /** Every tracked event is counted at one level, no event is counted twice, no level has more dirty entities than
      it reports, and every known id leads to an entry. */
  ghost predicate JournalOk(j: Journal) {
    && TotalEvents(j.levels) == j.tracked
    && j.tracked + j.skips <= j.observed
    && (forall level :: |OfLevel(j.dirty, level)| <= Stats(j, level).dirtyEntities)
    && (forall id :: id in j.idToGuid ==> j.idToGuid[id] in j.dirty)
  }

  /** The same without the bound on the events, which a call raises in two steps. */
  ghost predicate CountsOk(j: Journal) {
    && TotalEvents(j.levels) == j.tracked
    && (forall level :: |OfLevel(j.dirty, level)| <= Stats(j, level).dirtyEntities)
    && (forall id :: id in j.idToGuid ==> j.idToGuid[id] in j.dirty)
  }

  lemma RefreshKeepsCounts(j: Journal, level: string)
    requires TotalEvents(j.levels) == j.tracked
    requires forall l :: l != level ==> |OfLevel(j.dirty, l)| <= Stats(j, l).dirtyEntities
    requires forall id :: id in j.idToGuid ==> j.idToGuid[id] in j.dirty
    ensures CountsOk(Refreshed(j, level)) && Stats(Refreshed(j, level), level).dirtyEntities ==
            |OfLevel(j.dirty, level)|
  {
    TotalAfterUpdate(j, level, Stats(j, level).(dirtyEntities := |OfLevel(j.dirty, level)|));
    hide OfLevel, TotalEvents;
    forall l ensures |OfLevel(j.dirty, l)| <= Stats(Refreshed(j, level), l).dirtyEntities {
    }
  }

  lemma EntryChangesOneLevel(dirty: map<nat, DirtyEntity>, g: nat, entry: DirtyEntity)
    ensures forall l :: l != entry.levelName ==> |OfLevel(dirty[g := entry], l)| <= |OfLevel(dirty, l)|
    ensures g in dirty && dirty[g].levelName == entry.levelName
            ==> OfLevel(dirty[g := entry], entry.levelName) == OfLevel(dirty, entry.levelName)
  {
    forall l | l != entry.levelName ensures |OfLevel(dirty[g := entry], l)| <= |OfLevel(dirty, l)| {
      Subset(OfLevel(dirty[g := entry], l), OfLevel(dirty, l));
    }
  }

  lemma Subset(a: set<nat>, b: set<nat>)
    requires a <= b
    ensures |a| <= |b|
  {
    assert b == a + (b - a);
  }

  lemma FastKeepsCounts(j: Journal, level: string, e: Entity)
    requires CountsOk(j) && IsCached(j, level, e)
    ensures CountsOk(FastMarked(j, level, e))
  {
    var g, t := j.idToGuid[e.id], FastMarked(j, level, e);
    assert t.dirty == j.dirty[g := t.dirty[g]] && t.dirty[g].levelName == level;
    EntryChangesOneLevel(j.dirty, g, t.dirty[g]);
    TotalAfterUpdate(j, level, t.levels[level]);
    assert t.levels == j.levels[level := t.levels[level]];
    hide TotalEvents, Snapshot, OfLevel, FastMarked;
    forall l ensures |OfLevel(t.dirty, l)| <= Stats(t, l).dirtyEntities {
      assert |OfLevel(j.dirty, l)| <= Stats(j, l).dirtyEntities;
    }
  }

  lemma FullKeepsCounts(j: Journal, level: string, e: Entity, event: Option<Kind>, removed: bool)
    requires CountsOk(j)
    ensures CountsOk(FullMarked(j, level, e, event, removed))
  {
    var snap, t := Snapshot(level, e), FullMarked(j, level, e, event, removed);
    if snap.Some? {
      var g := snap.value.guid;
      assert t.dirty == j.dirty[g := t.dirty[g]] && t.dirty[g].levelName == level;
      EntryChangesOneLevel(j.dirty, g, t.dirty[g]);
      var counted := Counted(j.(dirty := t.dirty, idToGuid := t.idToGuid), level);
      TotalAfterUpdate(j, level, counted.levels[level]);
      assert t == Refreshed(counted, level);
      hide TotalEvents, OfLevel, FullMarked;
      forall l | l != level ensures |OfLevel(counted.dirty, l)| <= Stats(counted, l).dirtyEntities {
        assert |OfLevel(j.dirty, l)| <= Stats(j, l).dirtyEntities;
      }
      RefreshKeepsCounts(counted, level);
    }
  }

  lemma PerformKeepsJournal(j: Journal, c: Call)
    requires JournalOk(j)
    ensures JournalOk(Performed(j, c))
  {
    hide TotalEvents, OfLevel, Marked, Refreshed;
    match c
    case EntityEvent(level, e, kind) => MarkKeepsJournal(j, level, e, Some(kind), kind == Done);
    case EntityRemoved(level, e) => MarkKeepsJournal(j, level, e, None, true);
    case LevelSave(level, before) =>
      var s := Stats(j, level);
      TouchKeepsJournal(j.(saves := if before then j.saves + 1 else j.saves), level,
                        if before then s.(saveBoundaries := s.saveBoundaries + 1) else s, before);
    case LevelLoad(level, before) =>
      var s := Stats(j, level);
      TouchKeepsJournal(j.(loads := if before then j.loads + 1 else j.loads), level,
                        if before then s.(loadBoundaries := s.loadBoundaries + 1) else s, before);
  }

  lemma MarkKeepsJournal(j: Journal, level: string, e: Entity, event: Option<Kind>, removed: bool)
    requires JournalOk(j)
    ensures JournalOk(Marked(j.(observed := j.observed + 1), level, e, event, removed))
    ensures JournalOk(j.(observed := j.observed + 1))
  {
    var seen := j.(observed := j.observed + 1);
    assert CountsOk(seen);
    MarkKeepsCounts(seen, level, e, event, removed);
    MarkCountsOnce(seen, level, e, event, removed);
    hide Marked, TotalEvents, OfLevel;
  }

  lemma MarkKeepsCounts(j: Journal, level: string, e: Entity, event: Option<Kind>, removed: bool)
    requires CountsOk(j)
    ensures CountsOk(Marked(j, level, e, event, removed))
  {
    FullKeepsCounts(j, level, e, event, removed);
    if IsCached(j, level, e) {
      FastKeepsCounts(j, level, e);
    }
    hide TotalEvents, OfLevel, FullMarked, FastMarked, IsCached;
  }

  lemma MarkCountsOnce(j: Journal, level: string, e: Entity, event: Option<Kind>, removed: bool)
    ensures var t := Marked(j, level, e, event, removed);
            t.observed == j.observed && t.tracked + t.skips <= j.tracked + j.skips + 1
  {
    hide Snapshot, IsCached;
  }

  /** A boundary touches one level's record and, before the original runs, recounts it. */
  ghost function Touched(j: Journal, level: string, stats: LevelStats, recounted: bool): Journal {
    var touched := j.(levels := j.levels[level := stats]);
    if recounted then Refreshed(touched, level) else touched
  }

  lemma TouchKeepsJournal(j: Journal, level: string, stats: LevelStats, recounted: bool)
    requires JournalOk(j) && stats.dirtyEvents == Stats(j, level).dirtyEvents
             && stats.dirtyEntities == Stats(j, level).dirtyEntities
    ensures JournalOk(Touched(j, level, stats, recounted))
  {
    var touched := j.(levels := j.levels[level := stats]);
    TotalAfterUpdate(j, level, stats);
    hide TotalEvents, OfLevel;
    RefreshKeepsCounts(touched, level);
  }

  /** Conservation over every run from an empty journal. */
  lemma {:induction false} RunKeepsJournal(cs: seq<Call>)
    ensures JournalOk(PerformedAll(EMPTY, cs))
  {
    if cs == [] {
      assert forall level :: OfLevel(EMPTY.dirty, level) == {};
    } else {
      RunKeepsJournal(cs[..|cs| - 1]);
      PerformKeepsJournal(PerformedAll(EMPTY, cs[..|cs| - 1]), cs[|cs| - 1]);
    }
  }

  // ---- What an entry and a record tell -------------------------------------------------------

  /** The events that an entry counts, before it is there. */
  function EventsOf(j: Journal, g: nat): (set<Kind>, nat, nat) {
    if g in j.dirty then (j.dirty[g].eventMask, j.dirty[g].xformEvents, j.dirty[g].removeEvents) else ({}, 0, 0)
  }

  /** A call that captures an entity to be tracked on the full path. */
  predicate IsCaptured(j: Journal, level: string, e: Entity, moved: bool) {
    && !(e.isLocalPlayer && e.id != INVALID_ID) && Snapshot(level, e).Some?
    && (moved ==> !(e.id != INVALID_ID && e.id in j.untracked) && !IsCached(j, level, e))
  }

  lemma EventIsMarked(j: Journal, at: string, e: Entity, kind: Kind)
    ensures Performed(j, EntityEvent(at, e, kind)) ==
            var seen := j.(observed := j.observed + 1);
            if kind == Other then seen else Marked(seen, at, e, Some(kind), kind == Done)
  {
    hide Marked;
  }

  lemma RemovalIsMarked(j: Journal, at: string, e: Entity)
    ensures Performed(j, EntityRemoved(at, e)) == Marked(j.(observed := j.observed + 1), at, e, None, true)
  {
    hide Marked;
  }

  lemma FullMarkStores(j: Journal, level: string, e: Entity, event: Option<Kind>, removed: bool)
    requires Snapshot(level, e).Some?
    ensures var snap := Snapshot(level, e).value;
            FullMarked(j, level, e, event, removed).dirty == j.dirty[snap.guid := Merged(j.dirty, snap, event, removed)]
  {
    hide Snapshot, OfLevel, Merged;
  }

  lemma EventTakesFullPath(j: Journal, level: string, e: Entity, kind: Kind)
    requires kind != Other && IsCaptured(j, level, e, kind == Xform)
    ensures Performed(j, EntityEvent(level, e, kind)) ==
            FullMarked(j.(observed := j.observed + 1), level, e, Some(kind), kind == Done)
  {
    hide Snapshot, FullMarked, FastMarked;
  }

  /** An event adds itself to what its entry tells: its kind, a count if it is a move or an end, and the snapshot. An
      entity that is done is marked removed, and any other event of the six marks it present again. */
  lemma EventIsTold(j: Journal, level: string, e: Entity, kind: Kind)
    requires kind != Other && IsCaptured(j, level, e, kind == Xform)
    ensures var snap := Snapshot(level, e).value;
            var t := Performed(j, EntityEvent(level, e, kind));
            var (mask, moves, ends) := EventsOf(j, snap.guid);
            && snap.guid in t.dirty
            && var entry := t.dirty[snap.guid];
            && entry.eventMask == mask + {kind} && (entry.removed <==> kind == Done)
            && entry.xformEvents == moves + (if kind == Xform then 1 else 0)
            && entry.removeEvents == ends + (if kind == Done then 1 else 0)
            && entry.levelName == level && entry.body == snap.body && entry.entityId == snap.entityId
            && t.dirty == j.dirty[snap.guid := entry]
  {
    EventTakesFullPath(j, level, e, kind);
    FullMarkStores(j.(observed := j.observed + 1), level, e, Some(kind), kind == Done);
    hide Snapshot, FullMarked, Performed, IsCaptured;
  }

  /** And it is counted at its own level, where the entries are counted anew. */
  lemma CapturedIsCounted(j: Journal, level: string, e: Entity, event: Option<Kind>, removed: bool, other: string)
    requires Snapshot(level, e).Some?
    ensures var t := FullMarked(j, level, e, event, removed);
            && t.tracked == j.tracked + 1 && Stats(t, level).dirtyEntities == |OfLevel(t.dirty, level)|
            && Stats(t, other).dirtyEvents == Stats(j, other).dirtyEvents + (if other == level then 1 else 0)
  {
    hide Snapshot, OfLevel, Merged;
  }

  /** A move of a cached entity is told to the entry it is cached under, and counted at its level, which is not counted
      anew; no other entry, level or id is touched. */
  lemma CachedMoveIsTold(j: Journal, level: string, e: Entity)
    requires IsCached(j, level, e) && e.id !in j.untracked && !e.isLocalPlayer
    ensures var g, t := j.idToGuid[e.id], Performed(j, EntityEvent(level, e, Xform));
            && g in t.dirty && t.dirty == j.dirty[g := t.dirty[g]]
            && t.dirty[g].eventMask == j.dirty[g].eventMask + {Xform} && !t.dirty[g].removed
            && t.dirty[g].xformEvents == j.dirty[g].xformEvents + 1
            && t.dirty[g].removeEvents == j.dirty[g].removeEvents
            && t.levels == j.levels[level := Stats(j, level).(dirtyEvents := Stats(j, level).dirtyEvents + 1)]
            && t.idToGuid == j.idToGuid && t.untracked == j.untracked && t.tracked == j.tracked + 1
  {
    EventIsMarked(j, level, e, Xform);
    hide Performed, FullMarked, OfLevel;
  }

  /** A removal from outside is told like an end. */
  lemma RemovalIsTold(j: Journal, level: string, e: Entity)
    requires IsCaptured(j, level, e, false)
    ensures var snap := Snapshot(level, e).value;
            var t := Performed(j, EntityRemoved(level, e));
            var (mask, moves, ends) := EventsOf(j, snap.guid);
            && snap.guid in t.dirty
            && var entry := t.dirty[snap.guid];
            && entry.removed && entry.eventMask == mask + {Done} && entry.xformEvents == moves
            && entry.removeEvents == ends + 1
  {
    var seen := j.(observed := j.observed + 1);
    hide Snapshot, FullMarked, FastMarked, Performed, OfLevel, IsCached;
    RemovalIsMarked(j, level, e);
    FullMarkStores(seen, level, e, None, true);
  }

  /** The local player never gets an entry, and neither does what is not to be tracked: a call about them leaves all
      entries as they are and remembers the id as untracked; a later move of that id costs nothing but the count. */
  lemma UntrackedHasNoEntry(j: Journal, level: string, e: Entity, kind: Kind)
    requires kind != Other && kind != Xform && e.id != INVALID_ID && (e.isLocalPlayer || Snapshot(level, e) == None)
    ensures var t := Performed(j, EntityEvent(level, e, kind));
            && t.dirty == j.dirty && e.id in t.untracked && t.skips == j.skips + 1 && t.tracked == j.tracked
            && (!e.isLocalPlayer ==>
                  Performed(t, EntityEvent(level, e, Xform)) == t.(observed := t.observed + 1))
  {
    hide Snapshot, OfLevel, IsCached;
  }

  ghost function CountOf(cs: seq<Call>, what: Call -> bool): nat {
    if cs == [] then 0 else CountOf(cs[..|cs| - 1], what) + if what(cs[|cs| - 1]) then 1 else 0
  }

  predicate IsSave(c: Call) { c.LevelSave? && c.before }

  predicate IsLoad(c: Call) { c.LevelLoad? && c.before }

  predicate IsObservation(c: Call) { c.EntityEvent? || c.EntityRemoved? }

  /** No boundary is counted, and no observation. */
  predicate CountsNoBoundary(j: Journal, t: Journal, level: string) {
    && t.saves == j.saves && t.loads == j.loads && t.observed == j.observed
    && Stats(t, level).saveBoundaries == Stats(j, level).saveBoundaries
    && Stats(t, level).loadBoundaries == Stats(j, level).loadBoundaries
  }

  lemma RecountCountsNoBoundary(j: Journal, at: string, level: string)
    ensures CountsNoBoundary(j, Refreshed(j, at), level) && CountsNoBoundary(j, Counted(j, at), level)
  {
    hide OfLevel;
  }

  lemma FullMarkCountsNoBoundary(j: Journal, at: string, e: Entity, event: Option<Kind>, removed: bool, level: string)
    ensures CountsNoBoundary(j, FullMarked(j, at, e, event, removed), level)
  {
    var snap := Snapshot(at, e);
    if snap.Some? {
      var g := snap.value.guid;
      var stored := j.(dirty := j.dirty[g := Merged(j.dirty, snap.value, event, removed)],
                       idToGuid := if snap.value.entityId != INVALID_ID then j.idToGuid[snap.value.entityId := g]
                         else j.idToGuid);
      RecountCountsNoBoundary(stored, at, level);
      RecountCountsNoBoundary(Counted(stored, at), at, level);
      hide Snapshot, Merged, Refreshed, Counted;
    }
  }

  lemma FastMarkCountsNoBoundary(j: Journal, at: string, e: Entity, level: string)
    requires IsCached(j, at, e)
    ensures CountsNoBoundary(j, FastMarked(j, at, e), level)
  {
    hide Snapshot, IsCached;
  }

  lemma MarkCountsNoBoundary(j: Journal, at: string, e: Entity, event: Option<Kind>, removed: bool, level: string)
    ensures CountsNoBoundary(j, Marked(j, at, e, event, removed), level)
  {
    FullMarkCountsNoBoundary(j, at, e, event, removed, level);
    if IsCached(j, at, e) {
      FastMarkCountsNoBoundary(j, at, e, level);
    }
    hide FullMarked, FastMarked, IsCached;
  }

  /** The call is counted in total and at its own level. */
  predicate CountsCall(j: Journal, c: Call, t: Journal, level: string) {
    && t.saves == j.saves + (if IsSave(c) then 1 else 0) && t.loads == j.loads + (if IsLoad(c) then 1 else 0)
    && t.observed == j.observed + (if IsObservation(c) then 1 else 0)
    && Stats(t, level).saveBoundaries ==
       Stats(j, level).saveBoundaries + (if IsSave(c) && c.level == level then 1 else 0)
    && Stats(t, level).loadBoundaries ==
       Stats(j, level).loadBoundaries + (if IsLoad(c) && c.level == level then 1 else 0)
  }

  lemma BoundaryCounts(j: Journal, c: Call, level: string)
    requires !IsObservation(c)
    ensures CountsCall(j, c, Performed(j, c), level)
  {
    hide OfLevel;
  }

  lemma SeenCounts(j: Journal, c: Call, t: Journal, level: string)
    requires IsObservation(c) && CountsNoBoundary(j.(observed := j.observed + 1), t, level)
    ensures CountsCall(j, c, t, level)
  {
  }

  lemma NothingCounts(j: Journal, level: string)
    ensures CountsNoBoundary(j, j, level)
  {
  }

  lemma EventCounts(j: Journal, at: string, e: Entity, kind: Kind, level: string)
    ensures var c := EntityEvent(at, e, kind); CountsCall(j, c, Performed(j, c), level)
  {
    var c, seen := EntityEvent(at, e, kind), j.(observed := j.observed + 1);
    assert IsObservation(c);
    hide *;
    EventIsMarked(j, at, e, kind);
    MarkCountsNoBoundary(seen, at, e, Some(kind), kind == Done, level);
    NothingCounts(seen, level);
    SeenCounts(j, c, Performed(j, c), level);
  }

  lemma RemovalCounts(j: Journal, at: string, e: Entity, level: string)
    ensures var c := EntityRemoved(at, e); CountsCall(j, c, Performed(j, c), level)
  {
    var c, seen := EntityRemoved(at, e), j.(observed := j.observed + 1);
    assert IsObservation(c);
    hide *;
    RemovalIsMarked(j, at, e);
    MarkCountsNoBoundary(seen, at, e, None, true, level);
    SeenCounts(j, c, Performed(j, c), level);
  }

  /** Every boundary leaves a record of its level, before the original runs and after it. */
  lemma BoundaryLeavesRecord(j: Journal, level: string, before: bool)
    ensures level in Performed(j, LevelSave(level, before)).levels
    ensures level in Performed(j, LevelLoad(level, before)).levels
  {
    hide OfLevel;
  }

  /** Over every run the boundaries are counted where they belong: saves with saves, loads with loads, each at its own
      level, and once, before the original runs. */
  lemma {:induction false} BoundariesAreCounted(cs: seq<Call>, level: string)
    ensures var j := PerformedAll(EMPTY, cs);
            && j.saves == CountOf(cs, IsSave) && j.loads == CountOf(cs, IsLoad)
               && j.observed == CountOf(cs, IsObservation)
            && Stats(j, level).saveBoundaries == CountOf(cs, (c: Call) => IsSave(c) && c.level == level)
            && Stats(j, level).loadBoundaries == CountOf(cs, (c: Call) => IsLoad(c) && c.level == level)
  {
    if cs != [] {
      BoundariesAreCounted(cs[..|cs| - 1], level);
      var j, c := PerformedAll(EMPTY, cs[..|cs| - 1]), cs[|cs| - 1];
      match c {
        case EntityEvent(at, e, kind) => EventCounts(j, at, e, kind, level);
        case EntityRemoved(at, e) => RemovalCounts(j, at, e, level);
        case _ => BoundaryCounts(j, c, level);
      }
    }
    hide Performed;
  }

  // ---- A reused id ---------------------------------------------------------------------------

  /** A cached mark leaves the entry under its own guid exactly when nothing was captured or the id still names that
      guid: an id that has come to name another entity files the other one's snapshot under the old guid. */
  lemma MisfiledExactlyWhenReused(j: Journal, level: string, e: Entity)
    requires IsCached(j, level, e) && j.dirty[j.idToGuid[e.id]].guid == j.idToGuid[e.id]
    ensures var g, snap := j.idToGuid[e.id], Snapshot(level, e);
            FastMarked(j, level, e).dirty[g].guid == g <==> snap == None || snap.value.guid == g
  {
    hide Snapshot;
  }

  /** A hidden entity is then cached, so the condition is reached: the same id may be asked about next. */
  lemma HiddenIsCached(level: string, e: Entity)
    requires Snapshot(level, e).Some? && !e.isLocalPlayer && e.id == Snapshot(level, e).value.entityId != INVALID_ID
    ensures var j := Performed(EMPTY, EntityEvent(level, e, Hide));
            IsCached(j, level, e) && j.dirty[j.idToGuid[e.id]].guid == j.idToGuid[e.id] && e.id !in j.untracked
  {
    hide Snapshot, OfLevel;
  }

  // ---- The object ----------------------------------------------------------------------------

  method CountLevel(dirty: map<nat, DirtyEntity>, levelName: string) returns (count: nat)
    ensures count == |OfLevel(dirty, levelName)|
  {
    count := 0;
    var left := dirty.Keys;
    ghost var all, found := OfLevel(dirty, levelName), {};
    while left != {}
      invariant left <= dirty.Keys
      invariant found == all - left && count == |found|
      decreases left
    {
      var guid :| guid in left;
      left := left - {guid};
      if dirty[guid].levelName == levelName {
        count, found := count + 1, found + {guid};
      }
    }
  }

  class CoopAreaStateJournal {
    var dirtyEntities: map<nat, DirtyEntity>
    var entityIdToGuid: map<nat, nat>
    var untrackedEntityIds: set<nat>
    var levelStats: map<string, LevelStats>
    var observedEventCount: nat
    var trackedEventCount: nat
    var guardSkips: nat
    var boundarySaveCount: nat
    var boundaryLoadCount: nat

    function View(): Journal
      reads this
    {
      Journal(dirtyEntities, entityIdToGuid, untrackedEntityIds, levelStats, observedEventCount, trackedEventCount,
              guardSkips, boundarySaveCount, boundaryLoadCount)
    }

    constructor ()
      ensures View() == EMPTY
    {
      dirtyEntities, entityIdToGuid, untrackedEntityIds, levelStats := map[], map[], {}, map[];
      observedEventCount, trackedEventCount, guardSkips, boundarySaveCount, boundaryLoadCount := 0, 0, 0, 0, 0;
    }

    /** The record of a level, made if it is not there. */
    method TouchLevel(levelName: string) returns (stats: LevelStats)
      modifies this`levelStats
      ensures stats == old(Stats(View(), levelName)) && levelStats == old(levelStats)[levelName := stats]
    {
      if levelName !in levelStats {
        levelStats := levelStats[levelName := LevelStats(0, 0, 0, 0)];
      }
      stats := levelStats[levelName];
      assert levelStats == levelStats[levelName := stats];
    }

    method CountTracked(levelName: string)
      modifies this`trackedEventCount, this`levelStats
      ensures View() == old(Counted(View(), levelName))
    {
      trackedEventCount := trackedEventCount + 1;
      var stats := TouchLevel(levelName);
      levelStats := levelStats[levelName := stats.(dirtyEvents := stats.dirtyEvents + 1)];
    }

    method RefreshLevelDirtyCount(levelName: string)
      modifies this`levelStats
      ensures View() == old(Refreshed(View(), levelName))
    {
      var count := CountLevel(dirtyEntities, levelName);
      var stats := TouchLevel(levelName);
      levelStats := levelStats[levelName := stats.(dirtyEntities := count)];
      hide OfLevel;
    }

    method MarkCached(levelName: string, entity: Entity)
      requires IsCached(View(), levelName, entity)
      modifies this`dirtyEntities, this`trackedEventCount, this`levelStats
      ensures View() == old(FastMarked(View(), levelName, entity))
    {
      var guid := entityIdToGuid[entity.id];
      var dirty := dirtyEntities[guid];
      var latest := Snapshot(levelName, entity);
      if latest.Some? {
        dirty := latest.value.(eventMask := dirty.eventMask, xformEvents := dirty.xformEvents,
                               removeEvents := dirty.removeEvents, removed := dirty.removed);
      }
      dirty := dirty.(eventMask := dirty.eventMask + {Xform}, xformEvents := dirty.xformEvents + 1);
      dirtyEntities := dirtyEntities[guid := dirty];
      CountTracked(levelName);
      hide Snapshot;
    }

    method MarkCaptured(levelName: string, entity: Entity, event: Option<Kind>, removed: bool)
      modifies this`dirtyEntities, this`entityIdToGuid, this`untrackedEntityIds, this`guardSkips,
               this`trackedEventCount, this`levelStats
      ensures View() == old(FullMarked(View(), levelName, entity, event, removed))
    {
      var snapshot := Snapshot(levelName, entity);
      if snapshot == None {
        if entity.id != INVALID_ID {
          untrackedEntityIds := untrackedEntityIds + {entity.id};
        }
        guardSkips := guardSkips + 1;
        return;
      }
      var dirty := MergeEvents(snapshot.value, event, removed);
      StoreDirty(levelName, dirty);
      hide Snapshot, Merged, Counted, Refreshed;
    }

    method MergeEvents(snapshot: DirtyEntity, event: Option<Kind>, removed: bool) returns (dirty: DirtyEntity)
      requires !snapshot.removed && snapshot.xformEvents == snapshot.removeEvents == 0 && snapshot.eventMask == {}
      ensures dirty == Merged(dirtyEntities, snapshot, event, removed)
    {
      dirty := snapshot;
      if snapshot.guid in dirtyEntities {
        var previous := dirtyEntities[snapshot.guid];
        dirty := dirty.(eventMask := previous.eventMask, xformEvents := previous.xformEvents,
                        removeEvents := previous.removeEvents);
      }
      if event.Some? {
        dirty := dirty.(eventMask := dirty.eventMask + {event.value},
                        xformEvents := dirty.xformEvents + if event.value == Xform then 1 else 0);
      }
      if removed {
        dirty := dirty.(removed := true, removeEvents := dirty.removeEvents + 1, eventMask := dirty.eventMask + {Done});
      }
    }

    method StoreDirty(levelName: string, dirty: DirtyEntity)
      modifies this`dirtyEntities, this`entityIdToGuid, this`trackedEventCount, this`levelStats
      ensures View() == old(
        var j := View();
        Refreshed(Counted(j.(dirty := j.dirty[dirty.guid := dirty],
                             idToGuid := if dirty.entityId != INVALID_ID then j.idToGuid[dirty.entityId := dirty.guid]
                               else j.idToGuid),
                          levelName), levelName))
    {
      dirtyEntities := dirtyEntities[dirty.guid := dirty];
      if dirty.entityId != INVALID_ID {
        entityIdToGuid := entityIdToGuid[dirty.entityId := dirty.guid];
      }
      CountTracked(levelName);
      RefreshLevelDirtyCount(levelName);
    }

    method MarkDirty(levelName: string, entity: Entity, event: Option<Kind>, removed: bool)
      modifies this`dirtyEntities, this`entityIdToGuid, this`untrackedEntityIds, this`guardSkips,
               this`trackedEventCount, this`levelStats
      ensures View() == old(Marked(View(), levelName, entity, event, removed))
    {
      if entity.isLocalPlayer && entity.id != INVALID_ID {
        untrackedEntityIds := untrackedEntityIds + {entity.id};
        guardSkips := guardSkips + 1;
        return;
      }
      if event == Some(Xform) && entity.id != INVALID_ID && entity.id in untrackedEntityIds {
        return;
      }
      if event == Some(Xform) && entity.id != INVALID_ID && entity.id in entityIdToGuid {
        var guid := entityIdToGuid[entity.id];
        if guid in dirtyEntities && dirtyEntities[guid].levelName == levelName && !dirtyEntities[guid].removed {
          MarkCached(levelName, entity);
          return;
        }
      }
      MarkCaptured(levelName, entity, event, removed);
    }

    method NoteEntityEvent(levelName: string, entity: Entity, kind: Kind)
      modifies this
      ensures View() == old(Performed(View(), EntityEvent(levelName, entity, kind)))
    {
      hide Marked;
      observedEventCount := observedEventCount + 1;
      if kind == Other {
        return;
      }
      MarkDirty(levelName, entity, Some(kind), kind == Done);
    }

    method NoteEntityRemoved(levelName: string, entity: Entity)
      modifies this
      ensures View() == old(Performed(View(), EntityRemoved(levelName, entity)))
    {
      observedEventCount := observedEventCount + 1;
      MarkDirty(levelName, entity, None, true);
      hide Marked;
    }

    method NoteLevelStateSave(levelName: string, before: bool)
      modifies this
      ensures View() == old(Performed(View(), LevelSave(levelName, before)))
    {
      if before {
        boundarySaveCount := boundarySaveCount + 1;
        var record := TouchLevel(levelName);
        levelStats := levelStats[levelName := record.(saveBoundaries := record.saveBoundaries + 1)];
        RefreshLevelDirtyCount(levelName);
      }
      var stats := TouchLevel(levelName);
      hide OfLevel;
    }

    method NoteLevelStateLoad(levelName: string, before: bool)
      modifies this
      ensures View() == old(Performed(View(), LevelLoad(levelName, before)))
    {
      if before {
        boundaryLoadCount := boundaryLoadCount + 1;
        var record := TouchLevel(levelName);
        levelStats := levelStats[levelName := record.(loadBoundaries := record.loadBoundaries + 1)];
        RefreshLevelDirtyCount(levelName);
      }
      var stats := TouchLevel(levelName);
      hide OfLevel;
    }

    method Reset()
      modifies this
      ensures View() == EMPTY
    {
      dirtyEntities, entityIdToGuid, untrackedEntityIds, levelStats := map[], map[], {}, map[];
      observedEventCount, trackedEventCount, guardSkips, boundarySaveCount, boundaryLoadCount := 0, 0, 0, 0, 0;
    }
  }
}
