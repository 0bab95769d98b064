/** CoopNativeEntityIdAllocator.cpp: a dry run that gives every request a fresh entity id. */
module EntityIdAllocator {

  const MAX_ID: nat := 0xFFFF_FFFF
  const FLOOR: nat := 0x10000
  const SEARCH_BUDGET: nat := 1000000

  type Id = n: nat | n <= 0xFFFF_FFFF

  datatype Request = Request(ordinal: nat, source: Id)

  datatype Entry = Entry(ordinal: nat, source: Id, target: Id)

  /** The engine's answer about an id; a guarded call that fails counts as used. Every id is asked at most once, so
      an answer per id is all there is to know. */
  datatype Usage = Free | Used | Guarded

  datatype Runtime = Runtime(validate: bool, answers: map<Id, Usage>)
  {
    predicate IsTaken(id: Id) { validate && id in answers && answers[id] != Free }

    predicate IsGuarded(id: Id) { validate && id in answers && answers[id] == Guarded }
  }

  datatype Reason = Complete | PlannedWithGuards | Unavailable | SourceZero | SearchGuard | Exhausted

  datatype Plan = Plan(ok: bool, reason: Reason, requested: nat, planned: nat, forbiddenIds: nat, runtimeUsedSkips: nat,
                       collisionSkips: nat, guards: nat, firstCandidate: Id, nextCandidate: Id, entries: seq<Entry>)

  // ---- The ids of a range --------------------------------------------------------------------

  /** The ids in [lo, hi) that the engine does not use, in order. */
  function FreeIds(r: Runtime, lo: Id, hi: Id): seq<Id> {
    if lo >= hi then [] else FreeIds(r, lo, hi - 1) + if r.IsTaken(hi - 1) then [] else [hi - 1]
  }

  function TakenIds(r: Runtime, lo: Id, hi: Id): nat {
    if lo >= hi then 0 else TakenIds(r, lo, hi - 1) + if r.IsTaken(hi - 1) then 1 else 0
  }

  function GuardedIds(r: Runtime, lo: Id, hi: Id): nat {
    if lo >= hi then 0 else GuardedIds(r, lo, hi - 1) + if r.IsGuarded(hi - 1) then 1 else 0
  }

  lemma {:induction false} FreeIdsAreFresh(r: Runtime, lo: Id, hi: Id)
    requires lo <= hi
    ensures forall i :: 0 <= i < |FreeIds(r, lo, hi)| ==>
              lo <= FreeIds(r, lo, hi)[i] < hi && !r.IsTaken(FreeIds(r, lo, hi)[i])
    ensures forall i, j :: 0 <= i < j < |FreeIds(r, lo, hi)| ==> FreeIds(r, lo, hi)[i] < FreeIds(r, lo, hi)[j]
  {
    if lo < hi {
      FreeIdsAreFresh(r, lo, hi - 1);
      var before := FreeIds(r, lo, hi - 1);
      assert FreeIds(r, lo, hi) == before + if r.IsTaken(hi - 1) then [] else [hi - 1];
    }
  }

  lemma {:induction false} EveryIdIsCounted(r: Runtime, lo: Id, hi: Id)
    requires lo <= hi
    ensures |FreeIds(r, lo, hi)| + TakenIds(r, lo, hi) == hi - lo
    ensures forall id: Id :: lo <= id < hi ==> (id in FreeIds(r, lo, hi) <==> !r.IsTaken(id))
  {
    if lo < hi {
      FreeIdsAreFresh(r, lo, hi - 1);
      EveryIdIsCounted(r, lo, hi - 1);
      var before := FreeIds(r, lo, hi - 1);
      assert FreeIds(r, lo, hi) == before + if r.IsTaken(hi - 1) then [] else [hi - 1];
    }
  }

  function Targets(entries: seq<Entry>): seq<Id> {
    seq(|entries|, i requires 0 <= i < |entries| => entries[i].target)
  }

  // ---- The plan ------------------------------------------------------------------------------

  method MaxOf(ids: set<Id>) returns (highest: Id)
    ensures forall id :: id in ids ==> id <= highest
    ensures highest in ids || highest == 0
  {
    highest := 0;
    var left := ids;
    while left != {}
      invariant left <= ids
      invariant forall id: Id :: id in ids && id !in left ==> id <= highest
      invariant highest in ids || highest == 0
      decreases left
    {
      var id :| id in left;
      left := left - {id};
      if id > highest {
        highest := id;
      }
    }
  }

  /** Every id not below `next` is unclaimed, unless the ids are used up. */
  predicate IsAbove(next: Id, claimed: set<Id>) {
    next == MAX_ID || forall id :: id in claimed ==> id < next
  }

  datatype Search = Found | Stopped(reason: Reason)

  /** The inner loop: the least free id from `start` on, if the search gets that far. */
  method FindTarget(r: Runtime, native: bool, start: Id, claimed: set<Id>)
    returns (outcome: Search, next: Id, skips: nat, collisions: nat, guards: nat)
    requires IsAbove(start, claimed) && start > 0 && (r.validate ==> native)
    ensures start <= next && IsAbove(next, claimed) && collisions == 0
    ensures forall id :: start <= id < next ==> r.IsTaken(id)
    ensures skips == next - start && guards == GuardedIds(r, start, next)
    ensures next <= start + SEARCH_BUDGET
    ensures match outcome
            case Found => next < MAX_ID && next < start + SEARCH_BUDGET && !r.IsTaken(next)
            case Stopped(reason) =>
              if reason == SearchGuard then next == start + SEARCH_BUDGET
              else reason == Exhausted && next == MAX_ID && next < start + SEARCH_BUDGET
  {
    next, skips, collisions, guards := start, 0, 0, 0;
    var guardBudget := 0;
    while true
      invariant start <= next && IsAbove(next, claimed) && collisions == 0
      invariant forall id :: start <= id < next ==> r.IsTaken(id)
      invariant skips == next - start == guardBudget <= SEARCH_BUDGET && guards == GuardedIds(r, start, next)
      decreases SEARCH_BUDGET - guardBudget
    {
      guardBudget := guardBudget + 1;
      if guardBudget > SEARCH_BUDGET {
        return Stopped(SearchGuard), next, skips, collisions, guards;
      }
      if next == 0 || next == MAX_ID {
        return Stopped(Exhausted), next, skips, collisions, guards;
      }
      if next in claimed {
        // The branch that would count a collision skip.
        assert false;
      }
      if r.validate && native {
        var usage := if next in r.answers then r.answers[next] else Free;
        if usage != Free {
          skips, next := skips + 1, next + 1;
          guards := guards + if usage == Guarded then 1 else 0;
          continue;
        }
      }
      return Found, next, skips, collisions, guards;
    }
  }

  // ---- The whole plan ------------------------------------------------------------------------

  /** The planned entries follow the requests and take, in order, every free id of the searched range. */
  ghost predicate IsPlanned(r: Runtime, requests: seq<Request>, entries: seq<Entry>, lo: Id, hi: Id) {
    && |entries| <= |requests| && Targets(entries) == FreeIds(r, lo, hi)
    && forall i :: 0 <= i < |entries| ==>
         entries[i].ordinal == requests[i].ordinal && entries[i].source == requests[i].source && entries[i].source != 0
  }

  ghost predicate IsClaimed(id: Id, requests: seq<Request>, forbiddenIds: seq<Id>) {
    id != 0 && (id in forbiddenIds || exists i :: 0 <= i < |requests| && requests[i].source == id)
  }

  lemma {:induction false} SkippedIdsAreNotFree(r: Runtime, lo: Id, mid: Id, hi: Id)
    requires lo <= mid <= hi && forall id :: mid <= id < hi ==> r.IsTaken(id)
    ensures FreeIds(r, lo, hi) == FreeIds(r, lo, mid) && TakenIds(r, lo, hi) == TakenIds(r, lo, mid) + (hi - mid)
    ensures GuardedIds(r, lo, hi) == GuardedIds(r, lo, mid) + GuardedIds(r, mid, hi)
    decreases hi - mid
  {
    if mid < hi {
      SkippedIdsAreNotFree(r, lo, mid, hi - 1);
    }
  }

  // ---- Where a plan stops --------------------------------------------------------------------

  /** The million ids before `at` are all in use. */
  ghost predicate LongRunBefore(r: Runtime, first: Id, at: Id) {
    first + 1000000 <= at && forall id: Id :: at - 1000000 <= id < at ==> r.IsTaken(id)
  }

  ghost predicate NoLongRun(r: Runtime, first: Id, to: Id) {
    forall at: Id :: first <= at < to ==> !LongRunBefore(r, first, at)
  }

  /** Why the plan ends with the request after `planned` entries, the ids below `reached` being searched. */
  ghost predicate IsReason(reason: Reason, r: Runtime, requests: seq<Request>, planned: nat, first: Id, reached: Id) {
    var open := planned < |requests|;
    && planned <= |requests| && first <= reached && reason != Unavailable
    && (reason == SourceZero <==> open && requests[planned].source == 0)
    && (reason == SearchGuard <==> open && requests[planned].source != 0 && LongRunBefore(r, first, reached))
    && (reason == Exhausted <==>
          open && requests[planned].source != 0 && !LongRunBefore(r, first, reached) && reached == MAX_ID)
    && (reason == Complete || reason == PlannedWithGuards <==> !open)
    && NoLongRun(r, first, reached)
  }

  /** What it takes to plan everything: no zero source, and enough free ids before the first long run. */
  ghost predicate CanComplete(r: Runtime, requests: seq<Request>, first: Id) {
    && (forall i :: 0 <= i < |requests| ==> requests[i].source != 0)
    && exists to: Id :: first <= to && NoLongRun(r, first, to) && |FreeIds(r, first, to)| == |requests|
         && !LongRunBefore(r, first, to)
  }

  lemma {:induction false} FreeIdsGrow(r: Runtime, lo: Id, mid: Id, hi: Id)
    requires lo <= mid <= hi
    ensures |FreeIds(r, lo, mid)| <= |FreeIds(r, lo, hi)|
    decreases hi - mid
  {
    if mid < hi {
      FreeIdsGrow(r, lo, mid, hi - 1);
    }
  }

  /** A plan is complete exactly when it can be. */
  lemma CompletesExactlyWhenItCan(reason: Reason, r: Runtime, requests: seq<Request>, entries: seq<Entry>, first: Id,
      reached: Id)
    requires IsPlanned(r, requests, entries, first, reached)
    requires IsReason(reason, r, requests, |entries|, first, reached)
    requires |entries| == |requests| ==> !LongRunBefore(r, first, reached)
    ensures |entries| == |requests| <==> CanComplete(r, requests, first)
  {
    assert |FreeIds(r, first, reached)| == |Targets(entries)| == |entries|;
    hide FreeIds, LongRunBefore, NoLongRun;
    if |entries| == |requests| {
      assert forall i :: 0 <= i < |requests| ==> requests[i].source == entries[i].source;
      assert first <= reached && NoLongRun(r, first, reached);
    } else if CanComplete(r, requests, first) {
      var to: Id :| first <= to && NoLongRun(r, first, to) && |FreeIds(r, first, to)| == |requests|
                    && !LongRunBefore(r, first, to);
      if to <= reached {
        FreeIdsGrow(r, first, to, reached);
      } else {
        LongRunIsSeen(r, first, reached, to);
      }
      assert false;
    }
  }

  lemma LongRunIsSeen(r: Runtime, first: Id, at: Id, to: Id)
    requires first <= at < to && NoLongRun(r, first, to)
    ensures !LongRunBefore(r, first, at)
  {
  }

  /** Enough free ids and no long run of taken ones: then everything is planned. */
  lemma EnoughIdsComplete(r: Runtime, requests: seq<Request>, first: Id)
    requires forall i :: 0 <= i < |requests| ==> requests[i].source != 0
    requires first <= MAX_ID && |FreeIds(r, first, MAX_ID)| >= |requests|
    requires NoLongRun(r, first, MAX_ID)
    ensures CanComplete(r, requests, first)
  {
    var to := EnoughUpTo(r, first, MAX_ID, |requests|);
    hide FreeIds;
    assert first <= to && NoLongRun(r, first, to) && |FreeIds(r, first, to)| == |requests|
           && !LongRunBefore(r, first, to);
  }

  lemma {:induction false} EnoughUpTo(r: Runtime, first: Id, hi: Id, n: nat) returns (to: Id)
    requires first <= hi && |FreeIds(r, first, hi)| >= n
    ensures first <= to <= hi && |FreeIds(r, first, to)| == n
    ensures to > first ==> !r.IsTaken(to - 1)
    decreases hi - first
  {
    if n == 0 {
      to := first;
    } else if |FreeIds(r, first, hi)| == n && !r.IsTaken(hi - 1) {
      to := hi;
    } else {
      to := EnoughUpTo(r, first, hi - 1, n);
    }
  }

  /** The ids no target may be. */
  function ClaimedIds(requests: seq<Request>, forbiddenIds: seq<Id>): (ids: set<Id>)
    ensures forall id: Id :: id in ids <==> IsClaimed(id, requests, forbiddenIds)
  {
    (set i | 0 <= i < |forbiddenIds| && forbiddenIds[i] != 0 :: forbiddenIds[i])
    + (set i | 0 <= i < |requests| && requests[i].source != 0 :: requests[i].source)
  }

  /** The id after the greatest claimed one, but above the floor and not past the last id. */
  ghost predicate IsFirst(first: Id, claimed: set<Id>) {
    && 0x10000 < first && (forall id :: id in claimed ==> id < first || first == MAX_ID)
    && (first == 0x10001 || (first - 1) in claimed || first in claimed)
  }

  method CollectForbidden(requests: seq<Request>, forbiddenIds: seq<Id>) returns (forbidden: set<Id>)
    ensures forbidden == ClaimedIds(requests, forbiddenIds)
  {
    forbidden := {};
    for i := 0 to |forbiddenIds|
      invariant forall id :: id in forbidden <==> id != 0 && id in forbiddenIds[..i]
    {
      if forbiddenIds[i] != 0 {
        forbidden := forbidden + {forbiddenIds[i]};
      }
    }
    ghost var given := forbidden;
    for i := 0 to |requests|
      invariant forall id :: id in forbidden <==>
                  id in given || (id != 0 && exists k :: 0 <= k < i && requests[k].source == id)
    {
      if requests[i].source != 0 {
        forbidden := forbidden + {requests[i].source};
      }
    }
    assert forall id: Id :: id in forbidden <==> IsClaimed(id, requests, forbiddenIds);
  }

  /** What a plan says of the requests, the ids in use and the ids given, all of it. */
  ghost predicate IsPlan(plan: Plan, r: Runtime, requests: seq<Request>, claimed: set<Id>, nativeGuards: nat,
      reached: Id)
  {
    && IsFirst(plan.firstCandidate, claimed)
    && IsPlanned(r, requests, plan.entries, plan.firstCandidate, reached)
    && IsReason(plan.reason, r, requests, |plan.entries|, plan.firstCandidate, reached)
    && plan.requested == |requests| && plan.forbiddenIds == |claimed|
    && plan.runtimeUsedSkips == TakenIds(r, plan.firstCandidate, reached) && plan.collisionSkips == 0
    && plan.guards == nativeGuards + GuardedIds(r, plan.firstCandidate, reached)
    && (plan.reason == Complete ==> plan.guards == 0) && (plan.reason == PlannedWithGuards ==> plan.guards > 0)
    && (plan.ok <==> plan.reason == Complete)
    && (if |plan.entries| == |requests| then plan.planned == |requests| && plan.nextCandidate == reached
        else plan.planned == plan.nextCandidate == 0)
  }

  method BuildDryRunPlan(requests: seq<Request>, forbiddenIds: seq<Id>, native: bool, nativeGuards: nat,
      allowDry: bool, runtime: Runtime)
    returns (plan: Plan, ghost reached: Id)
    ensures plan.reason == Unavailable <==> !native && !allowDry
    ensures plan.reason == Unavailable ==> !plan.ok && plan.entries == [] && plan.planned == 0
    ensures plan.reason != Unavailable ==>
              var r := if native then runtime else runtime.(validate := false);
              && IsPlan(plan, r, requests, ClaimedIds(requests, forbiddenIds), nativeGuards, reached)
              && (plan.reason == Complete || plan.reason == PlannedWithGuards <==>
                    CanComplete(r, requests, plan.firstCandidate))
  {
    hide FreeIds, TakenIds, GuardedIds, LongRunBefore, NoLongRun, IsPlanned, CanComplete;
    var forbidden := CollectForbidden(requests, forbiddenIds);
    plan := Plan(false, Unavailable, |requests|, 0, |forbidden|, 0, 0, nativeGuards, 0, 0, []);
    if !native && !allowDry {
      return plan, 0;
    }
    var r := if native then runtime else runtime.(validate := false);
    var next := MaxOf(forbidden);
    if next < FLOOR {
      next := FLOOR;
    }
    if next < MAX_ID {
      next := next + 1;
    }
    plan := plan.(firstCandidate := next);
    plan, reached := PlanAll(r, native, requests, forbidden, plan);
    CompletesExactlyWhenItCan(plan.reason, r, requests, plan.entries, plan.firstCandidate, reached);
  }

  /** The search went on from `next`, where the last entry ended, to `found`. */
  lemma NoLongRunYet(r: Runtime, first: Id, next: Id, found: Id)
    requires first <= next <= found && NoLongRun(r, first, next) && (next == first || !r.IsTaken(next - 1))
    requires found <= next + SEARCH_BUDGET && forall id :: next <= id < found ==> r.IsTaken(id)
    ensures NoLongRun(r, first, found)
    ensures LongRunBefore(r, first, found) <==> found == next + SEARCH_BUDGET
  {
    forall at: Id | next <= at <= found ensures LongRunBefore(r, first, at) <==> at == next + SEARCH_BUDGET {
      if at != next + SEARCH_BUDGET && first + SEARCH_BUDGET <= at {
        assert at - SEARCH_BUDGET <= next - 1 < at;
      }
    }
  }

  lemma FreeEndsRun(r: Runtime, first: Id, found: Id)
    requires first <= found < MAX_ID && NoLongRun(r, first, found) && !LongRunBefore(r, first, found)
             && !r.IsTaken(found)
    ensures NoLongRun(r, first, found + 1) && !LongRunBefore(r, first, found + 1)
  {
  }

  lemma TakesOne(r: Runtime, requests: seq<Request>, entries: seq<Entry>, first: Id, found: Id)
    requires first <= found < MAX_ID && |entries| < |requests| && IsPlanned(r, requests, entries, first, found)
    requires !r.IsTaken(found) && requests[|entries|].source != 0
    ensures var request := requests[|entries|];
            IsPlanned(r, requests, entries + [Entry(request.ordinal, request.source, found)], first, found + 1)
    ensures TakenIds(r, first, found + 1) == TakenIds(r, first, found)
    ensures GuardedIds(r, first, found + 1) == GuardedIds(r, first, found)
  {
    var request := requests[|entries|];
    var more := entries + [Entry(request.ordinal, request.source, found)];
    assert Targets(more) == Targets(entries) + [found];
  }

  /** A plan that is still being made, with the ids below `next` searched. */
  ghost predicate IsUnderWay(plan: Plan, r: Runtime, requests: seq<Request>, claimed: set<Id>, nativeGuards: nat,
      next: Id)
  {
    && IsFirst(plan.firstCandidate, claimed) && plan.firstCandidate <= next
    && IsPlanned(r, requests, plan.entries, plan.firstCandidate, next) && NoLongRun(r, plan.firstCandidate, next)
    && plan.requested == |requests| && plan.forbiddenIds == |claimed|
    && plan.runtimeUsedSkips == TakenIds(r, plan.firstCandidate, next) && plan.collisionSkips == 0
    && plan.guards == nativeGuards + GuardedIds(r, plan.firstCandidate, next)
    && !plan.ok && plan.planned == plan.nextCandidate == 0
  }

  /** The last searched id was free, or none was searched. */
  ghost predicate RestsOnFree(r: Runtime, first: Id, next: Id) {
    next == first || (next > first && !r.IsTaken(next - 1))
  }

  lemma Searches(plan: Plan, r: Runtime, requests: seq<Request>, claimed: set<Id>, nativeGuards: nat, next: Id,
      found: Id)
    requires IsUnderWay(plan, r, requests, claimed, nativeGuards, next) && RestsOnFree(r, plan.firstCandidate, next)
    requires next <= found <= next + SEARCH_BUDGET && forall id :: next <= id < found ==> r.IsTaken(id)
    ensures IsUnderWay(plan.(runtimeUsedSkips := plan.runtimeUsedSkips + (found - next),
                             guards := plan.guards + GuardedIds(r, next, found)),
                       r, requests, claimed, nativeGuards, found)
    ensures LongRunBefore(r, plan.firstCandidate, found) <==> found == next + SEARCH_BUDGET
  {
    SkippedIdsAreNotFree(r, plan.firstCandidate, next, found);
    NoLongRunYet(r, plan.firstCandidate, next, found);
    hide FreeIds, TakenIds, GuardedIds, LongRunBefore, NoLongRun, IsFirst;
  }

  lemma Takes(plan: Plan, r: Runtime, requests: seq<Request>, claimed: set<Id>, nativeGuards: nat, found: Id)
    requires IsUnderWay(plan, r, requests, claimed, nativeGuards, found) && found < MAX_ID && !r.IsTaken(found)
    requires |plan.entries| < |requests| && requests[|plan.entries|].source != 0
    requires !LongRunBefore(r, plan.firstCandidate, found)
    ensures var request := requests[|plan.entries|];
            IsUnderWay(plan.(entries := plan.entries + [Entry(request.ordinal, request.source, found)]),
                       r, requests, claimed, nativeGuards, found + 1)
    ensures RestsOnFree(r, plan.firstCandidate, found + 1) && !LongRunBefore(r, plan.firstCandidate, found + 1)
  {
    TakesOne(r, requests, plan.entries, plan.firstCandidate, found);
    FreeEndsRun(r, plan.firstCandidate, found);
    hide FreeIds, TakenIds, GuardedIds, LongRunBefore, NoLongRun, IsFirst, IsPlanned;
  }

  /** A plan that stops, with the reason for it. */
  lemma Stops(plan: Plan, r: Runtime, requests: seq<Request>, claimed: set<Id>, nativeGuards: nat, next: Id,
      reason: Reason)
    requires IsUnderWay(plan, r, requests, claimed, nativeGuards, next) && |plan.entries| < |requests|
    requires requests[|plan.entries|].source == 0 ==> reason == SourceZero
    requires requests[|plan.entries|].source != 0 ==>
               reason == if LongRunBefore(r, plan.firstCandidate, next) then SearchGuard else Exhausted
    requires reason == Exhausted ==> next == MAX_ID
    ensures IsPlan(plan.(reason := reason), r, requests, claimed, nativeGuards, next)
  {
    hide FreeIds, TakenIds, GuardedIds, LongRunBefore, NoLongRun, IsFirst, IsPlanned;
  }

  lemma Finishes(plan: Plan, r: Runtime, requests: seq<Request>, claimed: set<Id>, nativeGuards: nat, next: Id)
    requires IsUnderWay(plan, r, requests, claimed, nativeGuards, next) && |plan.entries| == |requests|
    ensures IsPlan(plan.(planned := |plan.entries|, nextCandidate := next, ok := plan.guards == 0,
                         reason := if plan.guards == 0 then Complete else PlannedWithGuards),
                   r, requests, claimed, nativeGuards, next)
  {
    hide FreeIds, TakenIds, GuardedIds, LongRunBefore, NoLongRun, IsFirst, IsPlanned;
  }

  lemma NothingSearched(plan: Plan, r: Runtime, requests: seq<Request>, claimed: set<Id>)
    requires IsFirst(plan.firstCandidate, claimed) && plan.forbiddenIds == |claimed|
    requires plan.entries == [] && plan.runtimeUsedSkips == plan.collisionSkips == 0 && !plan.ok
             && plan.requested == |requests| && plan.planned == plan.nextCandidate == 0
    ensures IsUnderWay(plan, r, requests, claimed, plan.guards, plan.firstCandidate)
    ensures RestsOnFree(r, plan.firstCandidate, plan.firstCandidate)
    ensures !LongRunBefore(r, plan.firstCandidate, plan.firstCandidate)
  {
  }

  method PlanAll(r: Runtime, native: bool, requests: seq<Request>, forbidden: set<Id>, start: Plan)
    returns (plan: Plan, ghost reached: Id)
    requires IsAbove(start.firstCandidate, forbidden) && IsFirst(start.firstCandidate, forbidden)
    requires (r.validate ==> native) && start.forbiddenIds == |forbidden|
    requires start.entries == [] && start.runtimeUsedSkips == start.collisionSkips == 0 && !start.ok
             && start.requested == |requests| && start.planned == start.nextCandidate == 0
    ensures IsPlan(plan, r, requests, forbidden, start.guards, reached)
    ensures |plan.entries| == |requests| ==> !LongRunBefore(r, plan.firstCandidate, reached)
  {
    NothingSearched(start, r, requests, forbidden);
    plan := start;
    var next, taken := plan.firstCandidate, forbidden;
    for i := 0 to |requests|
      invariant 0 < plan.firstCandidate <= next && IsAbove(next, taken) && |plan.entries| == i
      invariant IsUnderWay(plan, r, requests, forbidden, start.guards, next)
      invariant RestsOnFree(r, plan.firstCandidate, next) && !LongRunBefore(r, plan.firstCandidate, next)
    {
      hide IsUnderWay, RestsOnFree, LongRunBefore, IsPlan, GuardedIds;
      if requests[i].source == 0 {
        Stops(plan, r, requests, forbidden, start.guards, next, SourceZero);
        return plan.(reason := SourceZero), next;
      }
      var outcome, found, skips, collisions, guards := FindTarget(r, native, next, taken);
      Searches(plan, r, requests, forbidden, start.guards, next, found);
      plan := plan.(runtimeUsedSkips := plan.runtimeUsedSkips + skips,
                    collisionSkips := plan.collisionSkips + collisions,
                    guards := plan.guards + guards);
      next := found;
      if outcome.Stopped? {
        Stops(plan, r, requests, forbidden, start.guards, next, outcome.reason);
        return plan.(reason := outcome.reason), next;
      }
      Takes(plan, r, requests, forbidden, start.guards, next);
      plan := plan.(entries := plan.entries + [Entry(requests[i].ordinal, requests[i].source, next)]);
      taken := taken + {next};
      next := next + 1;
    }
    reached := next;
    Finishes(plan, r, requests, forbidden, start.guards, next);
    plan := plan.(planned := |plan.entries|, nextCandidate := next, ok := plan.guards == 0,
                  reason := if plan.guards == 0 then Complete else PlannedWithGuards);
  }

  /** A complete plan: distinct fresh targets for all requests in increasing order, none of them a forbidden or source
      id, zero or the last id, and no id of the searched range unaccounted for. */
  lemma CompletePlanIsFresh(plan: Plan, r: Runtime, requests: seq<Request>, forbiddenIds: seq<Id>)
    requires plan.firstCandidate <= plan.nextCandidate
             && IsPlanned(r, requests, plan.entries, plan.firstCandidate, plan.nextCandidate)
    requires |plan.entries| == |requests| == plan.planned
    requires plan.runtimeUsedSkips == TakenIds(r, plan.firstCandidate, plan.nextCandidate)
    requires plan.firstCandidate == MAX_ID || (plan.firstCandidate > FLOOR
        && forall id: Id :: IsClaimed(id, requests, forbiddenIds) ==> id < plan.firstCandidate)
    ensures plan.nextCandidate - plan.firstCandidate == plan.planned + plan.runtimeUsedSkips
    ensures forall i, j :: 0 <= i < j < |requests| ==> plan.entries[i].target < plan.entries[j].target
    ensures forall i :: 0 <= i < |requests| ==>
              var id := plan.entries[i].target;
              0 < id < MAX_ID && !IsClaimed(id, requests, forbiddenIds) && !r.IsTaken(id)
  {
    FreeIdsAreFresh(r, plan.firstCandidate, plan.nextCandidate);
    EveryIdIsCounted(r, plan.firstCandidate, plan.nextCandidate);
    hide FreeIds, TakenIds;
    var targets := Targets(plan.entries);
    assert forall i :: 0 <= i < |requests| ==> plan.entries[i].target == targets[i];
  }
}
