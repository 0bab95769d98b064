/** CoopHazardSync.cpp, OnNativeExplosiveTankExploded: any number of threads report explosions; a guid is marked under
    a lock, sent without it, and unmarked under it again when the send fails. */
module HazardSendOnce {

  /** Where a thread is: outside, between the two locked sections, or before the one that takes the mark back. */
  datatype Phase = Idle | Sending(guid: nat) | Failed(guid: nat)

  /** `sent` lists what was queued since the last reset. */
  datatype State = State(marked: set<nat>, threads: map<nat, Phase>, sent: seq<nat>)

  datatype Step =
    | Report(thread: nat, guid: nat)
    | Queue(thread: nat)
    | Refuse(thread: nat)
    | Unmark(thread: nat)
    | Reset

  function PhaseOf(s: State, t: nat): Phase {
    if t in s.threads then s.threads[t] else Idle
  }

  predicate Enabled(s: State, step: Step) {
    match step
    case Report(t, guid) => PhaseOf(s, t).Idle? && guid != 0
    case Queue(t) => PhaseOf(s, t).Sending?
    case Refuse(t) => PhaseOf(s, t).Sending?
    case Unmark(t) => PhaseOf(s, t).Failed?
    case Reset => true
  }

  function Next(s: State, step: Step): State
    requires Enabled(s, step)
  {
    match step
    case Report(t, guid) =>
      if guid in s.marked then s else s.(marked := s.marked + {guid}, threads := s.threads[t := Sending(guid)])
    case Queue(t) => s.(sent := s.sent + [PhaseOf(s, t).guid], threads := s.threads[t := Idle])
    case Refuse(t) => s.(threads := s.threads[t := Failed(PhaseOf(s, t).guid)])
    case Unmark(t) => s.(marked := s.marked - {PhaseOf(s, t).guid}, threads := s.threads[t := Idle])
    case Reset => s.(marked := {}, sent := [])
  }

  /** The thread is between its two locked sections with this guid. */
  predicate Holds(s: State, t: nat, g: nat) {
    !PhaseOf(s, t).Idle? && PhaseOf(s, t).guid == g
  }

  predicate IsQuiet(s: State) {
    forall t :: t in s.threads ==> s.threads[t].Idle?
  }

  /** Marked is exactly what is sent or in flight; nothing is sent twice, in flight twice, or both. */
  ghost predicate Inv(s: State) {
    && (forall g :: g in s.marked <==> g in s.sent || exists t :: Holds(s, t, g))
    && (forall t, g :: Holds(s, t, g) ==> g !in s.sent)
    && (forall t, u, g :: Holds(s, t, g) && Holds(s, u, g) ==> t == u)
    && (forall i, j :: 0 <= i < j < |s.sent| ==> s.sent[i] != s.sent[j])
  }

  /** Who holds what after a step. */
  predicate HeldNext(s: State, step: Step, u: nat, g: nat) {
    match step
    case Report(t, guid) => Holds(s, u, g) || (guid !in s.marked && u == t && g == guid)
    case Queue(t) => Holds(s, u, g) && u != t
    case Refuse(t) => Holds(s, u, g)
    case Unmark(t) => Holds(s, u, g) && u != t
    case Reset => Holds(s, u, g)
  }

  lemma HoldsAfter(s: State, step: Step)
    requires Enabled(s, step)
    ensures forall u, g {:trigger Holds(s, u, g)} {:trigger Holds(Next(s, step), u, g)} ::
              Holds(Next(s, step), u, g) == HeldNext(s, step, u, g)
  {
  }

  lemma StepKeepsInv(s: State, step: Step)
    requires Inv(s) && Enabled(s, step) && (step.Reset? ==> IsQuiet(s))
    ensures Inv(Next(s, step))
  {
    var n := Next(s, step);
    HoldsAfter(s, step);
    match step
    case Report(t, guid) => assert guid !in s.marked ==> Holds(n, t, guid);
    case Queue(t) => assert Holds(s, t, PhaseOf(s, t).guid);
    case Refuse(t) =>
    case Unmark(t) => assert Holds(s, t, PhaseOf(s, t).guid);
    case Reset =>
  }

  // ---- Every interleaving --------------------------------------------------------------------

  const START: State := State({}, map[], [])

  /** A run in which nothing is reset while a report is in flight. */
  predicate IsRun(s: State, steps: seq<Step>)
    decreases |steps|
  {
    steps == [] || (Enabled(s, steps[0]) && (steps[0].Reset? ==> IsQuiet(s)) && IsRun(Next(s, steps[0]), steps[1..]))
  }

  function Last(s: State, steps: seq<Step>): State
    requires IsRun(s, steps)
    decreases |steps|
  {
    if steps == [] then s else Last(Next(s, steps[0]), steps[1..])
  }

  lemma {:induction false} RunKeepsInv(s: State, steps: seq<Step>)
    requires Inv(s) && IsRun(s, steps)
    ensures Inv(Last(s, steps))
    decreases |steps|
  {
    if steps != [] {
      StepKeepsInv(s, steps[0]);
      RunKeepsInv(Next(s, steps[0]), steps[1..]);
    }
  }

  /** Under every interleaving a guid is queued at most once since the last reset, and it is marked exactly when it
      was queued or a thread is on its way with it. */
  lemma SentOnce(steps: seq<Step>)
    requires IsRun(START, steps)
    ensures var s := Last(START, steps);
            && (forall g :: multiset(s.sent)[g] <= 1)
            && (forall g :: g in s.marked <==> g in s.sent || exists t :: Holds(s, t, g))
  {
    RunKeepsInv(START, steps);
    NoDuplicates(Last(START, steps).sent);
  }

  lemma {:induction false} NoDuplicates(sent: seq<nat>)
    requires forall i, j :: 0 <= i < j < |sent| ==> sent[i] != sent[j]
    ensures forall g :: multiset(sent)[g] <= 1
  {
    if sent != [] {
      var last := |sent| - 1;
      NoDuplicates(sent[..last]);
      assert sent == sent[..last] + [sent[last]];
      assert forall i :: 0 <= i < last ==> sent[..last][i] != sent[last];
    }
  }

  // ---- When a reset is harmless --------------------------------------------------------------

  /** A reset keeps the set exact if and only if no report is in flight: what is in flight loses its mark. */
  lemma ResetIsSafeExactlyWhenQuiet(s: State)
    requires Inv(s)
    ensures Inv(Next(s, Reset)) <==> forall t :: PhaseOf(s, t).Idle?
  {
    HoldsAfter(s, Reset);
    if t :| !PhaseOf(s, t).Idle? {
      assert Holds(Next(s, Reset), t, PhaseOf(s, t).guid);
    }
  }

  /** And then a second thread can send the same guid again, whatever else is going on. */
  lemma ResetInFlightSendsTwice(s: State, t: nat, u: nat)
    requires Inv(s) && PhaseOf(s, t).Sending? && PhaseOf(s, u).Idle? && PhaseOf(s, t).guid != 0
    ensures var g := PhaseOf(s, t).guid;
            var a := Next(s, Reset);
            Enabled(a, Report(u, g)) &&
            var b := Next(a, Report(u, g));
            Enabled(b, Queue(t)) &&
            var c := Next(b, Queue(t));
            Enabled(c, Queue(u)) && Next(c, Queue(u)).sent == [g, g]
  {
  }

  // ---- The code of one thread ----------------------------------------------------------------

  class HazardSync {
    var sentExplosiveTankEventGuids: set<nat>

    /** One report from end to end; `queued` is what the send answers if it is tried. */
    method OnNativeExplosiveTankExploded(guid: nat, queued: bool) returns (sent: bool)
      modifies this
      ensures sent == (guid != 0 && guid !in old(sentExplosiveTankEventGuids) && queued)
      ensures sentExplosiveTankEventGuids == old(sentExplosiveTankEventGuids) + if sent then {guid} else {}
    {
      if guid == 0 {
        return false;
      }
      if guid in sentExplosiveTankEventGuids {
        return false;
      }
      sentExplosiveTankEventGuids := sentExplosiveTankEventGuids + {guid};
      if !queued {
        sentExplosiveTankEventGuids := sentExplosiveTankEventGuids - {guid};
        return false;
      }
      return true;
    }
  }

  /** The method is the three steps of one thread run without interruption. */
  lemma UninterruptedReport(s: State, t: nat, guid: nat, queued: bool)
    requires PhaseOf(s, t).Idle? && guid != 0 && guid !in s.marked
    ensures var a := Next(s, Report(t, guid));
            var last := if queued then Next(a, Queue(t)) else Next(Next(a, Refuse(t)), Unmark(t));
            && last.marked == s.marked + (if queued then {guid} else {})
            && last.sent == s.sent + (if queued then [guid] else [])
            && PhaseOf(last, t).Idle?
  {
  }
}
