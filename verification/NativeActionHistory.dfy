/** The authority's record of native actions read off the events alone: which Starts and Exits are reported, and which
    Start binds a waiting semantic context. */
module NativeActionHistory {
  import opened SerialSequence
  import opened NativeActionEdges

  lemma AfterOne(run: seq<Event>)
    requires run != []
    ensures After(run) == Moved(After(run[..|run| - 1]), run[|run| - 1])
  {
  }

  // ---- Which actions run ---------------------------------------------------------------------

  predicate StartsAction(run: seq<Event>, i: int, action: nat) {
    0 <= i < |run| && run[i].FragmentStarted? && run[i].authority && run[i].action == action
  }

  predicate StopsAction(run: seq<Event>, i: int, action: nat) {
    0 <= i < |run| && (run[i].Clear? || (run[i].Terminal? && run[i].action == action))
  }

  ghost predicate NotStoppedAfter(run: seq<Event>, i: int, action: nat) {
    forall j :: i < j ==> !StopsAction(run, j, action)
  }

  /** The action was started and has not ended since, nor was the table cleared. */
  ghost predicate Runs(run: seq<Event>, action: nat) {
    action != 0 && exists i :: StartsAction(run, i, action) && NotStoppedAfter(run, i, action)
  }

  lemma RunsMore(run: seq<Event>, e: Event, action: nat)
    ensures Runs(run + [e], action) <==>
              action != 0 &&
              if e.Clear? || (e.Terminal? && e.action == action) then false
              else Runs(run, action) || (e.FragmentStarted? && e.authority && e.action == action)
  {
    var more := run + [e];
    assert forall i :: 0 <= i < |run| ==> more[i] == run[i];
    if Runs(run, action) && !StopsAction(more, |run|, action) {
      var i :| StartsAction(run, i, action) && NotStoppedAfter(run, i, action);
      assert StartsAction(more, i, action);
      forall j | i < j ensures !StopsAction(more, j, action) {
        assert !StopsAction(run, j, action);
      }
      assert NotStoppedAfter(more, i, action);
    }
    if Runs(more, action) {
      var i :| StartsAction(more, i, action) && NotStoppedAfter(more, i, action);
      assert StopsAction(more, |run|, action) ==> i >= |run|;
      if i < |run| {
        assert StartsAction(run, i, action);
        forall j | i < j ensures !StopsAction(run, j, action) {
          assert !StopsAction(more, j, action);
        }
        assert NotStoppedAfter(run, i, action);
      }
    }
    if e.FragmentStarted? && e.authority && e.action == action && action != 0 {
      assert StartsAction(more, |run|, action) && NotStoppedAfter(more, |run|, action);
    }
  }

  /** The table holds exactly the actions that run. */
  lemma {:induction false} TableIsWhatRuns(run: seq<Event>, action: nat)
    ensures action in After(run).actions <==> Runs(run, action)
  {
    if run == [] {
      assert !Runs(run, action);
    } else {
      var before, e := run[..|run| - 1], run[|run| - 1];
      assert run == before + [e];
      TableIsWhatRuns(before, action);
      RunsMore(before, e, action);
      AfterOne(run);
      hide Runs, After;
      if e.FragmentStarted? && e.action != action {
        assert action in Moved(After(before), e).actions <==> action in After(before).actions;
      }
    }
  }

  // ---- What is reported ----------------------------------------------------------------------

  /** The event is a start that counts: the peer is the authority and the action does not run already. */
  ghost predicate IsRecordedStart(run: seq<Event>, e: Event) {
    e.FragmentStarted? && e.authority && !Runs(run, e.action)
  }

  /** What one more event adds to the reports, read off the events. */
  ghost predicate AddsReport(run: seq<Event>, e: Event, more: seq<Edge>) {
    if IsRecordedStart(run, e) && e.action != 0 then
      && |more| == 1 && more[0].action == e.action && more[0].command == Start && more[0].queued == e.queued
      && more[0].recorded.payload == e.payload && more[0].recorded.sequence == Next(After(run).sequence)
    else if e.Terminal? && Runs(run, e.action) then
      |more| == 1 && more[0].action == e.action && more[0].command == Exit && more[0].queued == e.queued
    else more == []
  }

  /** A Start is reported for exactly the starts that count, with their payload and the next sequence, and an Exit for
      exactly the ends of actions that run; nothing else is ever reported. */
  lemma ReportsAreTheEvents(run: seq<Event>, e: Event)
    ensures var before, now := After(run).edges, After(run + [e]).edges;
            before <= now && AddsReport(run, e, now[|before|..])
  {
    AfterMore(run, e);
    if e.FragmentStarted? || e.Terminal? {
      TableIsWhatRuns(run, e.action);
    }
    NoActionZero(run);
    hide After, Runs;
  }

  lemma NoActionZero(run: seq<Event>)
    ensures 0 !in After(run).actions
  {
    TableIsWhatRuns(run, 0);
  }

  // ---- Which Start binds a context -----------------------------------------------------------

  /** An accepted arming of a context. */
  predicate ArmsAt(run: seq<Event>, a: int) {
    0 <= a < |run| && run[a].Arm? && !run[a].nested
  }

  /** The event takes away what was armed for the context. */
  ghost predicate EndsWait(run: seq<Event>, j: int, context: nat) {
    0 <= j < |run| &&
    match run[j]
    case Arm(_, _, nested) => !nested
    case Disarm(other) => other == context
    case Clear(scope) => scope != Table
    case FragmentStarted(_, _, _, _) => IsRecordedStart(run[..j], run[j])
    case _ => false
  }

  /** The context armed at `a` still waits: nothing has ended its wait. */
  ghost predicate WaitsFrom(run: seq<Event>, a: int) {
    && ArmsAt(run, a) && run[a].context != 0
    && forall j :: a < j ==> !EndsWait(run, j, run[a].context)
  }

  predicate NamesAt(run: seq<Event>, b: int) {
    0 <= b < |run| && run[b].BindAction? && run[b].allowed
  }

  /** The last action named since the arming. */
  ghost predicate LastNamed(run: seq<Event>, a: int, b: int) {
    a < b && NamesAt(run, b) && forall j :: b < j ==> !NamesAt(run, j)
  }

  ghost predicate NothingNamed(run: seq<Event>, a: int) {
    forall j :: a < j ==> !NamesAt(run, j)
  }

  /** The number of accepted armings. */
  function Armings(run: seq<Event>): nat {
    if run == [] then 0
    else Armings(run[..|run| - 1]) + if run[|run| - 1].Arm? && !run[|run| - 1].nested then 1 else 0
  }

  lemma {:induction false} ArmingsAreCounted(run: seq<Event>)
    ensures After(run).armings == Armings(run)
  {
    if run != [] {
      ArmingsAreCounted(run[..|run| - 1]);
      AfterOne(run);
      hide After;
    }
  }

  /** What is pending, for the context armed at `a`. */
  ghost predicate PendingIs(run: seq<Event>, a: int, p: Pending)
    requires ArmsAt(run, a)
  {
    && p.context == run[a].context && p.variant == run[a].variant && p.arm == Armings(run[..a + 1])
    && (NothingNamed(run, a) ==> p.action == 0 && p.fragment == -1)
    && (forall b :: LastNamed(run, a, b) ==> p.action == run[b].action && p.fragment == run[b].fragment)
  }

  ghost predicate PendingOk(run: seq<Event>) {
    && (After(run).pending.context != 0 <==> exists a :: WaitsFrom(run, a))
    && (forall a :: WaitsFrom(run, a) ==> PendingIs(run, a, After(run).pending))
  }

  lemma EndsWaitMore(run: seq<Event>, e: Event, j: int, context: nat)
    ensures j < |run| ==> (EndsWait(run + [e], j, context) <==> EndsWait(run, j, context))
  {
    if 0 <= j < |run| {
      assert (run + [e])[..j] == run[..j];
    }
  }

  /** The wait goes on when the new event does not end it. */
  lemma WaitsMore(run: seq<Event>, e: Event, a: int)
    requires a < |run|
    ensures WaitsFrom(run + [e], a) <==>
              WaitsFrom(run, a) && !EndsWait(run + [e], |run|, run[a].context)
  {
    var more := run + [e];
    hide EndsWait;
    if ArmsAt(run, a) {
      forall j | a < j < |run| ensures EndsWait(more, j, run[a].context) <==> EndsWait(run, j, run[a].context) {
        EndsWaitMore(run, e, j, run[a].context);
      }
      NothingBeyond(run, run[a].context);
      NothingBeyond(more, run[a].context);
    }
  }

  lemma NothingBeyond(run: seq<Event>, context: nat)
    ensures forall j :: j >= |run| ==> !EndsWait(run, j, context)
  {
  }

  lemma ArmWaits(run: seq<Event>, e: Event)
    requires e.Arm? && !e.nested && e.context != 0
    ensures WaitsFrom(run + [e], |run|) && NothingNamed(run + [e], |run|)
  {
    hide IsRecordedStart;
  }

  lemma OnlyArmWaits(run: seq<Event>, e: Event)
    ensures WaitsFrom(run + [e], |run|) ==> e.Arm? && !e.nested && e.context != 0
    ensures forall a :: WaitsFrom(run + [e], a) ==> a <= |run|
  {
    hide EndsWait;
  }

  lemma NamedMore(run: seq<Event>, e: Event, a: int)
    requires a < |run|
    ensures forall b :: LastNamed(run + [e], a, b) <==>
              if e.BindAction? && e.allowed then b == |run| else LastNamed(run, a, b)
    ensures NothingNamed(run + [e], a) <==> NothingNamed(run, a) && !(e.BindAction? && e.allowed)
  {
    var more := run + [e];
    assert forall j :: j < |run| ==> (NamesAt(more, j) <==> NamesAt(run, j));
    assert NamesAt(more, |run|) <==> e.BindAction? && e.allowed;
  }

  lemma StillPending(run: seq<Event>, e: Event, a: int, p: Pending)
    requires WaitsFrom(run, a) && PendingIs(run, a, p) && !(e.BindAction? && e.allowed)
    ensures ArmsAt(run + [e], a) && PendingIs(run + [e], a, p)
  {
    NamedMore(run, e, a);
    assert (run + [e])[..a + 1] == run[..a + 1] && (run + [e])[a] == run[a];
    assert forall b :: LastNamed(run, a, b) ==> (run + [e])[b] == run[b];
    hide LastNamed, NothingNamed, EndsWait, Armings;
  }

  lemma NowNamed(run: seq<Event>, e: Event, a: int, p: Pending)
    requires WaitsFrom(run, a) && PendingIs(run, a, p) && e.BindAction? && e.allowed
    ensures ArmsAt(run + [e], a) && PendingIs(run + [e], a, p.(action := e.action, fragment := e.fragment))
  {
    NamedMore(run, e, a);
    assert (run + [e])[..a + 1] == run[..a + 1] && (run + [e])[a] == run[a];
    hide LastNamed, NothingNamed, EndsWait, Armings;
  }

  lemma JustArmed(run: seq<Event>, e: Event)
    requires e.Arm? && !e.nested
    ensures var more := run + [e];
            ArmsAt(more, |run|) && PendingIs(more, |run|, Pending(e.context, e.variant, 0, -1, After(run).armings + 1))
  {
    ArmingsAreCounted(run);
    var more := run + [e];
    assert more[..|run| + 1] == more && more[..|run|] == run;
    hide After;
  }

  /** The pending context after one more event. */
  ghost predicate PendingMoved(s: Authority, e: Event, ends: bool, p: Pending) {
    if e.Arm? && !e.nested then p == Pending(e.context, e.variant, 0, -1, s.armings + 1)
    else if ends then p.context == 0
    else if e.BindAction? && e.allowed && s.pending.context != 0 then
      p == s.pending.(action := e.action, fragment := e.fragment)
    else p == s.pending
  }

  lemma MovesPending(run: seq<Event>, e: Event)
    ensures PendingMoved(After(run), e, EndsWait(run + [e], |run|, After(run).pending.context),
                         After(run + [e]).pending)
  {
    AfterMore(run, e);
    assert (run + [e])[..|run|] == run;
    if e.FragmentStarted? {
      TableIsWhatRuns(run, e.action);
      NoActionZero(run);
    }
    hide After, Runs;
  }

  lemma ArmKeepsPending(run: seq<Event>, e: Event)
    requires e.Arm? && !e.nested
    ensures PendingOk(run + [e])
  {
    MovesPending(run, e);
    JustArmed(run, e);
    var more := run + [e];
    OnlyArmWaits(run, e);
    forall a | a < |run| ensures !WaitsFrom(more, a) {
      ArmEndsWaits(run, e, a);
    }
    if e.context != 0 {
      ArmWaits(run, e);
    }
    hide EndsWait, PendingIs, After, WaitsFrom;
  }

  lemma ArmEndsWaits(run: seq<Event>, e: Event, a: int)
    requires e.Arm? && !e.nested && a < |run|
    ensures !WaitsFrom(run + [e], a)
  {
    var more := run + [e];
    if 0 <= a && more[a].Arm? {
      assert EndsWait(more, |run|, more[a].context);
    }
  }

  lemma OtherKeepsPending(run: seq<Event>, e: Event)
    requires PendingOk(run) && !(e.Arm? && !e.nested)
    ensures PendingOk(run + [e])
  {
    hide After, EndsWait, PendingIs, WaitsFrom;
    MovesPending(run, e);
    var more, p, q := run + [e], After(run).pending, After(run + [e]).pending;
    var ends := EndsWait(more, |run|, p.context);
    OnlyArmWaits(run, e);
    forall a | WaitsFrom(more, a) ensures WaitsFrom(run, a) && ArmsAt(more, a) && PendingIs(more, a, q) {
      WaitsMore(run, e, a);
      ContextOf(run, a, p);
      Continues(run, e, a, p, q);
    }
    if !ends && q.context != 0 {
      var a :| WaitsFrom(run, a);
      ContextOf(run, a, p);
      WaitsMore(run, e, a);
      assert WaitsFrom(more, a);
    }
    if a :| WaitsFrom(more, a) {
      ContextOf(more, a, q);
    }
  }

  lemma ContextOf(run: seq<Event>, a: int, p: Pending)
    requires WaitsFrom(run, a) && PendingIs(run, a, p)
    ensures 0 <= a < |run| && run[a].Arm? && p.context == run[a].context != 0
  {
    hide EndsWait, Armings;
  }

  lemma Continues(run: seq<Event>, e: Event, a: int, p: Pending, q: Pending)
    requires WaitsFrom(run, a) && PendingIs(run, a, p) && p.context != 0
    requires if e.BindAction? && e.allowed then q == p.(action := e.action, fragment := e.fragment) else q == p
    ensures ArmsAt(run + [e], a) && PendingIs(run + [e], a, q)
  {
    hide PendingIs, EndsWait, WaitsFrom;
    if e.BindAction? && e.allowed {
      NowNamed(run, e, a, p);
    } else {
      StillPending(run, e, a, p);
    }
  }

  lemma {:induction false} PendingIsTheLastArming(run: seq<Event>)
    ensures PendingOk(run)
  {
    if run != [] {
      var before, e := run[..|run| - 1], run[|run| - 1];
      assert run == before + [e];
      PendingIsTheLastArming(before);
      if e.Arm? && !e.nested {
        ArmKeepsPending(before, e);
      } else {
        OtherKeepsPending(before, e);
      }
      hide PendingOk;
    }
  }

  /** The event is a start that counts, and the last action and fragment named since a waiting arming are its own. */
  ghost predicate BindsArming(run: seq<Event>, e: Event, a: int) {
    && IsRecordedStart(run, e) && WaitsFrom(run, a) && e.action != 0
    && exists b :: LastNamed(run, a, b) && run[b].action == e.action && run[b].fragment == e.payload.fragment
  }

  /** Over every run: an arming is bound by exactly the Start that counts, of the action and the fragment named last
      since it, while it still waits. That Start then carries its context and variant under the next semantic sequence;
      any other Start that counts carries none. */
  lemma ArmingIsBoundExactly(run: seq<Event>, e: Event)
    ensures var s, t := After(run), After(run + [e]);
            && (forall a :: BindsArming(run, e, a) ==>
                  && t.bound == s.bound + [Armings(run[..a + 1])]
                  && t.semantic == Semantic(run[a].context, Next(s.semanticSequence), run[a].variant)
                  && t.semanticSequence == Next(s.semanticSequence))
            && ((forall a :: !BindsArming(run, e, a)) ==> t.bound == s.bound)
            && ((forall a :: !BindsArming(run, e, a)) && IsRecordedStart(run, e) ==>
                  t.semantic == Semantic(0, 0, 0) && t.semanticSequence == s.semanticSequence)
  {
    AfterMore(run, e);
    PendingIsTheLastArming(run);
    if e.FragmentStarted? {
      TableIsWhatRuns(run, e.action);
      NoActionZero(run);
      var p := After(run).pending;
      forall a | WaitsFrom(run, a)
        ensures BindsArming(run, e, a) <==>
                  IsRecordedStart(run, e) && p.action == e.action != 0 && p.fragment == e.payload.fragment
      {
        BoundByName(run, e, a, p);
      }
    }
    hide After, Runs, PendingIs, LastNamed, Armings;
  }

  lemma BoundByName(run: seq<Event>, e: Event, a: int, p: Pending)
    requires WaitsFrom(run, a) && PendingIs(run, a, p) && e.FragmentStarted?
    ensures BindsArming(run, e, a) <==>
              IsRecordedStart(run, e) && p.action == e.action != 0 && p.fragment == e.payload.fragment
    ensures p.context == run[a].context != 0 && p.variant == run[a].variant && p.arm == Armings(run[..a + 1])
  {
    LastNameExists(run, a);
    hide LastNamed, EndsWait, IsRecordedStart, Armings;
  }

  lemma LastNameExists(run: seq<Event>, a: int)
    ensures NothingNamed(run, a) || exists b :: LastNamed(run, a, b)
  {
    if !NothingNamed(run, a) {
      var j :| a < j && NamesAt(run, j);
      var b := FindLastNamed(run, j, |run|);
      assert LastNamed(run, a, b);
    }
  }

  lemma {:induction false} FindLastNamed(run: seq<Event>, j: int, hi: int) returns (b: int)
    requires NamesAt(run, j) && j < hi && forall k :: hi <= k ==> !NamesAt(run, k)
    ensures j <= b && NamesAt(run, b) && forall k :: b < k ==> !NamesAt(run, k)
    decreases hi
  {
    if NamesAt(run, hi - 1) {
      b := hi - 1;
    } else {
      b := FindLastNamed(run, j, hi - 1);
    }
  }

  // ---- What the counters count ---------------------------------------------------------------

  /** The records since the last binding to a remote authority: starts that count, and other accepted stages. */
  ghost function Records(run: seq<Event>): nat {
    if run == [] then 0
    else
      var before, e := run[..|run| - 1], run[|run| - 1];
      if e.Clear? && e.scope == Binding then 0
      else Records(before) + if IsRecordedStart(before, e) || (e.OtherStage? && e.accepted) then 1 else 0
  }

  /** The bound contexts since the semantic state was last cleared. */
  ghost function Bound(run: seq<Event>): nat {
    if run == [] then 0
    else
      var before, e := run[..|run| - 1], run[|run| - 1];
      if e.Clear? && e.scope != Table then 0
      else Bound(before) + if exists a :: BindsArming(before, e, a) then 1 else 0
  }

  lemma CountersMove(run: seq<Event>, e: Event)
    ensures var s, t := After(run), After(run + [e]);
            && t.sequence == (if e.Clear? && e.scope == Binding then 0
                              else if IsRecordedStart(run, e) || (e.OtherStage? && e.accepted) then Next(s.sequence)
                              else s.sequence)
            && (!e.FragmentStarted? ==>
                  && t.semanticSequence == (if e.Clear? && e.scope != Table then 0 else s.semanticSequence)
                  && t.semantic == (if e.Clear? && e.scope != Table then Semantic(0, 0, 0) else s.semantic))
            && (e.FragmentStarted? && !IsRecordedStart(run, e) ==> t == s)
  {
    AfterMore(run, e);
    if e.FragmentStarted? {
      TableIsWhatRuns(run, e.action);
      NoActionZero(run);
    }
    hide After, Runs;
  }

  /** Over every run the two counters are the numbers of records and of bound contexts, in serial arithmetic. */
  lemma {:induction false} CountersCount(run: seq<Event>)
    ensures After(run).sequence == Advanced(0, Records(run))
    ensures After(run).semanticSequence == Advanced(0, Bound(run))
  {
    if run != [] {
      var before, e := run[..|run| - 1], run[|run| - 1];
      assert run == before + [e];
      CountersCount(before);
      CountersMove(before, e);
      ArmingIsBoundExactly(before, e);
      hide After, BindsArming, IsRecordedStart;
      assert BindsOnlyStarts(before, e) by { OnlyStartsBind(before, e); }
    }
  }

  ghost predicate BindsOnlyStarts(run: seq<Event>, e: Event) {
    forall a :: BindsArming(run, e, a) ==> e.FragmentStarted? && IsRecordedStart(run, e)
  }

  lemma OnlyStartsBind(run: seq<Event>, e: Event)
    ensures BindsOnlyStarts(run, e)
  {
    hide Runs, WaitsFrom, LastNamed;
  }
}
