/** CoopAnimationTest.cpp: the Start and Exit edges the authority reports for the native actions of one enemy. What the
    engine and the policies decide beforehand is part of each event; `queued` is what the send answers. */
module NativeActionEdges {
  import opened SerialSequence

  datatype Payload = Payload(flags: set<nat>, fragment: int, priority: int, option: nat, tagState: seq<nat>,
      tagStateValid: bool)

  datatype Recorded = Recorded(sequence: Serial, payload: Payload)

  datatype Command = Start | Exit

  datatype Edge = Edge(action: nat, command: Command, recorded: Recorded, queued: bool)

  /** A semantic context that waits for the fragment it starts; zero is none. `arm` numbers the arming. */
  datatype Pending = Pending(context: nat, variant: nat, action: nat, fragment: int, arm: nat)

  datatype Semantic = Semantic(context: nat, sequence: Serial, variant: nat)

  /** How much of the state a clearing takes: the table of running actions alone; with it the semantic state, when
      the authority changes; and the sequence counter too, when the enemy is bound to a remote authority. */
  datatype Scope = Table | Generation | Binding

  /** `edges` and `bound` list what was reported and which armings were bound. */
  datatype Authority = Authority(
    sequence: Serial, semanticSequence: Serial, actions: map<nat, Recorded>, pending: Pending, semantic: Semantic,
    armings: nat, edges: seq<Edge>, bound: seq<nat>)

  datatype Event =
    | FragmentStarted(action: nat, payload: Payload, authority: bool, queued: bool)
    | Terminal(action: nat, queued: bool)
    | OtherStage(accepted: bool)
    | Arm(context: nat, variant: nat, nested: bool)
    | Disarm(context: nat)
    | BindAction(action: nat, fragment: int, allowed: bool)
    | Clear(scope: Scope)

  function Unpended(p: Pending): Pending {
    Pending(0, 0, 0, -1, p.arm)
  }

  /** RecordEnemyMannequinAuthorityState at the stage where a fragment has started. */
  function Started(s: Authority, action: nat, payload: Payload, queued: bool): Authority {
    var sequence := Next(s.sequence);
    var recorded := Recorded(sequence, payload);
    var matches := s.pending.context != 0 && s.pending.action != 0 && s.pending.action == action
                   && s.pending.fragment == payload.fragment;
    var semanticSequence := if matches then Next(s.semanticSequence) else s.semanticSequence;
    Authority(sequence, semanticSequence,
              if action != 0 then s.actions[action := recorded] else s.actions,
              Unpended(s.pending),
              if matches then Semantic(s.pending.context, semanticSequence, s.pending.variant) else Semantic(0, 0, 0),
              s.armings,
              if action != 0 then s.edges + [Edge(action, Start, recorded, queued)] else s.edges,
              if matches then s.bound + [s.pending.arm] else s.bound)
  }

  /** No Exit is reported for what was running. */
  function Cleared(s: Authority, scope: Scope): Authority {
    var t := s.(actions := map[]);
    match scope
    case Table => t
    case Generation => t.(semanticSequence := 0, pending := Unpended(s.pending), semantic := Semantic(0, 0, 0))
    case Binding => t.(sequence := 0, semanticSequence := 0, pending := Unpended(s.pending),
                       semantic := Semantic(0, 0, 0))
  }

  function Moved(s: Authority, e: Event): Authority {
    match e
    case FragmentStarted(action, payload, authority, queued) =>
      if !authority || (action != 0 && action in s.actions) then s else Started(s, action, payload, queued)
    case Terminal(action, queued) =>
      if action !in s.actions then s
      else s.(actions := s.actions - {action}, edges := s.edges + [Edge(action, Exit, s.actions[action], queued)])
    case OtherStage(accepted) => if accepted then s.(sequence := Next(s.sequence)) else s
    case Arm(context, variant, nested) =>
      if nested then s
      else s.(pending := Pending(context, variant, 0, -1, s.armings + 1), armings := s.armings + 1)
    case Disarm(context) => if s.pending.context == context then s.(pending := Unpended(s.pending)) else s
    case BindAction(action, fragment, allowed) =>
      if allowed && s.pending.context != 0 then s.(pending := s.pending.(action := action, fragment := fragment)) else s
    case Clear(scope) => Cleared(s, scope)
  }

  function MovedAll(s: Authority, es: seq<Event>): Authority {
    if es == [] then s else Moved(MovedAll(s, es[..|es| - 1]), es[|es| - 1])
  }

  const IDLE: Authority := Authority(0, 0, map[], Pending(0, 0, 0, -1, 0), Semantic(0, 0, 0), 0, [], [])

  function After(es: seq<Event>): Authority {
    MovedAll(IDLE, es)
  }

  // ---- The edges of one action ---------------------------------------------------------------

  function EdgesOf(edges: seq<Edge>, action: nat): seq<Edge> {
    if edges == [] then []
    else
      var last := |edges| - 1;
      EdgesOf(edges[..last], action) + if edges[last].action == action then [edges[last]] else []
  }

  predicate IsStart(es: seq<Edge>, i: int) {
    0 <= i < |es| && es[i].command == Start
  }

  predicate IsExit(es: seq<Edge>, i: int) {
    0 <= i < |es| && es[i].command == Exit
  }

  predicate IsQueued(es: seq<Edge>, i: int) {
    0 <= i < |es| && es[i].queued
  }

  predicate EndsStart(es: seq<Edge>, i: int) {
    0 < i < |es| && es[i - 1].command == Start && es[i].recorded == es[i - 1].recorded
  }

  /** Every Exit comes right after its own Start and repeats what that recorded. */
  ghost predicate IsChain(es: seq<Edge>) {
    forall i :: IsExit(es, i) ==> EndsStart(es, i)
  }

  /** An action in the table has reported its Start last. */
  ghost predicate ActionOk(s: Authority, action: nat) {
    var es := EdgesOf(s.edges, action);
    && IsChain(es)
    && (action in s.actions ==> IsStart(es, |es| - 1) && es[|es| - 1].recorded == s.actions[action])
  }

  lemma EdgesOfMore(edges: seq<Edge>, e: Edge, action: nat)
    ensures EdgesOf(edges + [e], action) == EdgesOf(edges, action) + if e.action == action then [e] else []
  {
    assert (edges + [e])[..|edges|] == edges;
  }

  lemma ChainMore(es: seq<Edge>, e: Edge)
    requires IsChain(es)
    requires e.command == Exit ==> IsStart(es, |es| - 1) && e.recorded == es[|es| - 1].recorded
    ensures IsChain(es + [e])
  {
    forall i | IsExit(es + [e], i) ensures EndsStart(es + [e], i) {
      assert i < |es| ==> IsExit(es, i) && EndsStart(es, i);
    }
  }

  /** What one event adds to the edges of an action. */
  ghost predicate Adds(s: Authority, n: Authority, action: nat, more: seq<Edge>) {
    && EdgesOf(n.edges, action) == EdgesOf(s.edges, action) + more
    && (more == [] || |more| == 1)
    && (more == [] ==> (action in n.actions ==> action in s.actions && n.actions[action] == s.actions[action]))
    && (more != [] ==>
          if action in s.actions then
            more[0].command == Exit && more[0].recorded == s.actions[action] && action !in n.actions
          else more[0].command == Start && action in n.actions && n.actions[action] == more[0].recorded)
  }

  lemma MoveAdds(s: Authority, e: Event, action: nat) returns (more: seq<Edge>)
    ensures Adds(s, Moved(s, e), action, more)
    ensures more == [] && !e.Clear? ==> (action in Moved(s, e).actions <==> action in s.actions)
    ensures e.Clear? ==> more == [] && action !in Moved(s, e).actions
  {
    var n := Moved(s, e);
    more := [];
    if !e.Clear? && n.edges != s.edges {
      var edge := n.edges[|s.edges|];
      assert n.edges == s.edges + [edge];
      EdgesOfMore(s.edges, edge, action);
      if edge.action == action {
        more := [edge];
      }
    }
    assert more == [] ==> EdgesOf(s.edges, action) + more == EdgesOf(s.edges, action);
    hide EdgesOf;
  }

  lemma MoveKeepsAction(s: Authority, e: Event, action: nat)
    requires ActionOk(s, action)
    ensures ActionOk(Moved(s, e), action)
  {
    var more := MoveAdds(s, e, action);
    var es := EdgesOf(s.edges, action);
    hide Moved, EdgesOf;
    if more == [] {
      assert es + more == es;
    } else {
      ChainMore(es, more[0]);
      hide IsChain;
      assert es + more == es + [more[0]];
    }
  }

  /** For every action and every run each reported Exit follows its own Start and repeats it, and an action in the
      table is one whose Start was reported last. */
  lemma {:induction false} EdgesAreChained(es: seq<Event>, action: nat)
    ensures ActionOk(After(es), action)
  {
    if es != [] {
      EdgesAreChained(es[..|es| - 1], action);
      MoveKeepsAction(After(es[..|es| - 1]), es[|es| - 1], action);
    }
  }

  // ---- Starts without an Exit ----------------------------------------------------------------

  /** A clearing hit the action while the i-th of its edges, a Start, was the last. */
  ghost predicate ClearedAt(es: seq<Event>, action: nat, i: int) {
    exists k :: HitBy(es, k, action, i)
  }

  predicate HitBy(es: seq<Event>, k: int, action: nat, i: int) {
    && 0 <= k < |es| && es[k].Clear? && action in After(es[..k]).actions
    && |EdgesOf(After(es[..k]).edges, action)| == i + 1
  }

  /** A Start that no Exit follows, although the action is not running under it any more. */
  predicate Dangles(s: Authority, action: nat, i: int) {
    var es := EdgesOf(s.edges, action);
    IsStart(es, i) && !IsExit(es, i + 1) && !(i == |es| - 1 && action in s.actions)
  }

  lemma ClearedBefore(es: seq<Event>, e: Event, action: nat, i: int)
    ensures ClearedAt(es + [e], action, i) <==>
            ClearedAt(es, action, i) || (e.Clear? && action in After(es).actions
                                         && |EdgesOf(After(es).edges, action)| == i + 1)
  {
    var more := es + [e];
    assert more[..|es|] == es;
    forall k | 0 <= k < |es| ensures HitBy(more, k, action, i) == HitBy(es, k, action, i) {
      assert more[..k] == es[..k];
    }
    assert HitBy(more, |es|, action, i) == (e.Clear? && action in After(es).actions
                                            && |EdgesOf(After(es).edges, action)| == i + 1);
    hide After, EdgesOf;
    if k :| HitBy(es, k, action, i) {
      assert HitBy(more, k, action, i);
    }
  }

  lemma MoveDangles(s: Authority, e: Event, action: nat, i: int)
    requires ActionOk(s, action)
    ensures Dangles(Moved(s, e), action, i) <==>
            Dangles(s, action, i) || (e.Clear? && action in s.actions && |EdgesOf(s.edges, action)| == i + 1)
  {
    var more := MoveAdds(s, e, action);
    var es := EdgesOf(s.edges, action);
    hide Moved, EdgesOf, IsChain;
    if more == [] {
      assert es + more == es;
    } else {
      assert forall j :: 0 <= j < |es| ==> (es + more)[j] == es[j];
    }
  }

  /** A Start is left without its Exit exactly when a clearing hit the action while it was running. */
  lemma {:induction false} DanglesExactlyWhenCleared(es: seq<Event>, action: nat, i: int)
    ensures Dangles(After(es), action, i) <==> ClearedAt(es, action, i)
  {
    if es != [] {
      var before, e := es[..|es| - 1], es[|es| - 1];
      assert es == before + [e];
      DanglesExactlyWhenCleared(before, action, i);
      EdgesAreChained(before, action);
      MoveDangles(After(before), e, action, i);
      ClearedBefore(before, e, action, i);
      hide Dangles, ClearedAt, ActionOk, EdgesOf;
    }
  }

  // ---- What is queued ------------------------------------------------------------------------

  function QueuedOf(es: seq<Edge>): seq<Edge> {
    if es == [] then []
    else
      var last := |es| - 1;
      QueuedOf(es[..last]) + if es[last].queued then [es[last]] else []
  }

  /** Start, Exit, Start, Exit, ...: and each Exit carries what the Start before it recorded. */
  ghost predicate Alternates(es: seq<Edge>) {
    && (forall i :: IsStart(es, i) ==> i % 2 == 0)
    && (forall i :: IsExit(es, i) ==> i % 2 == 1 && EndsStart(es, i))
  }

  predicate AnsweredAt(es: seq<Edge>, i: int) {
    IsExit(es, i + 1) && IsQueued(es, i + 1)
  }

  /** An open Start is one whose Exit is missing or was refused. */
  predicate IsOpen(es: seq<Edge>, i: int) {
    IsStart(es, i) && IsQueued(es, i) && !AnsweredAt(es, i)
  }

  ghost predicate NothingQueuedAfter(es: seq<Edge>, i: int) {
    forall j :: j > i ==> !IsQueued(es, j)
  }

  /** The Start of every queued Exit was queued. */
  ghost predicate ExitsHaveStarts(es: seq<Edge>) {
    forall i :: IsExit(es, i) && IsQueued(es, i) ==> IsQueued(es, i - 1)
  }

  /** A queued Start whose Exit is missing is the last thing queued. */
  ghost predicate OpenStartsAreLast(es: seq<Edge>) {
    forall i :: IsOpen(es, i) ==> NothingQueuedAfter(es, i)
  }

  ghost predicate IsPaired(es: seq<Edge>) {
    ExitsHaveStarts(es) && OpenStartsAreLast(es)
  }

  ghost predicate DistinctStarts(es: seq<Edge>) {
    forall i, j :: IsStart(es, i) && IsStart(es, j) && i < j ==> es[i].recorded.sequence != es[j].recorded.sequence
  }

  /** The index of the last queued edge, or a negative number. */
  function LastQueued(es: seq<Edge>): (k: int)
    ensures -1 <= k < |es| && (k >= 0 ==> es[k].queued)
    ensures forall j :: k < j < |es| ==> !es[j].queued
  {
    if es == [] then -1 else if es[|es| - 1].queued then |es| - 1 else LastQueued(es[..|es| - 1])
  }

  lemma {:induction false} LastOfQueued(es: seq<Edge>)
    ensures QueuedOf(es) == [] <==> LastQueued(es) < 0
    ensures QueuedOf(es) != [] ==> QueuedOf(es)[|QueuedOf(es)| - 1] == es[LastQueued(es)]
  {
    if es != [] && !es[|es| - 1].queued {
      LastOfQueued(es[..|es| - 1]);
    }
  }

  lemma AlternatesMore(q: seq<Edge>, e: Edge)
    ensures Alternates(q + [e]) <==>
            && Alternates(q)
            && if e.command == Start then q == [] || q[|q| - 1].command == Exit
               else q != [] && q[|q| - 1].command == Start && q[|q| - 1].recorded == e.recorded
  {
    var more, last := q + [e], |q|;
    forall i | 0 <= i < last
      ensures IsStart(more, i) == IsStart(q, i) && IsExit(more, i) == IsExit(q, i)
              && EndsStart(more, i) == EndsStart(q, i)
    {
    }
    assert IsStart(more, last) <==> e.command == Start;
    assert IsExit(more, last) <==> e.command == Exit;
    if q != [] {
      assert IsStart(q, last - 1) || IsExit(q, last - 1);
    }
    if Alternates(more) {
      forall i | IsStart(q, i) ensures i % 2 == 0 {
        assert IsStart(more, i);
      }
      forall i | IsExit(q, i) ensures i % 2 == 1 && EndsStart(q, i) {
        assert IsExit(more, i);
      }
    }
  }

  /** The facts about an appended edge that the pairing depends on. */
  lemma Appended(es: seq<Edge>, e: Edge, i: int)
    ensures var more := es + [e];
            && IsStart(more, i) == (IsStart(es, i) || (i == |es| && e.command == Start))
            && IsExit(more, i) == (IsExit(es, i) || (i == |es| && e.command == Exit))
            && IsQueued(more, i) == (IsQueued(es, i) || (i == |es| && e.queued))
  {
  }

  lemma PairedMore(es: seq<Edge>, e: Edge)
    requires e.command == Exit ==> IsStart(es, |es| - 1)
    ensures IsPaired(es + [e]) <==>
            && IsPaired(es)
            && (e.queued ==>
                  if e.command == Exit then es[|es| - 1].queued
                  else LastQueued(es) < 0 || es[LastQueued(es)].command == Exit)
  {
    var more := es + [e];
    forall i ensures
      && IsStart(more, i) == (IsStart(es, i) || (i == |es| && e.command == Start))
      && IsExit(more, i) == (IsExit(es, i) || (i == |es| && e.command == Exit))
      && IsQueued(more, i) == (IsQueued(es, i) || (i == |es| && e.queued))
    {
      Appended(es, e, i);
    }
    ExitsMore(es, e);
    OpenMore(es, e);
  }

  lemma ExitsMore(es: seq<Edge>, e: Edge)
    requires e.command == Exit ==> IsStart(es, |es| - 1)
    ensures ExitsHaveStarts(es + [e]) <==>
              ExitsHaveStarts(es) && (e.queued && e.command == Exit ==> es[|es| - 1].queued)
  {
    var more := es + [e];
    assert IsExit(more, |es|) == (e.command == Exit) && IsQueued(more, |es|) == e.queued;
    assert e.command == Exit ==> IsQueued(more, |es| - 1) == es[|es| - 1].queued;
    if ExitsHaveStarts(more) {
      forall i | IsExit(es, i) && IsQueued(es, i) ensures IsQueued(es, i - 1) {
        assert IsExit(more, i) && IsQueued(more, i) && IsQueued(more, i - 1);
      }
    }
    if ExitsHaveStarts(es) {
      forall i | IsExit(more, i) && IsQueued(more, i) && i < |es| ensures IsQueued(more, i - 1) {
        assert IsExit(es, i) && IsQueued(es, i) && IsQueued(es, i - 1);
      }
    }
  }

  lemma OpenAppended(es: seq<Edge>, e: Edge, i: int)
    requires i < |es|
    ensures IsOpen(es + [e], i) == (IsOpen(es, i) && !(i == |es| - 1 && e.command == Exit && e.queued))
    ensures NothingQueuedAfter(es + [e], i) <==> NothingQueuedAfter(es, i) && !e.queued
  {
    var more := es + [e];
    assert forall j :: j < |es| ==>
        IsStart(more, j) == IsStart(es, j) && IsQueued(more, j) == IsQueued(es, j) && IsExit(more, j) == IsExit(es, j);
    assert IsQueued(more, |es|) == e.queued && IsExit(more, |es|) == (e.command == Exit);
    if NothingQueuedAfter(more, i) {
      forall j | j > i ensures !IsQueued(es, j) {
        assert !IsQueued(more, j);
      }
    }
  }

  lemma LastIsOpen(es: seq<Edge>, i: int)
    requires IsOpen(es, i) && NothingQueuedAfter(es, i)
    ensures LastQueued(es) == i && es[i].command == Start
  {
    assert !(LastQueued(es) > i) by {
      assert LastQueued(es) > i ==> !IsQueued(es, LastQueued(es));
    }
  }

  lemma OpenMore(es: seq<Edge>, e: Edge)
    requires e.command == Exit ==> IsStart(es, |es| - 1)
    ensures e.queued && e.command == Start ==>
              (OpenStartsAreLast(es + [e]) <==>
                 OpenStartsAreLast(es) && (LastQueued(es) < 0 || es[LastQueued(es)].command == Exit))
    ensures !e.queued ==> (OpenStartsAreLast(es + [e]) <==> OpenStartsAreLast(es))
    ensures e.queued && e.command == Exit && es[|es| - 1].queued
            ==> (OpenStartsAreLast(es + [e]) <==> OpenStartsAreLast(es))
  {
    var more, k := es + [e], LastQueued(es);
    forall i | i < |es| ensures IsOpen(more, i) == (IsOpen(es, i) && !(i == |es| - 1 && e.command == Exit && e.queued))
        && (NothingQueuedAfter(more, i) <==> NothingQueuedAfter(es, i) && !e.queued) {
      OpenAppended(es, e, i);
    }
    assert NothingQueuedAfter(more, |es|);
    forall i | IsOpen(es, i) && NothingQueuedAfter(es, i) ensures k == i && es[i].command == Start {
      LastIsOpen(es, i);
    }
    assert NothingQueuedAfter(es, |es| - 1);
    if k >= 0 && es[k].command == Start {
      assert IsOpen(es, k) && NothingQueuedAfter(es, k);
    }
    hide IsOpen, NothingQueuedAfter, LastQueued;
  }

  lemma QueuedMore(es: seq<Edge>, e: Edge)
    ensures QueuedOf(es + [e]) == QueuedOf(es) + if e.queued then [e] else []
  {
    assert (es + [e])[..|es|] == es;
  }

  lemma ChainLess(es: seq<Edge>, e: Edge)
    requires IsChain(es + [e])
    ensures IsChain(es) && (e.command == Exit ==> IsStart(es, |es| - 1) && e.recorded == es[|es| - 1].recorded)
    ensures DistinctStarts(es + [e]) ==> DistinctStarts(es)
  {
    var more := es + [e];
    forall i | IsExit(es, i) ensures EndsStart(es, i) {
      assert IsExit(more, i) && EndsStart(more, i);
    }
    if e.command == Exit {
      assert IsExit(more, |es|) && EndsStart(more, |es|);
    }
    if DistinctStarts(more) {
      forall i, j | IsStart(es, i) && IsStart(es, j) && i < j
        ensures es[i].recorded.sequence != es[j].recorded.sequence {
        assert IsStart(more, i) && IsStart(more, j);
      }
    }
  }

  /** For a chain of edges, the queued ones alternate if the Starts of the queued Exits were queued and a queued Start
      without a queued Exit is the last; and only then if the Starts are told apart by their sequences. */
  lemma {:induction false} QueuedAlternates(es: seq<Edge>)
    requires IsChain(es)
    ensures IsPaired(es) ==> Alternates(QueuedOf(es))
    ensures DistinctStarts(es) && Alternates(QueuedOf(es)) ==> IsPaired(es)
  {
    if es != [] {
      var before, e := es[..|es| - 1], es[|es| - 1];
      assert es == before + [e];
      ChainLess(before, e);
      QueuedAlternates(before);
      QueuedMore(before, e);
      PairedMore(before, e);
      LastOfQueued(before);
      var q, k := QueuedOf(before), LastQueued(before);
      if e.queued {
        AlternatesMore(q, e);
        if DistinctStarts(es) && e.command == Exit && !before[|before| - 1].queued && k >= 0
          && before[k].command == Start {
          assert IsStart(es, k) && IsStart(es, |before| - 1);
        }
      } else {
        assert q + [] == q;
      }
      hide QueuedOf, LastQueued, IsPaired, Alternates, IsChain;
    }
  }

  // ---- Over the runs -------------------------------------------------------------------------

  /** A queued Start whose Exit was refused is the last of its action that is queued. */
  ghost predicate RefusedExitsAreLast(es: seq<Edge>) {
    forall i :: IsExit(es, i) && !IsQueued(es, i) && IsQueued(es, i - 1) ==> NothingQueuedAfter(es, i)
  }

  /** So is a queued Start that a clearing took out of the table. */
  ghost predicate ClearedStartsAreLast(run: seq<Event>, action: nat) {
    var es := EdgesOf(After(run).edges, action);
    forall i :: ClearedAt(run, action, i) && IsQueued(es, i) ==> NothingQueuedAfter(es, i)
  }

  /** The three conditions on the history of an action. */
  ghost predicate EdgesReach(run: seq<Event>, action: nat) {
    var es := EdgesOf(After(run).edges, action);
    ExitsHaveStarts(es) && RefusedExitsAreLast(es) && ClearedStartsAreLast(run, action)
  }

  lemma OpenIsRefusedOrCleared(run: seq<Event>, action: nat)
    ensures var es := EdgesOf(After(run).edges, action);
            OpenStartsAreLast(es) <==> RefusedExitsAreLast(es) && ClearedStartsAreLast(run, action)
  {
    var s := After(run);
    var es := EdgesOf(s.edges, action);
    EdgesAreChained(run, action);
    forall i ensures Dangles(s, action, i) <==> ClearedAt(run, action, i) {
      DanglesExactlyWhenCleared(run, action, i);
    }
    hide After, ClearedAt, EdgesOf;
    forall i ensures IsOpen(es, i) ==>
      Dangles(s, action, i) || (IsExit(es, i + 1) && !IsQueued(es, i + 1)) || i == |es| - 1
    {
    }
    if OpenStartsAreLast(es) {
      forall i | IsExit(es, i) && !IsQueued(es, i) && IsQueued(es, i - 1) ensures NothingQueuedAfter(es, i) {
        assert EndsStart(es, i);
        assert IsOpen(es, i - 1);
      }
      forall i | Dangles(s, action, i) && IsQueued(es, i) ensures NothingQueuedAfter(es, i) {
        assert IsOpen(es, i);
      }
    }
    if RefusedExitsAreLast(es) && ClearedStartsAreLast(run, action) {
      forall i | IsOpen(es, i) ensures NothingQueuedAfter(es, i) {
        if IsExit(es, i + 1) {
          assert NothingQueuedAfter(es, i + 1);
          forall j | j > i ensures !IsQueued(es, j) {
          }
        }
      }
    }
  }

  /** The conditions are enough in every run, of any length and with any clearings. */
  lemma PairedEdgesAlternate(run: seq<Event>, action: nat)
    requires EdgesReach(run, action)
    ensures Alternates(QueuedOf(EdgesOf(After(run).edges, action)))
  {
    EdgesAreChained(run, action);
    OpenIsRefusedOrCleared(run, action);
    QueuedAlternates(EdgesOf(After(run).edges, action));
    hide *;
  }

  // ---- Starts are fresh ----------------------------------------------------------------------

  /** `to` is reached from `from` by between `least` and `most` advances. */
  ghost predicate Ahead(from: Serial, to: Serial, least: nat, most: nat) {
    exists n: nat :: least <= n <= most && to == Advanced(from, n)
  }

  lemma OneAhead(from: Serial, to: Serial, least: nat, most: nat)
    requires Ahead(from, to, least, most)
    ensures Ahead(from, Next(to), least + 1, most + 1)
  {
    var n: nat :| least <= n <= most && to == Advanced(from, n);
    assert Advanced(from, n + 1) == Next(to);
  }

  lemma WiderAhead(from: Serial, to: Serial, least: nat, most: nat)
    requires Ahead(from, to, least, most)
    ensures Ahead(from, to, if least > 0 then least - 1 else 0, most + 1)
  {
    var n: nat :| least <= n <= most && to == Advanced(from, n);
    assert (if least > 0 then least - 1 else 0) <= n <= most + 1 && to == Advanced(from, n);
  }

  /** Every Start so far lies behind the counter, and the earlier of two Starts behind the later. */
  ghost predicate StartsOk(s: Authority, steps: nat) {
    && (forall i :: IsStart(s.edges, i) ==>
          s.edges[i].recorded.sequence != 0 && Ahead(s.edges[i].recorded.sequence, s.sequence, 0, steps))
    && (forall i, j :: IsStart(s.edges, i) && IsStart(s.edges, j) && i < j ==>
          Ahead(s.edges[i].recorded.sequence, s.edges[j].recorded.sequence, 1, steps))
  }

  lemma MoveKeepsStarts(s: Authority, e: Event, steps: nat)
    requires StartsOk(s, steps) && !(e.Clear? && e.scope == Binding)
    ensures StartsOk(Moved(s, e), steps + 1)
  {
    var n := Moved(s, e);
    hide Ahead, Advanced;
    forall i | IsStart(s.edges, i) ensures IsStart(n.edges, i) && n.edges[i] == s.edges[i]
        && Ahead(s.edges[i].recorded.sequence, n.sequence, 0, steps + 1)
        && Ahead(s.edges[i].recorded.sequence, Next(s.sequence), 1, steps + 1)
    {
      OneAhead(s.edges[i].recorded.sequence, s.sequence, 0, steps);
      WiderAhead(s.edges[i].recorded.sequence, s.sequence, 0, steps);
      StillAhead(s.edges[i].recorded.sequence, Next(s.sequence), steps + 1);
    }
    forall i, j | IsStart(s.edges, i) && IsStart(s.edges, j) && i < j
      ensures Ahead(s.edges[i].recorded.sequence, s.edges[j].recorded.sequence, 1, steps + 1)
    {
      LongerAhead(s.edges[i].recorded.sequence, s.edges[j].recorded.sequence, steps);
    }
    HereAhead(n.sequence, steps + 1);
  }

  lemma StillAhead(from: Serial, to: Serial, most: nat)
    ensures Ahead(from, to, 1, most) ==> Ahead(from, to, 0, most)
  {
    if n: nat :| 1 <= n <= most && to == Advanced(from, n) {
      assert 0 <= n <= most && to == Advanced(from, n);
    }
  }

  lemma LongerAhead(from: Serial, to: Serial, most: nat)
    requires Ahead(from, to, 1, most)
    ensures Ahead(from, to, 1, most + 1)
  {
    var n: nat :| 1 <= n <= most && to == Advanced(from, n);
    assert 1 <= n <= most + 1 && to == Advanced(from, n);
  }

  lemma HereAhead(at: Serial, most: nat)
    ensures Ahead(at, at, 0, most)
  {
    assert at == Advanced(at, 0);
  }

  /** One generation of the counter: the enemy is not bound to a remote authority in between. */
  predicate KeepsCounter(run: seq<Event>) {
    forall i :: 0 <= i < |run| ==> !(run[i].Clear? && run[i].scope == Binding)
  }

  lemma {:induction false} RunKeepsStarts(run: seq<Event>)
    requires KeepsCounter(run)
    ensures StartsOk(After(run), |run|)
  {
    if run != [] {
      RunKeepsStarts(run[..|run| - 1]);
      MoveKeepsStarts(After(run[..|run| - 1]), run[|run| - 1], |run| - 1);
    }
  }

  /** In a run of at most half a cycle of events the later of two Starts is after the earlier one in serial order. */
  lemma StartsAreFresh(run: seq<Event>, i: int, j: int)
    requires KeepsCounter(run) && |run| <= HALF_RANGE && i < j
    requires IsStart(After(run).edges, i) && IsStart(After(run).edges, j)
    ensures var edges := After(run).edges; IsAfter(edges[j].recorded.sequence, edges[i].recorded.sequence)
  {
    RunKeepsStarts(run);
    var edges := After(run).edges;
    var from, to := edges[i].recorded.sequence, edges[j].recorded.sequence;
    hide After;
    var n: nat :| 1 <= n <= |run| && to == Advanced(from, n);
    assert IsStart(edges, i) && IsStart(edges, j);
    DistanceCountsAdvances(from, n);
  }

  /** In a run shorter than the cycle no two Starts share a sequence. */
  lemma StartsAreDistinct(run: seq<Event>)
    requires KeepsCounter(run) && |run| < LAST
    ensures DistinctStarts(After(run).edges)
  {
    RunKeepsStarts(run);
    var edges := After(run).edges;
    hide After;
    forall i, j | IsStart(edges, i) && IsStart(edges, j) && i < j
      ensures edges[i].recorded.sequence != edges[j].recorded.sequence
    {
      var from, to := edges[i].recorded.sequence, edges[j].recorded.sequence;
      var n: nat :| 1 <= n <= |run| && to == Advanced(from, n);
      DistanceCountsAdvances(from, n);
    }
  }

  ghost predicate NoneHas(es: seq<Edge>, sequence: Serial) {
    forall i :: IsStart(es, i) ==> es[i].recorded.sequence != sequence
  }

  lemma {:induction false} NoneOfActionHas(edges: seq<Edge>, action: nat, sequence: Serial)
    requires NoneHas(edges, sequence)
    ensures NoneHas(EdgesOf(edges, action), sequence)
  {
    if edges != [] {
      var before := edges[..|edges| - 1];
      forall i | IsStart(before, i) ensures before[i].recorded.sequence != sequence {
        assert IsStart(edges, i);
      }
      NoneOfActionHas(before, action, sequence);
      assert edges[|edges| - 1].command == Start ==> IsStart(edges, |edges| - 1);
      var all := EdgesOf(edges, action);
      forall i | IsStart(all, i) ensures all[i].recorded.sequence != sequence {
        assert i < |EdgesOf(before, action)| ==> IsStart(EdgesOf(before, action), i);
      }
    }
  }

  lemma {:induction false} DistinctStartsOfAction(edges: seq<Edge>, action: nat)
    requires DistinctStarts(edges)
    ensures DistinctStarts(EdgesOf(edges, action))
  {
    if edges != [] {
      var before, e := edges[..|edges| - 1], edges[|edges| - 1];
      forall i, j | IsStart(before, i) && IsStart(before, j) && i < j
        ensures before[i].recorded.sequence != before[j].recorded.sequence
      {
        assert IsStart(edges, i) && IsStart(edges, j);
      }
      DistinctStartsOfAction(before, action);
      if e.command == Start {
        forall i | IsStart(before, i) ensures before[i].recorded.sequence != e.recorded.sequence {
          assert IsStart(edges, i) && IsStart(edges, |before|);
        }
        NoneOfActionHas(before, action, e.recorded.sequence);
      }
      var all, some := EdgesOf(edges, action), EdgesOf(before, action);
      forall i, j | IsStart(all, i) && IsStart(all, j) && i < j
        ensures all[i].recorded.sequence != all[j].recorded.sequence
      {
        assert IsStart(some, i) && (j < |some| ==> IsStart(some, j));
      }
    }
  }

  /** What is queued of an action is Start, Exit, Start, Exit, ..., each Exit with the sequence and payload of the Start
      before it, if and only if every queued Exit's own Start was queued, a queued Start whose Exit was refused is the
      last of the action that is queued, and so is one that was running when its table was cleared. The counter may
      start over, as long as no two Starts of the action share a sequence. */
  lemma QueuedEdgesAlternateExactly(run: seq<Event>, action: nat)
    requires (KeepsCounter(run) && |run| < LAST) || DistinctStarts(EdgesOf(After(run).edges, action))
    ensures Alternates(QueuedOf(EdgesOf(After(run).edges, action))) <==> EdgesReach(run, action)
  {
    var edges := After(run).edges;
    EdgesAreChained(run, action);
    OpenIsRefusedOrCleared(run, action);
    if KeepsCounter(run) && |run| < LAST {
      StartsAreDistinct(run);
      DistinctStartsOfAction(edges, action);
    }
    QueuedAlternates(EdgesOf(edges, action));
    hide *;
  }

  function GapRun(payload: Payload): seq<Event> {
    [FragmentStarted(1, payload, true, true), Terminal(1, false), Clear(Binding),
     FragmentStarted(1, payload, true, false), Terminal(1, true)]
  }

  function GapEdges(payload: Payload): seq<Edge> {
    var r := Recorded(1, payload);
    [Edge(1, Start, r, true), Edge(1, Exit, r, false), Edge(1, Start, r, false), Edge(1, Exit, r, true)]
  }

  lemma AfterMore(run: seq<Event>, e: Event)
    ensures After(run + [e]) == Moved(After(run), e)
  {
    assert (run + [e])[..|run|] == run;
  }

  lemma {:induction false} EdgesOfAll(edges: seq<Edge>, action: nat)
    requires forall i :: 0 <= i < |edges| ==> edges[i].action == action
    ensures EdgesOf(edges, action) == edges
  {
    if edges != [] {
      EdgesOfAll(edges[..|edges| - 1], action);
    }
  }

  lemma GapRunReports(payload: Payload)
    ensures After(GapRun(payload)).edges == GapEdges(payload)
  {
    var run := GapRun(payload);
    assert After([]) == IDLE;
    AfterMore([], run[0]);
    AfterMore([run[0]], run[1]);
    AfterMore([run[0], run[1]], run[2]);
    AfterMore([run[0], run[1], run[2]], run[3]);
    AfterMore([run[0], run[1], run[2], run[3]], run[4]);
    hide After;
    assert [] + [run[0]] == [run[0]] && [run[0]] + [run[1]] == [run[0], run[1]];
    assert [run[0], run[1]] + [run[2]] == [run[0], run[1], run[2]];
    assert [run[0], run[1], run[2]] + [run[3]] == [run[0], run[1], run[2], run[3]];
    assert [run[0], run[1], run[2], run[3]] + [run[4]] == run;
  }

  lemma GapEdgesQueue(payload: Payload)
    ensures var es := GapEdges(payload);
            QueuedOf(es) == [es[0], es[3]] && Alternates([es[0], es[3]]) && !ExitsHaveStarts(es)
  {
    var es := GapEdges(payload);
    assert es[..3][..2] == es[..2] && es[..2][..1] == es[..1] && es[..1][..0] == [];
    assert QueuedOf(es[..1]) == [es[0]];
    assert QueuedOf(es[..2]) == [es[0]];
    assert QueuedOf(es[..3]) == [es[0]];
    assert IsExit(es, 3) && IsQueued(es, 3) && !IsQueued(es, 2);
    AlternatesMore([], es[0]);
    AlternatesMore([es[0]], es[3]);
    assert [] + [es[0]] == [es[0]] && [es[0]] + [es[3]] == [es[0], es[3]];
    hide Alternates;
    assert Alternates([]) by { EmptyAlternates(); }
  }

  lemma EmptyAlternates()
    ensures Alternates([])
  {
  }

  /** Why the sequences have to differ: after a binding starts it over, a Start whose Exit was refused and an Exit whose
      Start was refused pass for a pair. */
  lemma BindingHidesAGap(payload: Payload)
    ensures var run := GapRun(payload); Alternates(QueuedOf(EdgesOf(After(run).edges, 1))) && !EdgesReach(run, 1)
  {
    GapRunReports(payload);
    GapEdgesQueue(payload);
    EdgesOfAll(GapEdges(payload), 1);
    hide After, QueuedOf, EdgesOf, Alternates, ExitsHaveStarts, GapRun, GapEdges;
  }

  // ---- A context is bound once ---------------------------------------------------------------

  /** Armings are numbered upwards, and one that is bound is not pending any more. */
  ghost predicate BoundOk(s: Authority) {
    && s.pending.arm <= s.armings
    && (forall i :: 0 <= i < |s.bound| ==>
          s.bound[i] <= s.pending.arm && (s.pending.context != 0 ==> s.bound[i] < s.pending.arm))
    && (forall i, j :: 0 <= i < j < |s.bound| ==> s.bound[i] < s.bound[j])
  }

  lemma MoveKeepsBound(s: Authority, e: Event)
    requires BoundOk(s)
    ensures BoundOk(Moved(s, e))
  {
  }

  /** Over every run an arming of a context is bound by at most one Start. */
  lemma {:induction false} ContextBoundOnce(es: seq<Event>)
    ensures BoundOk(After(es))
    ensures forall i, j :: 0 <= i < j < |After(es).bound| ==> After(es).bound[i] != After(es).bound[j]
  {
    if es != [] {
      ContextBoundOnce(es[..|es| - 1]);
      MoveKeepsBound(After(es[..|es| - 1]), es[|es| - 1]);
    }
  }

  // ---- The object ----------------------------------------------------------------------------

  class EnemyAuthorityState {
    var mannequinSequence: Serial
    var authoritySemanticSequence: Serial
    var nativeActions: map<nat, Recorded>
    var pending: Pending
    var semantic: Semantic
    ghost var armings: nat
    ghost var edges: seq<Edge>
    ghost var bound: seq<nat>

    ghost function View(): Authority
      reads this
    {
      Authority(mannequinSequence, authoritySemanticSequence, nativeActions, pending, semantic, armings, edges, bound)
    }

    method AdvanceMannequin() returns (sequence: Serial)
      modifies this`mannequinSequence
      ensures sequence == mannequinSequence == Next(old(mannequinSequence))
    {
      mannequinSequence := if mannequinSequence == 0 || mannequinSequence == LAST then 1 else mannequinSequence + 1;
      sequence := mannequinSequence;
    }

    /** The send answers for itself; the edge is reported either way. */
    method QueueEdge(action: nat, recorded: Recorded, command: Command, answer: bool) returns (sent: bool)
      modifies this`edges
      ensures edges == old(edges) + [Edge(action, command, recorded, answer)] && sent == answer
    {
      edges := edges + [Edge(action, command, recorded, answer)];
      sent := answer;
    }

    method RecordFragmentStarted(action: nat, payload: Payload, authority: bool, answer: bool) returns (recorded: bool)
      modifies this
      ensures View() == old(Moved(View(), FragmentStarted(action, payload, authority, answer)))
      ensures recorded == (authority && !(action != 0 && action in old(nativeActions)))
    {
      if !authority {
        return false;
      }
      if action != 0 && action in nativeActions {
        return false;
      }
      var semanticStart := pending.context != 0 && pending.action != 0 && pending.action == action
        && pending.fragment == payload.fragment;
      var sequence := AdvanceMannequin();
      if action != 0 {
        nativeActions := nativeActions[action := Recorded(sequence, payload)];
        var sent := QueueEdge(action, Recorded(sequence, payload), Start, answer);
      }
      if semanticStart {
        authoritySemanticSequence := Next(authoritySemanticSequence);
        semantic := Semantic(pending.context, authoritySemanticSequence, pending.variant);
        bound := bound + [pending.arm];
      } else {
        semantic := Semantic(0, 0, 0);
      }
      pending := Pending(0, 0, 0, -1, pending.arm);
      return true;
    }

    method RecordCleared(scope: Scope)
      modifies this
      ensures View() == old(Moved(View(), Clear(scope)))
    {
      nativeActions := map[];
      if scope != Table {
        pending := Pending(0, 0, 0, -1, pending.arm);
        semantic := Semantic(0, 0, 0);
        authoritySemanticSequence := 0;
      }
      if scope == Binding {
        mannequinSequence := 0;
      }
    }

    method RecordTerminal(action: nat, answer: bool) returns (recordedExit: bool)
      modifies this
      ensures View() == old(Moved(View(), Terminal(action, answer)))
      ensures recordedExit == (action in old(nativeActions) && answer)
    {
      recordedExit := false;
      if action in nativeActions {
        recordedExit := QueueEdge(action, nativeActions[action], Exit, answer);
        nativeActions := nativeActions - {action};
      }
    }
  }
}
