/** What one client lives through in a run of the whole system, and what becomes of a dialogue that is over
    before its grant arrives. */
module DialogueHistories {
  import opened SerialSequence
  import opened DialogueLease
  import opened DialoguePeer
  import opened DialogueSystem
  import opened DialogueRuns
  import opened DialogueTheorems

  // ---- The events of one client --------------------------------------------------------------

  /** What a step of the system is for client `c`: one event or none. */
  function LocalEvents(s: System, c: nat, step: Step): seq<Event>
    requires c in s.links
  {
    var link := s.links[c];
    match step
    case ClientActs(d, e, _) =>
      if d != c || e.Received? || (e.OperatorRequest? && link.client.owner != 0) then [] else [e]
    case ClientReceives(d, nativeOk, _) =>
      if d != c || link.down == [] then [] else [Received(link.down[0], s.host.id, nativeOk)]
    case _ => []
  }

  lemma StepKeepsLinks(s: System, step: Step)
    ensures Apply(s, step).links.Keys == s.links.Keys
  {
    hide Perform, HandlePacket;
  }

  lemma {:induction false} RunKeepsLinks(s: System, steps: seq<Step>)
    ensures Run(s, steps).links.Keys == s.links.Keys
  {
    if steps != [] {
      RunKeepsLinks(s, steps[..|steps| - 1]);
      StepKeepsLinks(Run(s, steps[..|steps| - 1]), steps[|steps| - 1]);
    }
    hide Apply;
  }

  /** The packets and events client `c` sees in a run. */
  ghost function History(s: System, c: nat, steps: seq<Step>): seq<Event>
    requires c in s.links
  {
    if steps == [] then []
    else
      var before := steps[..|steps| - 1];
      RunKeepsLinks(s, before);
      History(s, c, before) + LocalEvents(Run(s, before), c, steps[|steps| - 1])
  }

  lemma {:induction false} PerformAllAppend(p: Peer, es: seq<Event>, fs: seq<Event>)
    ensures PerformAll(p, es + fs) == PerformAll(PerformAll(p, es), fs)
    decreases es
  {
    hide Perform;
    if es == [] {
      assert es + fs == fs;
    } else {
      assert (es + fs)[1..] == es[1..] + fs;
      PerformAllAppend(Perform(p, es[0]).peer, es[1..], fs);
    }
  }

  lemma StepIsLocal(s: System, c: nat, step: Step)
    requires c in s.links
    ensures c in Apply(s, step).links
    ensures Apply(s, step).links[c].client == PerformAll(s.links[c].client, LocalEvents(s, c, step))
  {
    hide HandlePacket;
    assert forall e: Event :: [e][1..] == [];
  }

  /** A client's state is its own history performed in order: nothing else in the system touches it. */
  lemma {:induction false} ClientIsItsHistory(s: System, c: nat, steps: seq<Step>)
    requires c in s.links
    ensures c in Run(s, steps).links
    ensures Run(s, steps).links[c].client == PerformAll(s.links[c].client, History(s, c, steps))
  {
    if steps != [] {
      var before := steps[..|steps| - 1];
      ClientIsItsHistory(s, c, before);
      StepIsLocal(Run(s, before), c, steps[|steps| - 1]);
      PerformAllAppend(s.links[c].client, History(s, c, before), LocalEvents(Run(s, before), c, steps[|steps| - 1]));
    }
    hide Apply, LocalEvents;
  }

  lemma {:induction false} RunAppend(s: System, steps: seq<Step>, more: seq<Step>)
    ensures Run(s, steps + more) == Run(Run(s, steps), more)
  {
    hide Apply;
    if more == [] {
      assert steps + more == steps;
    } else {
      var last := |more| - 1;
      assert (steps + more)[..|steps + more| - 1] == steps + more[..last];
      RunAppend(s, steps, more[..last]);
    }
  }

  // ---- Completed before grant ----------------------------------------------------------------

  /** In every reachable state a grant for the client at the head of its link is new, complete and not stale. */
  lemma OwnGrantLands(s: System, c: nat)
    requires HostInv(s) && c in s.links && LinkInv(s, c, s.links[c]) && s.links[c].down != []
    requires s.links[c].down[0].command == Grant && s.links[c].down[0].owner == c
    ensures GrantLands(s.links[c].client, s.links[c].down[0], s.host.id)
  {
    var link := s.links[c];
    assert link.down[0] == (link.taken + link.down)[|link.taken|];
    NextGrantIsFresh(s, c);
    TakenSeen(s, link, link.client);
    hide Fold, SeenInv, GrantIsStale;
  }

  /** The client queues the release of exactly the granted lease and holds none. */
  ghost predicate GivesBack(link: Link, next: Link, g: Packet) {
    && |next.up| == |link.up| + 1 && next.up[..|link.up|] == link.up
    && var r := next.up[|link.up|];
    && r.command == Release && PacketBinding(r) == PacketBinding(g) && r.source == link.client.id
    && ActiveLease(next.client) == None && next.client.pending == 0
  }

  /** The client says nothing and owns the lease of a dialogue that is over. */
  ghost predicate StaysOwner(link: Link, next: Link, g: Packet) {
    next.up == link.up && ActiveLease(next.client) == Some(PacketBinding(g))
  }

  lemma OwnGrantStep(s: System, c: nat, nativeOk: bool)
    requires HostInv(s) && c in s.links && LinkInv(s, c, s.links[c]) && s.links[c].down != []
    requires s.links[c].down[0].command == Grant && s.links[c].down[0].owner == c
    ensures var link := s.links[c];
            var next := Apply(s, ClientReceives(c, nativeOk, true)).links[c];
            if link.client.completed then GivesBack(link, next, link.down[0]) else StaysOwner(link, next, link.down[0])
  {
    var link := s.links[c];
    assert link.client.id == c != 0 && link.client.role == Client;
    OwnGrantLands(s, c);
    OwnGrantIsReturnedOrKept(link.client, link.down[0], s.host.id, nativeOk);
    hide HandlePacket, HostInv, LinkInv, GrantLands;
  }

  /** In any run a client's dialogue `d` ends while its request is pending.  Whatever the host, the other
      clients, the links and the game do before the next grant for this client is processed, processing it
      gives that very lease back if and only if nothing the client saw since the (last) end made it forget. */
  lemma CompletionIsReturned(hostId: nat, clients: set<nat>, before: seq<Step>, c: nat, d: nat, during: seq<Step>,
      nativeOk: bool)
    requires Setup(hostId, clients, before + [Ends(c, d)] + during) && c in clients
    requires c in Reached(hostId, clients, before).links
    requires Reached(hostId, clients, before).links[c].client.pending == d != 0
    requires var s := Apply(Reached(hostId, clients, before), Ends(c, d));
             && c in s.links && BeforeOwnGrant(c, History(s, c, during))
             && c in Run(s, during).links
             && var link := Run(s, during).links[c];
             link.down != [] && link.down[0].command == Grant && link.down[0].owner == c
    ensures var s := Apply(Reached(hostId, clients, before), Ends(c, d));
            var done, seen := s.links[c].client, History(s, c, during);
            var t := Run(s, during);
            var link, next := t.links[c], Apply(t, ClientReceives(c, nativeOk, true)).links[c];
            if !SomeForgetting(done, seen) || SomeLastingEnd(done, seen) then GivesBack(link, next, link.down[0])
            else StaysOwner(link, next, link.down[0])
  {
    var r := Reached(hostId, clients, before);
    var s := Apply(r, Ends(c, d));
    var t := Run(s, during);
    EndIsRemembered(hostId, clients, before, c, d);
    Then(hostId, clients, before, Ends(c, d));
    RunAppend(Start(hostId, clients), before + [Ends(c, d)], during);
    RunInv(hostId, clients, before + [Ends(c, d)] + during);
    hide Run, Apply, Perform, Forgets, Unowning, GivesBack, StaysOwner, LinkInv, HostInv, Ends;
    ClientIsItsHistory(s, c, during);
    CompletionSurvivesWait(s.links[c].client, History(s, c, during));
    OwnGrantStep(t, c, nativeOk);
  }

  lemma EndIsRemembered(hostId: nat, clients: set<nat>, before: seq<Step>, c: nat, d: nat)
    requires Setup(hostId, clients, before) && c in Reached(hostId, clients, before).links
    requires Reached(hostId, clients, before).links[c].client.pending == d != 0
    ensures var s := Apply(Reached(hostId, clients, before), Ends(c, d));
            c in s.links && Unowning(s.links[c].client) && s.links[c].client.completed && s.links[c].client.id == c
  {
    RunInv(hostId, clients, before);
    hide Run, BroadcastInv, SeenInv, Fold, Issued, HostInv;
  }
}
