/** The lease protocol's promises, for every run of the whole system. */
module DialogueTheorems {
  import opened SerialSequence
  import opened DialogueLease
  import opened DialoguePeer
  import opened DialogueSystem
  import opened DialogueRuns

  function Reached(hostId: nat, clients: set<nat>, steps: seq<Step>): System {
    Run(Start(hostId, clients), steps)
  }

  /** All peers of a state: the host and every client. */
  ghost predicate IsPeer(s: System, p: Peer) {
    p == s.host || exists c :: c in s.links && p == s.links[c].client
  }

  // ---- Replica agreement ---------------------------------------------------------------------

  /** In every reachable state each client's lease is what the broadcasts it has processed say, or it is
      empty because the client owned that lease and gave it up.  On a link that lost nothing the broadcasts
      still to come lead to the host's own lease, so a client that has caught up agrees with the host. */
  lemma ReplicaAgreement(hostId: nat, clients: set<nat>, steps: seq<Step>, c: nat)
    requires Setup(hostId, clients, steps) && c in clients
    ensures c in Reached(hostId, clients, steps).links
    ensures var s := Reached(hostId, clients, steps);
            var link := s.links[c];
            var mine, host := ActiveLease(link.client), ActiveLease(s.host);
            && (mine == Fold(link.taken) || (mine == None && Fold(link.taken).Some?
                                             && Fold(link.taken).value.owner == c))
            && (link.lossless ==> Fold(link.taken + link.down) == host)
            && (link.lossless && link.down == [] ==>
                  mine == host || (mine == None && host.Some? && host.value.owner == c))
  {
    RunInv(hostId, clients, steps);
    var link := Reached(hostId, clients, steps).links[c];
    assert link.down == [] ==> link.taken + link.down == link.taken;
  }

  // ---- Fencing -------------------------------------------------------------------------------

  /** An epoch stands for one lease, on every peer and at all times. */
  lemma EpochNamesOneLease(hostId: nat, clients: set<nat>, steps: seq<Step>, k: nat, p: Peer, q: Peer)
    requires Setup(hostId, clients, steps) && k <= |steps|
    requires IsPeer(Reached(hostId, clients, steps[..k]), p) && IsPeer(Reached(hostId, clients, steps), q)
    requires p.owner != 0 && q.owner != 0 && p.epoch == q.epoch
    ensures PeerBinding(p) == PeerBinding(q)
    ensures TriggeredBy(p.trigger, p.owner)
  {
    StartInv(hostId, clients);
    RunGrows(Start(hostId, clients), steps, k);
    RunInv(hostId, clients, steps[..k]);
    hide Run, Coherent, BroadcastInv, Fold, SeenInv, UpInv;
  }

  ghost predicate IdleBetween(hostId: nat, clients: set<nat>, steps: seq<Step>, i: nat, j: nat) {
    exists k :: i < k < j <= |steps| && ActiveLease(Reached(hostId, clients, steps[..k]).host) == None
  }

  lemma EpochsRise(hostId: nat, clients: set<nat>, steps: seq<Step>, k: nat)
    requires Setup(hostId, clients, steps) && k <= |steps|
    ensures Reached(hostId, clients, steps[..k]).host.epoch <= Reached(hostId, clients, steps).host.epoch
  {
    StartInv(hostId, clients);
    RunGrows(Start(hostId, clients), steps, k);
  }

  lemma LastStep(hostId: nat, clients: set<nat>, steps: seq<Step>, j: nat)
    requires Setup(hostId, clients, steps) && 0 < j <= |steps|
    ensures LeaseMoves(Reached(hostId, clients, steps[..j - 1]), Reached(hostId, clients, steps[..j]))
  {
    assert steps[..j][..j - 1] == steps[..j - 1];
    RunInv(hostId, clients, steps[..j - 1]);
    StepInv(Reached(hostId, clients, steps[..j - 1]), steps[j - 1]);
    hide Inv, Apply, Coherent, LeaseMoves;
  }

  lemma EpochsRiseTo(hostId: nat, clients: set<nat>, steps: seq<Step>, i: nat, j: nat)
    requires Setup(hostId, clients, steps) && i <= j <= |steps|
    ensures Reached(hostId, clients, steps[..i]).host.epoch <= Reached(hostId, clients, steps[..j]).host.epoch
  {
    assert steps[..j][..i] == steps[..i];
    EpochsRise(hostId, clients, steps[..j], i);
    hide Run;
  }

  /** The host holds one lease at a time: two different leases at two moments of a run have rising epochs,
      and the host was idle in between. */
  lemma {:induction false} LeasesAreSeparated(hostId: nat, clients: set<nat>, steps: seq<Step>, i: nat, j: nat)
    requires Setup(hostId, clients, steps) && i <= j <= |steps|
    requires var a, b := ActiveLease(Reached(hostId, clients, steps[..i]).host),
             ActiveLease(Reached(hostId, clients, steps[..j]).host);
             a.Some? && b.Some? && a != b
    ensures var a, b := ActiveLease(Reached(hostId, clients, steps[..i]).host),
            ActiveLease(Reached(hostId, clients, steps[..j]).host);
            a.value.epoch < b.value.epoch && IdleBetween(hostId, clients, steps, i, j)
    decreases j - i
  {
    hide Run, Setup, Reached;
    LastStep(hostId, clients, steps, j);
    var s := Reached(hostId, clients, steps[..j - 1]);
    if ActiveLease(s.host) == None {
      EpochsRiseTo(hostId, clients, steps, i, j - 1);
      assert ActiveLease(Reached(hostId, clients, steps[..j - 1]).host) == None;
    } else {
      LeasesAreSeparated(hostId, clients, steps, i, j - 1);
    }
  }

  /** Exactly the steps that end the host's lease: a release that names it and comes from its owner, the
      timeout of a remote owner, or the host's own completion. */
  ghost predicate EndsLease(s: System, step: Step) {
    var h := s.host;
    match step
    case HostActs(e, _) =>
      if h.owner == h.id then e.OperatorRelease? || (e.DialogueEnded? && e.d == h.dialogue)
      else e.Elapsed? && e.dt > 0.0 && h.seconds + e.dt >= TIMEOUT_SECONDS
    case HostReceives(from, _, _) =>
      && from in s.links && s.links[from].up != []
      && var m := s.links[from].up[0];
      && m.command == Release && PassesGuard(h, m, from) && m.event !in h.seen
      && m.source == h.owner && NamesLease(h, m)
    case _ => false
  }

  lemma LeaseEndsExactlyBy(s: System, step: Step)
    requires HostInv(s) && s.host.owner != 0
    ensures ActiveLease(Apply(s, step).host) == None <==> EndsLease(s, step)
  {
    match step
    case HostActs(e, _) =>
      if e.Elapsed? {
        assert SameLeaseTimer(s.host, TickReplay(s.host, e.dt, e.nativeOk));
      }
      hide TickReplay, HandlePacket, IssuedInv, CallsIssued;
    case HostReceives(from, nativeOk, _) =>
      hide ReplayOrDefer, HandleGrant, IssuedInv, CallsIssued;
    case _ =>
  }

  predicate SameLeaseTimer(p: Peer, q: Peer) {
    PeerBinding(p) == PeerBinding(q) && p.seconds == q.seconds && p.id == q.id && p.role == q.role
      && p.pending == q.pending
  }

  // ---- Replay --------------------------------------------------------------------------------

  ghost predicate Sound(p: Peer) {
    ReplaySound(p) && OwnTriggersApplied(p)
  }

  ghost predicate AllSound(s: System) {
    Sound(s.host) && forall c :: c in s.links ==> Sound(s.links[c].client)
  }

  lemma StepSound(s: System, step: Step)
    requires AllSound(s)
    ensures AllSound(Apply(s, step))
  {
    match step
    case HostActs(e, _) =>
      PerformKeepsSound(s.host, e);
    case HostReceives(from, nativeOk, _) =>
      if from in s.links && s.links[from].up != [] {
        ReceiveKeepsSound(s.host, s.links[from].up[0], from, nativeOk);
      }
    case ClientActs(c, e, _) =>
      if c in s.links { PerformKeepsSound(s.links[c].client, e); }
    case ClientReceives(c, nativeOk, _) =>
      if c in s.links && s.links[c].down != [] {
        ReceiveKeepsSound(s.links[c].client, s.links[c].down[0], s.host.id, nativeOk);
      }
  }

  lemma {:induction false} RunSound(hostId: nat, clients: set<nat>, steps: seq<Step>)
    requires hostId != 0 && 0 !in clients
    ensures AllSound(Reached(hostId, clients, steps))
  {
    if steps != [] {
      RunSound(hostId, clients, steps[..|steps| - 1]);
      StepSound(Reached(hostId, clients, steps[..|steps| - 1]), steps[|steps| - 1]);
      hide Apply, AllSound;
    }
  }

  /** Every native replay anywhere was granted by the host, ran under that very lease, belongs to another
      peer, and is the only one of its trigger on that peer; no peer replays what it triggered itself. */
  lemma ReplaysAreGrantedOnceAndForeign(hostId: nat, clients: set<nat>, steps: seq<Step>, p: Peer)
    requires Setup(hostId, clients, steps) && IsPeer(Reached(hostId, clients, steps), p)
    ensures forall i :: 0 <= i < |p.native| ==>
              var call := p.native[i];
              && Issued(Reached(hostId, clients, steps).issued, call.lease)
              && call.trigger == call.lease.trigger && call.dialogue == call.lease.dialogue
              && TriggeredBy(call.trigger, call.lease.owner) && !TriggeredBy(call.trigger, p.id)
    ensures forall i, j :: 0 <= i < j < |p.native| ==> p.native[i].trigger != p.native[j].trigger
  {
    RunInv(hostId, clients, steps);
    RunSound(hostId, clients, steps);
    var s := Reached(hostId, clients, steps);
    assert CallsIssued(s.issued, p) && ReplaySound(p) by { hide Run, Coherent, BroadcastInv, Fold, SeenInv, UpInv; }
    forall i | 0 <= i < |p.native|
      ensures TriggeredBy(p.native[i].trigger, p.native[i].lease.owner) && InvokedUnderLease(p.id, p.native[i])
    {
    }
    hide Run, LinkInv, Coherent;
  }

  // ---- A run that ends with an orphaned lease ------------------------------------------------

  const REQUEST_20 := Packet(2, EventId(3, 20, 2, Request), TriggerId(3, 20, 1, 1, 1), 3, 0, 20, 3, 1, 1, 0, 0, Request)
  const REQUEST_10 := Packet(2, EventId(2, 10, 2, Request), TriggerId(2, 10, 1, 1, 1), 2, 0, 10, 2, 1, 1, 0, 0, Request)
  const GRANT_20 := Packet(1, EventId(1, 20, 1, Grant), TriggerId(3, 20, 1, 1, 1), 1, 0, 20, 3, 1, 1, 0, 1, Grant)
  const RETURN_20 := Packet(3, EventId(3, 20, 3, Release), TriggerId(3, 20, 1, 1, 1), 3, 0, 20, 3, 1, 1, 0, 1, Release)
  const RELEASE_20 := Packet(2, EventId(1, 20, 2, Release), TriggerId(3, 20, 1, 1, 1), 1, 0, 20, 3, 1, 1, 0, 1, Release)
  const GRANT_10 := Packet(3, EventId(1, 10, 3, Grant), TriggerId(2, 10, 1, 1, 1), 1, 0, 10, 2, 1, 1, 0, 2, Grant)

  function Triggers(c: nat, d: nat): Step { ClientActs(c, TriggerRan(d, 1, 1, 0, true), true) }

  function Ends(c: nat, d: nat): Step { ClientActs(c, DialogueEnded(d), true) }

  lemma Then(hostId: nat, clients: set<nat>, steps: seq<Step>, step: Step)
    ensures Reached(hostId, clients, steps + [step]) == Apply(Reached(hostId, clients, steps), step)
  {
    assert (steps + [step])[..|steps|] == steps;
  }

  ghost predicate Client2Waits(link: Link, down: seq<Packet>) {
    && link.up == [REQUEST_10] && link.down == down && link.lossless
    && link.client == FreshPeer(2, Client).(sequence := 2, pending := 10, trigger := REQUEST_10.trigger,
          rule := 1, descriptor := REQUEST_10, completed := true)
  }

  ghost predicate HostHolds20(h: Peer) {
    && h.id == 1 && h.role == Host && h.seen == {REQUEST_20.event} && h.sequence == 1 && h.epoch == 1
    && h.descriptor == GRANT_20 && ActiveLease(h) == Some(PacketBinding(GRANT_20))
  }

  /** Clients 2 and 3 have asked for dialogues 10 and 20; dialogue 10 is already over. */
  lemma BothAsk() returns (steps: seq<Step>)
    ensures var s := Reached(1, {2, 3}, steps);
            && s.host == FreshPeer(1, Host) && s.links.Keys == {2, 3} && Client2Waits(s.links[2], [])
            && s.links[3].up == [REQUEST_20] && s.links[3].down == []
            && s.links[3].client == FreshPeer(3, Client).(sequence := 2, pending := 20, trigger := REQUEST_20.trigger,
                                    rule := 1, descriptor := REQUEST_20)
  {
    steps := [];
    assert Reached(1, {2, 3}, steps) == Start(1, {2, 3});
    Then(1, {2, 3}, steps, Triggers(3, 20));
    steps := steps + [Triggers(3, 20)];
    Then(1, {2, 3}, steps, Triggers(2, 10));
    steps := steps + [Triggers(2, 10)];
    Then(1, {2, 3}, steps, Ends(2, 10));
    steps := steps + [Ends(2, 10)];
    hide Run;
  }

  lemma Dialogue20IsGranted() returns (steps: seq<Step>)
    ensures var s := Reached(1, {2, 3}, steps);
            && HostHolds20(s.host) && s.links.Keys == {2, 3} && Client2Waits(s.links[2], [GRANT_20])
            && s.links[3].up == [] && s.links[3].down == [GRANT_20]
            && s.links[3].client == FreshPeer(3, Client).(sequence := 2, pending := 20, trigger := REQUEST_20.trigger,
                                    rule := 1, descriptor := REQUEST_20)
  {
    steps := BothAsk();
    Then(1, {2, 3}, steps, HostReceives(3, true, {2, 3}));
    steps := steps + [HostReceives(3, true, {2, 3})];
    hide Run;
  }

  /** Dialogue 20 reaches its owner, who gives it back at once. */
  lemma Dialogue20ComesAndGoes() returns (steps: seq<Step>)
    ensures var s := Reached(1, {2, 3}, steps);
            && HostHolds20(s.host) && s.links.Keys == {2, 3} && Client2Waits(s.links[2], [GRANT_20])
            && s.links[3].up == [RETURN_20]
  {
    steps := Dialogue20IsGranted();
    Then(1, {2, 3}, steps, ClientReceives(3, true, true));
    steps := steps + [ClientReceives(3, true, true)];
    hide Run;
    assert Reached(1, {2, 3}, steps).links[3].client.descriptor == GRANT_20;
    Then(1, {2, 3}, steps, Ends(3, 20));
    steps := steps + [Ends(3, 20)];
  }

  ghost predicate HostIsFree(h: Peer) {
    && h.id == 1 && h.role == Host && h.seen == {REQUEST_20.event, RETURN_20.event} && h.sequence == 2 && h.epoch == 1
    && ActiveLease(h) == None && h.pending == 0
  }

  lemma Dialogue20IsOver() returns (steps: seq<Step>)
    ensures var s := Reached(1, {2, 3}, steps);
            HostIsFree(s.host) && s.links.Keys == {2, 3} && Client2Waits(s.links[2], [GRANT_20, RELEASE_20])
  {
    steps := Dialogue20ComesAndGoes();
    Then(1, {2, 3}, steps, HostReceives(3, true, {2, 3}));
    steps := steps + [HostReceives(3, true, {2, 3})];
    hide Run;
  }

  lemma Dialogue10IsGranted() returns (steps: seq<Step>)
    ensures var s := Reached(1, {2, 3}, steps);
            && s.host.id == 1 && ActiveLease(s.host) == Some(PacketBinding(GRANT_10))
            && s.links.Keys == {2, 3} && s.links[2].up == [] && s.links[2].lossless
            && s.links[2].down == [GRANT_20, RELEASE_20, GRANT_10]
            && s.links[2].client == FreshPeer(2, Client).(sequence := 2, pending := 10, trigger := REQUEST_10.trigger,
                                    rule := 1, descriptor := REQUEST_10, completed := true)
  {
    steps := Dialogue20IsOver();
    Then(1, {2, 3}, steps, HostReceives(2, true, {2, 3}));
    steps := steps + [HostReceives(2, true, {2, 3})];
    hide Run;
  }

  /** Client 2 sees dialogue 20 come and go, and forgets that its own dialogue is over. */
  lemma CompletionIsForgotten() returns (steps: seq<Step>)
    ensures var s := Reached(1, {2, 3}, steps);
            && s.host.id == 1 && ActiveLease(s.host) == Some(PacketBinding(GRANT_10)) && 2 in s.links
            && var link := s.links[2];
            && link.up == [] && link.lossless && link.down == [GRANT_10]
            && link.client.id == 2 && link.client.role == Client && ActiveLease(link.client) == None
            && link.client.pending == 0 && !link.client.completed
               && link.client.seen == {GRANT_20.event, RELEASE_20.event}
            && link.client.epoch <= 1
  {
    steps := Dialogue10IsGranted();
    Then(1, {2, 3}, steps, ClientReceives(2, true, true));
    steps := steps + [ClientReceives(2, true, true)];
    hide Run;
    assert Reached(1, {2, 3}, steps).links[2].client.owner == 3;
    Then(1, {2, 3}, steps, ClientReceives(2, true, true));
    steps := steps + [ClientReceives(2, true, true)];
  }

  /** A reachable, loss-free run after which client 2 owns the lease of a dialogue that is over: the release of
      another dialogue passed it while it waited and wiped the remembered completion.  Nothing is in flight
      between the two, and the host holds the lease for client 2. */
  lemma CompletionCanBeLost() returns (steps: seq<Step>)
    ensures var s := Reached(1, {2, 3}, steps);
            && 2 in s.links
            && var link := s.links[2];
            && link.lossless && link.down == [] && link.up == [] && !link.client.completed
            && ActiveLease(link.client) == ActiveLease(s.host) == Some(PacketBinding(GRANT_10))
            && link.client.id == GRANT_10.owner
  {
    steps := CompletionIsForgotten();
    Then(1, {2, 3}, steps, ClientReceives(2, true, true));
    steps := steps + [ClientReceives(2, true, true)];
    hide Run;
  }
}
