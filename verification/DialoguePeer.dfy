/** What a single peer keeps, whatever packets and local events reach it. */
module DialoguePeer {
  import opened SerialSequence
  import opened DialogueLease

  // ---- Active and pending exclude each other -------------------------------------------------

  ghost predicate ActiveCoherent(p: Peer) {
    && (p.dialogue != 0 <==> p.owner != 0)
    && (p.owner != 0 ==>
          p.pending == 0 && p.epoch != 0 && CarriesTrigger(p.descriptor)
            && PacketBinding(p.descriptor) == PeerBinding(p))
    && (p.completed ==> p.role == Client && p.owner != p.id && (p.owner != 0 || p.pending != 0))
  }

  ghost predicate PendingCoherent(p: Peer) {
    && (p.pending != 0 ==>
          && p.role == Client
          && CarriesTrigger(p.descriptor) && p.descriptor.dialogue == p.pending
          && p.descriptor.trigger == p.trigger && p.descriptor.rule == p.rule && p.trigger.source == p.id)
    && (p.owner == 0 && p.pending == 0 ==> p.descriptor == EMPTY_PACKET && p.trigger == NoTrigger)
  }

  ghost predicate Coherent(p: Peer) {
    p.id != 0 && ActiveCoherent(p) && PendingCoherent(p)
  }

  lemma ReplayOrDeferKeepsCoherence(p: Peer, grant: Packet, nativeOk: bool)
    requires p.id != 0 && grant.owner != 0 && grant.epoch != 0 && CarriesTrigger(grant)
    requires p.role == Host ==> grant.owner != p.id && !p.completed
    ensures Coherent(ReplayOrDefer(SetActiveLease(p, grant), grant, nativeOk).peer)
  {
  }

  lemma RequestKeepsCoherence(p: Peer, m: Packet, nativeOk: bool)
    requires Coherent(p) && m.source != 0 && (p.role == Host ==> m.source != p.id)
    ensures Coherent(HandleRequest(p, m, nativeOk).peer)
  {
    if p.role == Host && CarriesTrigger(m) && p.owner == 0 {
      var q := Advance(p.(epoch := Next(p.epoch)));
      ReplayOrDeferKeepsCoherence(q, Stamp(q, m.(target := 0, owner := m.source, epoch := q.epoch), Grant), nativeOk);
    }
  }

  lemma GrantKeepsCoherence(p: Peer, m: Packet, nativeOk: bool)
    requires Coherent(p)
    ensures Coherent(HandleGrant(p, m, nativeOk).peer)
  {
    if p.role == Client && m.epoch != 0 && m.owner != 0 && CarriesTrigger(m) && !GrantIsStale(p, m) {
      ReplayOrDeferKeepsCoherence(p, m, nativeOk);
    }
  }

  lemma ReleaseKeepsCoherence(p: Peer, m: Packet)
    requires Coherent(p)
    ensures Coherent(HandleRelease(p, m).peer)
  {
  }

  lemma ReceiveKeepsCoherence(p: Peer, m: Packet, transport: nat, nativeOk: bool)
    requires Coherent(p)
    requires p.role == Host ==> m.source != p.id
    ensures Coherent(HandlePacket(p, m, transport, nativeOk).peer)
  {
    if PassesGuard(p, m, transport) && m.event !in p.seen {
      RequestKeepsCoherence(p, m, nativeOk);
      GrantKeepsCoherence(p, m, nativeOk);
      ReleaseKeepsCoherence(p, m);
      hide HandleRequest, HandleGrant, HandleRelease, CarriesTrigger;
    }
  }

  lemma TickKeepsCoherence(p: Peer, dt: real, nativeOk: bool)
    requires Coherent(p)
    ensures Coherent(Tick(p, dt, nativeOk).peer)
  {
    var q := TickReplay(p, dt, nativeOk);
    assert Coherent(q);
    hide TickReplay;
  }

  /** Every event keeps the peer coherent; only the operator's manual request needs the peer to be
      without a lease. */
  lemma PerformKeepsCoherence(p: Peer, e: Event)
    requires Coherent(p)
    requires e.OperatorRequest? ==> p.owner == 0
    requires e.Received? && p.role == Host ==> e.m.source != p.id
    ensures Coherent(Perform(p, e).peer)
  {
    match e
    case Received(m, transport, nativeOk) =>
      ReceiveKeepsCoherence(p, m, transport, nativeOk);
      hide HandlePacket;
    case Elapsed(dt, nativeOk) =>
      TickKeepsCoherence(p, dt, nativeOk);
      hide Tick;
    case _ =>
      hide Tick, HandlePacket;
  }

  /** The operator's manual request is the one step that can make a lease active and pending at once:
      it keeps the peer coherent exactly when the peer is the host or holds no lease. */
  lemma OperatorRequestCoherence(p: Peer)
    requires Coherent(p)
    ensures Coherent(Perform(p, OperatorRequest(true)).peer) <==> p.role == Host || p.owner == 0
  {
  }

  // ---- At-most-once replay -------------------------------------------------------------------

  /** The native call happened under a lease with the same dialogue and trigger, owned by somebody else. */
  ghost predicate InvokedUnderLease(id: nat, call: Invocation) {
    && call.lease.dialogue == call.dialogue && call.lease.trigger == call.trigger
    && call.lease.owner != 0 && call.lease.owner != id
  }

  ghost predicate ReplaySound(p: Peer) {
    && (forall i :: 0 <= i < |p.native| ==> p.native[i].trigger in p.applied && InvokedUnderLease(p.id, p.native[i]))
    && (forall i, j :: 0 <= i < j < |p.native| ==> p.native[i].trigger != p.native[j].trigger)
  }

  ghost predicate OwnTriggersApplied(p: Peer) {
    && p.id != 0
    && (p.dialogue != 0 <==> p.owner != 0)
    && (p.owner == p.id ==> p.trigger in p.applied + {NoTrigger} && p.descriptor.trigger in p.applied + {NoTrigger})
  }

  lemma ReplayGrantedKeepsSound(p: Peer, grant: Packet, nativeOk: bool)
    requires ReplaySound(p) && OwnTriggersApplied(p)
    requires p.dialogue == grant.dialogue && p.trigger == grant.trigger
    ensures ReplaySound(ReplayGranted(p, grant, nativeOk).peer)
    ensures OwnTriggersApplied(ReplayGranted(p, grant, nativeOk).peer)
  {
    var q := ReplayGranted(p, grant, nativeOk).peer;
    if q != p {
      assert q.native[..|p.native|] == p.native;
      forall i | 0 <= i < |q.native|
        ensures q.native[i].trigger in q.applied && InvokedUnderLease(q.id, q.native[i])
      {
        if i < |p.native| { assert q.native[i] == p.native[i]; }
      }
    }
  }

  lemma GrantKeepsSound(p: Peer, grant: Packet, nativeOk: bool)
    requires ReplaySound(p) && p.id != 0
    requires grant.dialogue != 0 && grant.owner != 0
    ensures var q := ReplayOrDefer(SetActiveLease(p, grant), grant, nativeOk).peer;
            ReplaySound(q) && OwnTriggersApplied(q)
  {
    var q := SetActiveLease(p, grant);
    if grant.owner != p.id {
      ReplayGrantedKeepsSound(q, grant, nativeOk);
    }
  }

  lemma RequestKeepsSound(p: Peer, m: Packet, nativeOk: bool)
    requires ReplaySound(p) && OwnTriggersApplied(p) && m.source != 0
    ensures var q := HandleRequest(p, m, nativeOk).peer; ReplaySound(q) && OwnTriggersApplied(q)
  {
    if CarriesTrigger(m) && p.role == Host && p.owner == 0 {
      var q := Advance(p.(epoch := Next(p.epoch)));
      GrantKeepsSound(q, Stamp(q, m.(target := 0, owner := m.source, epoch := q.epoch), Grant), nativeOk);
    }
    hide ReplayOrDefer;
  }

  lemma GrantedKeepsSound(p: Peer, m: Packet, nativeOk: bool)
    requires ReplaySound(p) && OwnTriggersApplied(p)
    ensures var q := HandleGrant(p, m, nativeOk).peer; ReplaySound(q) && OwnTriggersApplied(q)
  {
    if CarriesTrigger(m) && m.owner != 0 {
      GrantKeepsSound(p, m, nativeOk);
    }
    hide ReplayOrDefer;
  }

  lemma OtherPacketsKeepSound(p: Peer, m: Packet)
    requires ReplaySound(p) && OwnTriggersApplied(p)
    ensures ReplaySound(HandleDeny(p, m)) && OwnTriggersApplied(HandleDeny(p, m))
    ensures ReplaySound(HandleActivity(p, m)) && OwnTriggersApplied(HandleActivity(p, m))
    ensures ReplaySound(HandleRelease(p, m).peer) && OwnTriggersApplied(HandleRelease(p, m).peer)
  {
  }

  lemma ReceiveKeepsSound(p: Peer, m: Packet, transport: nat, nativeOk: bool)
    requires ReplaySound(p) && OwnTriggersApplied(p)
    ensures var q := HandlePacket(p, m, transport, nativeOk).peer; ReplaySound(q) && OwnTriggersApplied(q)
  {
    GrantedKeepsSound(p, m, nativeOk);
    OtherPacketsKeepSound(p, m);
    if PassesGuard(p, m, transport) {
      RequestKeepsSound(p, m, nativeOk);
    }
    hide HandleRequest, HandleGrant, HandleDeny, HandleActivity, HandleRelease, ReplaySound, OwnTriggersApplied;
  }

  lemma TickReplayKeepsSound(p: Peer, dt: real, nativeOk: bool)
    requires ReplaySound(p) && OwnTriggersApplied(p)
    ensures var q := TickReplay(p, dt, nativeOk); ReplaySound(q) && OwnTriggersApplied(q)
  {
    if p.replayActive && p.dialogue == p.replay.dialogue && p.trigger == p.replay.trigger {
      var q := p.(replaySeconds := p.replaySeconds - dt);
      ReplayGrantedKeepsSound(q, q.replay, nativeOk);
    }
    hide ReplayGranted;
  }

  lemma TickKeepsSound(p: Peer, dt: real, nativeOk: bool)
    requires ReplaySound(p) && OwnTriggersApplied(p)
    ensures var q := Tick(p, dt, nativeOk).peer; ReplaySound(q) && OwnTriggersApplied(q)
  {
    TickReplayKeepsSound(p, dt, nativeOk);
    hide TickReplay;
  }

  lemma PerformKeepsSound(p: Peer, e: Event)
    requires ReplaySound(p) && OwnTriggersApplied(p)
    ensures var q := Perform(p, e).peer; ReplaySound(q) && OwnTriggersApplied(q)
  {
    match e
    case Received(m, transport, nativeOk) =>
      ReceiveKeepsSound(p, m, transport, nativeOk);
      hide HandlePacket;
    case Elapsed(dt, nativeOk) =>
      TickKeepsSound(p, dt, nativeOk);
      hide Tick;
    case _ =>
      hide Tick, HandlePacket;
  }

  function PerformAll(p: Peer, es: seq<Event>): Peer
    decreases es
  {
    if es == [] then p else PerformAll(Perform(p, es[0]).peer, es[1..])
  }

  lemma {:induction false} RunKeepsSound(p: Peer, es: seq<Event>)
    requires ReplaySound(p) && OwnTriggersApplied(p)
    ensures ReplaySound(PerformAll(p, es))
    decreases es
  {
    if es != [] {
      PerformKeepsSound(p, es[0]);
      RunKeepsSound(Perform(p, es[0]).peer, es[1..]);
    }
  }

  /** Whatever packets arrive and whatever the game does, no native trigger is invoked twice, and each
      invocation happened under the lease that names it and that another peer owns. */
  lemma AtMostOnceReplay(id: nat, role: Role, es: seq<Event>)
    requires id != 0
    ensures var calls := PerformAll(FreshPeer(id, role), es).native;
            && (forall i, j :: 0 <= i < j < |calls| ==> calls[i].trigger != calls[j].trigger)
            && (forall i :: 0 <= i < |calls| ==> InvokedUnderLease(PerformAll(FreshPeer(id, role), es).id, calls[i]))
  {
    RunKeepsSound(FreshPeer(id, role), es);
  }

  // ---- Completed before grant ----------------------------------------------------------------

  /** A release the client acts on: it holds no lease, or the one that is named. */
  ghost predicate ClearingRelease(p: Peer, e: Event) {
    && e.Received? && e.m.command == Release
    && PassesGuard(p, e.m, e.transport) && e.m.event !in p.seen
    && (p.dialogue == 0 || NamesLease(p, e.m))
  }

  /** A denial of the pending request. */
  ghost predicate ClearingDenial(p: Peer, e: Event) {
    && e.Received? && e.m.command == Deny
    && PassesGuard(p, e.m, e.transport) && e.m.event !in p.seen
    && p.pending == e.m.dialogue && (p.trigger == NoTrigger || e.m.trigger == p.trigger)
  }

  /** A request of the client's own that is handed to the transport. */
  ghost predicate SendsRequest(p: Peer, e: Event) {
    Perform(p, e).sent.Some? && Perform(p, e).sent.value.command == Request
  }

  /** What makes a client forget that the dialogue it asked for is over. */
  ghost predicate Forgets(p: Peer, e: Event) {
    ClearingRelease(p, e) || ClearingDenial(p, e) || SendsRequest(p, e)
  }

  /** The dialogue whose request is pending ends. */
  predicate EndsPending(p: Peer, e: Event) {
    e.DialogueEnded? && e.d != 0 && p.pending == e.d
  }

  /** A grant that names this peer as the owner. */
  predicate IsOwnGrant(id: nat, e: Event) {
    e.Received? && e.m.command == Grant && e.m.owner == id
  }

  /** Any packets and any events of the game, before the own grant is delivered. */
  predicate BeforeOwnGrant(id: nat, es: seq<Event>) {
    forall i :: 0 <= i < |es| ==> !IsOwnGrant(id, es[i])
  }

  ghost predicate SomeForgetting(p: Peer, es: seq<Event>)
    decreases es
  {
    es != [] && (Forgets(p, es[0]) || SomeForgetting(Perform(p, es[0]).peer, es[1..]))
  }

  /** A pending dialogue ends among the events, and nothing after that makes the client forget it. */
  ghost predicate SomeLastingEnd(p: Peer, es: seq<Event>)
    decreases es
  {
    && es != []
    && var q := Perform(p, es[0]).peer;
    (EndsPending(p, es[0]) && !SomeForgetting(q, es[1..])) || SomeLastingEnd(q, es[1..])
  }

  /** A client that owns nothing yet. */
  ghost predicate Unowning(p: Peer) {
    p.role == Client && p.id != 0 && p.owner != p.id
  }

  lemma TickKeepsWaiting(p: Peer, dt: real, nativeOk: bool)
    requires p.role == Client
    ensures var out := Tick(p, dt, nativeOk);
            && out.peer.completed == p.completed && out.peer.pending == p.pending && out.peer.owner == p.owner
            && (out.sent.Some? ==> out.sent.value.command != Request)
  {
    var q := TickReplay(p, dt, nativeOk);
    assert q.completed == p.completed && q.pending == p.pending && q.owner == p.owner;
    hide TickReplay;
  }

  /** Of all packets and events before the own grant, only the named ones touch the remembered completion. */
  lemma WaitStep(p: Peer, e: Event)
    requires Unowning(p) && !IsOwnGrant(p.id, e)
    ensures var q := Perform(p, e).peer;
            Unowning(q) && q.id == p.id && q.completed == (EndsPending(p, e) || (p.completed && !Forgets(p, e)))
  {
    match e
    case Elapsed(dt, nativeOk) =>
      TickKeepsWaiting(p, dt, nativeOk);
      hide Tick;
    case _ =>
      hide Tick, HandleRequest;
  }

  /** After any packets and events a client that still owns nothing remembers a completion exactly when the
      dialogue it asked for has ended and nothing since then made it forget. */
  lemma {:induction false} CompletionSurvivesWait(p: Peer, es: seq<Event>)
    requires Unowning(p) && BeforeOwnGrant(p.id, es)
    ensures var q := PerformAll(p, es);
            && Unowning(q) && q.id == p.id
            && (q.completed <==> (p.completed && !SomeForgetting(p, es)) || SomeLastingEnd(p, es))
    decreases es
  {
    if es != [] {
      WaitStep(p, es[0]);
      CompletionSurvivesWait(Perform(p, es[0]).peer, es[1..]);
      hide Perform, Unowning, Forgets, EndsPending;
    }
  }

  /** The grant for the own request reaches the handler and is not stale. */
  ghost predicate GrantLands(p: Peer, g: Packet, transport: nat) {
    && g.command == Grant && g.owner == p.id && g.epoch != 0 && CarriesTrigger(g)
    && PassesGuard(p, g, transport) && g.event !in p.seen && !GrantIsStale(p, g)
  }

  /** The client answers the grant with a release of exactly its epoch and trigger and keeps no lease. */
  ghost predicate ReturnsLease(id: nat, g: Packet, out: Outcome) {
    && out.sent.Some? && out.sent.value.command == Release && PacketBinding(out.sent.value) == PacketBinding(g)
    && out.sent.value.source == id && ActiveLease(out.peer) == None && out.peer.pending == 0
  }

  /** The client says nothing and owns the lease. */
  ghost predicate KeepsLease(g: Packet, out: Outcome) {
    out.sent == None && ActiveLease(out.peer) == Some(PacketBinding(g))
  }

  lemma OwnGrantIsReturnedOrKept(p: Peer, g: Packet, transport: nat, nativeOk: bool)
    requires p.role == Client && p.id != 0 && GrantLands(p, g, transport)
    ensures var out := HandlePacket(p, g, transport, nativeOk);
            if p.completed then ReturnsLease(p.id, g, out) else KeepsLease(g, out)
  {
    hide HandleRequest, HandleDeny, HandleRelease, HandleActivity;
  }

  /** A dialogue that ended while its request was pending.  Whatever packets and events come between, when the
      grant lands the client gives the lease back if and only if nothing made it forget since the (last) end;
      otherwise it is left owning a dialogue that is over. */
  lemma CompletedBeforeGrant(p: Peer, d: nat, es: seq<Event>, g: Packet, transport: nat, nativeOk: bool)
    requires Coherent(p) && p.role == Client && p.pending == d && d != 0
    requires BeforeOwnGrant(p.id, es)
    requires GrantLands(PerformAll(CompleteDialogue(p, d).peer, es), g, transport)
    ensures var done := CompleteDialogue(p, d).peer;
            var out := HandlePacket(PerformAll(done, es), g, transport, nativeOk);
            if !SomeForgetting(done, es) || SomeLastingEnd(done, es) then ReturnsLease(p.id, g, out)
              else KeepsLease(g, out)
  {
    var done := CompleteDialogue(p, d).peer;
    assert Unowning(done) && done.completed && done.id == p.id != 0;
    assert Unowning(PerformAll(done, es)) ==> PerformAll(done, es).role == Client;
    hide *;
    CompletionSurvivesWait(done, es);
    OwnGrantIsReturnedOrKept(PerformAll(done, es), g, transport, nativeOk);
  }
}
