/** The lease protocol in time: when a host gives up on a remote owner, and how an owner keeps it from that. */
module DialogueTimers {
  import opened SerialSequence
  import opened DialogueLease
  import opened DialoguePeer

  /** The time that passes in a sequence of events. */
  function TimeOf(es: seq<Event>): (t: real)
    ensures t >= 0.0
    decreases es
  {
    if es == [] then 0.0 else Waited(es[0], 0.0) + TimeOf(es[1..])
  }

  function Waited(e: Event, seconds: real): real {
    if e.Elapsed? && e.dt > 0.0 then seconds + e.dt else seconds
  }

  /** The peer keeps the very lease it has through all the events. */
  ghost predicate Holds(p: Peer, es: seq<Event>)
    decreases es
  {
    es != [] ==>
      var q := Perform(p, es[0]).peer;
      ActiveLease(q) == ActiveLease(p) && Holds(q, es[1..])
  }

  // ---- The host and a remote owner -----------------------------------------------------------

  /** A packet the handler looks at. */
  ghost predicate Arrives(p: Peer, e: Event, command: Command) {
    e.Received? && e.m.command == command && PassesGuard(p, e.m, e.transport) && e.m.event !in p.seen
  }

  /** The sender is the owner and speaks of the lease that is held. */
  predicate SpeaksOfHeld(p: Peer, m: Packet) {
    m.source == p.owner && m.dialogue == p.dialogue && m.epoch == p.epoch && m.trigger == p.trigger
  }

  /** A sign of life: an activity of the owner, or the mirrored rule running here. */
  ghost predicate Refreshes(p: Peer, e: Event) {
    || (Arrives(p, e, Activity) && SpeaksOfHeld(p, e.m))
    || (e.Retriggered? && e.rule != 0 && e.rule == p.rule)
  }

  ghost predicate OwnerReleases(p: Peer, e: Event) {
    Arrives(p, e, Release) && SpeaksOfHeld(p, e.m)
  }

  /** The owner does not release, and is never silent for 20 seconds; it was silent for `silence` before. */
  ghost predicate StaysAlive(p: Peer, es: seq<Event>, silence: real)
    decreases es
  {
    es != [] ==>
      && !OwnerReleases(p, es[0])
      && !(es[0].Elapsed? && es[0].dt > 0.0 && silence + es[0].dt >= 20.0)
      && StaysAlive(Perform(p, es[0]).peer, es[1..], if Refreshes(p, es[0]) then 0.0 else Waited(es[0], silence))
  }

  ghost predicate HostsForeign(p: Peer) {
    p.role == Host && p.id != 0 && p.owner != 0 && p.owner != p.id && p.pending == 0 && p.dialogue != 0
  }

  lemma HostTick(p: Peer, dt: real, nativeOk: bool)
    requires HostsForeign(p)
    ensures var q := Tick(p, dt, nativeOk).peer;
            if dt > 0.0 && p.seconds + dt >= 20.0 then ActiveLease(q) == None
            else ActiveLease(q) == ActiveLease(p) && HostsForeign(q) && q.seconds == if dt > 0.0 then p.seconds + dt
              else p.seconds
  {
    var q := TickReplay(p, dt, nativeOk);
    assert PeerBinding(q) == PeerBinding(p) && q.seconds == p.seconds && HostsForeign(q);
    hide TickReplay;
  }

  lemma HostStep(p: Peer, e: Event)
    requires HostsForeign(p)
    ensures var q := Perform(p, e).peer;
            if OwnerReleases(p, e) || (e.Elapsed? && e.dt > 0.0 && p.seconds + e.dt >= 20.0) then ActiveLease(q) == None
            else
              && ActiveLease(q) == ActiveLease(p) && HostsForeign(q)
              && q.seconds == if Refreshes(p, e) then 0.0 else Waited(e, p.seconds)
  {
    match e
    case Elapsed(dt, nativeOk) =>
      HostTick(p, dt, nativeOk);
      hide Tick;
    case _ =>
      hide Tick, ReplayOrDefer, HandleGrant, CarriesTrigger;
  }

  /** A host keeps the lease of a remote owner exactly as long as the owner does not release it and is heard of,
      one way or the other, before 20 seconds are over. */
  lemma {:induction false} LeaseIsKeptAlive(p: Peer, es: seq<Event>)
    requires HostsForeign(p)
    ensures Holds(p, es) <==> StaysAlive(p, es, p.seconds)
    decreases es
  {
    if es != [] {
      HostStep(p, es[0]);
      var q := Perform(p, es[0]).peer;
      if HostsForeign(q) {
        LeaseIsKeptAlive(q, es[1..]);
      }
      hide Perform, Refreshes, OwnerReleases;
    }
  }

  // ---- A client that owns the lease ----------------------------------------------------------

  ghost predicate OwnsLease(p: Peer) {
    p.role == Client && p.owner == p.id != 0 && p.dialogue != 0
  }

  ghost predicate SendsActivity(p: Peer, e: Event) {
    Perform(p, e).sent.Some? && Perform(p, e).sent.value.command == Activity
  }

  lemma OwnerTick(p: Peer, dt: real, nativeOk: bool)
    requires OwnsLease(p)
    ensures var out := Tick(p, dt, nativeOk);
            var due := dt > 0.0 && p.activitySeconds + dt >= 3.0;
            && ActiveLease(out.peer) == ActiveLease(p) && OwnsLease(out.peer)
            && (out.sent.Some? <==> due)
            && (due ==>
                  out.sent.value.command == Activity && out.sent.value.target == 0 && SpeaksOfHeld(p, out.sent.value))
            && out.peer.activitySeconds ==
               if due then 0.0 else if dt > 0.0 then p.activitySeconds + dt else p.activitySeconds
  {
    var q := TickReplay(p, dt, nativeOk);
    assert PeerBinding(q) == PeerBinding(p) && q.activitySeconds == p.activitySeconds && OwnsLease(q);
    hide TickReplay;
  }

  /** Events that do not start the owner's own count over. */
  predicate KeepsCount(id: nat, es: seq<Event>) {
    forall i :: 0 <= i < |es| ==> !IsOwnGrant(id, es[i]) && !es[i].OperatorRequest?
  }

  ghost predicate SomeActivity(p: Peer, es: seq<Event>)
    decreases es
  {
    es != [] && (SendsActivity(p, es[0]) || SomeActivity(Perform(p, es[0]).peer, es[1..]))
  }

  lemma OwnerStep(p: Peer, e: Event)
    requires OwnsLease(p) && !IsOwnGrant(p.id, e) && !e.OperatorRequest?
    requires ActiveLease(Perform(p, e).peer) == ActiveLease(p)
    ensures var q := Perform(p, e).peer;
            && OwnsLease(q) && q.id == p.id
            && (SendsActivity(p, e) <==> e.Elapsed? && e.dt > 0.0 && p.activitySeconds + e.dt >= 3.0)
            && (SendsActivity(p, e) ==> SpeaksOfHeld(p, Perform(p, e).sent.value))
            && q.activitySeconds == if SendsActivity(p, e) then 0.0 else Waited(e, p.activitySeconds)
  {
    match e
    case Elapsed(dt, nativeOk) =>
      OwnerTick(p, dt, nativeOk);
      hide Tick;
    case _ =>
      hide Tick, HandleRequest, CarriesTrigger;
  }

  /** While it owns the lease a client is never silent for three seconds of ticks. */
  lemma {:induction false} OwnerIsHeard(p: Peer, es: seq<Event>)
    requires OwnsLease(p) && p.activitySeconds >= 0.0 && Holds(p, es) && KeepsCount(p.id, es)
    ensures p.activitySeconds + TimeOf(es) >= 3.0 && p.activitySeconds < 3.0 ==> SomeActivity(p, es)
    decreases es
  {
    if es != [] {
      OwnerStep(p, es[0]);
      var q := Perform(p, es[0]).peer;
      if !SendsActivity(p, es[0]) {
        OwnerIsHeard(q, es[1..]);
      }
      hide Perform, SendsActivity, OwnsLease;
    }
  }

  /** What an owner sends when it is due is a sign of life to a host that holds the same lease. */
  lemma ActivityRefreshesHost(c: Peer, dt: real, h: Peer, nativeOk: bool)
    requires OwnsLease(c) && HostsForeign(h) && ActiveLease(c) == ActiveLease(h)
    requires dt > 0.0 && c.activitySeconds + dt >= 3.0
    ensures var sent := Tick(c, dt, nativeOk).sent;
            && sent.Some?
            && (sent.value.event !in h.seen ==> Refreshes(h, Received(sent.value, c.id, nativeOk)))
  {
    OwnerTick(c, dt, nativeOk);
    assert Stamped(c, Tick(c, dt, nativeOk));
    hide Tick;
  }
}
