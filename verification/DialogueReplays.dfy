/** The native replay of a foreign dialogue: when it is made, when it is deferred, and that nothing is marked as
    applied without it. */
module DialogueReplays {
  import opened SerialSequence
  import opened DialogueLease
  import opened DialoguePeer
  import opened DialogueSystem
  import opened DialogueRuns
  import opened DialogueTheorems
  import opened DialogueTimers

  // ---- A grant that arrives ------------------------------------------------------------------

  /** A foreign grant that reaches the handler and is not stale. */
  ghost predicate ForeignGrantLands(p: Peer, g: Packet, transport: nat) {
    && g.command == Grant && g.owner != 0 && g.owner != p.id && g.epoch != 0 && CarriesTrigger(g)
    && PassesGuard(p, g, transport) && g.event !in p.seen && !GrantIsStale(p, g)
  }

  /** A replay of the held lease is still to be made. */
  ghost predicate Awaits(p: Peer) {
    && p.owner != 0 && p.owner != p.id
    && p.replayActive && CarriesTrigger(p.replay) && p.replay.dialogue == p.dialogue && p.replay.trigger == p.trigger
    && p.trigger !in p.applied && 0.0 < p.replaySeconds <= 0.25
  }

  /** What a peer that takes the grant over has done: one native call under that very lease if the trigger is new
      and the call succeeds, a deferred one if it is new and the call fails, nothing if it was applied before. */
  ghost predicate TakesOver(p: Peer, g: Packet, nativeOk: bool, q: Peer) {
    && ActiveLease(q) == Some(PacketBinding(g))
    && (nativeOk && g.trigger !in p.applied ==>
          && q.native == p.native + [Invocation(g.trigger, g.dialogue, PacketBinding(g))]
          && q.applied == p.applied + {g.trigger} && !q.replayActive)
    && (!nativeOk && g.trigger !in p.applied ==> q.native == p.native && q.applied == p.applied && Awaits(q))
    && (g.trigger in p.applied ==> q.native == p.native && q.applied == p.applied && !q.replayActive)
  }

  lemma ReplayOnce(p: Peer, g: Packet, nativeOk: bool)
    requires g.owner != 0 && g.owner != p.id && CarriesTrigger(g)
    ensures TakesOver(p, g, nativeOk, ReplayOrDefer(SetActiveLease(p, g), g, nativeOk).peer)
  {
  }

  /** A client replays a landing foreign grant natively if and only if its trigger is new and the call succeeds. */
  lemma ForeignGrantIsReplayed(p: Peer, g: Packet, transport: nat, nativeOk: bool)
    requires p.role == Client && ForeignGrantLands(p, g, transport)
    ensures TakesOver(p, g, nativeOk, HandlePacket(p, g, transport, nativeOk).peer)
  {
    ReplayOnce(p, g, nativeOk);
    hide ReplayOrDefer, SetActiveLease, CarriesTrigger, HandleRequest, PassesGuard, GrantIsStale;
  }

  /** A free host replays the dialogue it grants to a client in the same way. */
  lemma HostReplaysItsGrant(p: Peer, m: Packet, transport: nat, nativeOk: bool)
    requires p.role == Host && p.owner == 0 && m.command == Request && CarriesTrigger(m)
    requires PassesGuard(p, m, transport) && m.event !in p.seen && m.source != p.id
    ensures var out := HandlePacket(p, m, transport, nativeOk);
            out.sent.Some? && out.sent.value.trigger == m.trigger && TakesOver(p, out.sent.value, nativeOk, out.peer)
  {
    var q := Advance(p.(epoch := Next(p.epoch)));
    var grant := Stamp(q, m.(target := 0, owner := m.source, epoch := q.epoch), Grant);
    ReplayOnce(q, grant, nativeOk);
    hide ReplayOrDefer, SetActiveLease, CarriesTrigger, HandleGrant, PassesGuard;
  }

  /** In every reachable state the same holds of the grant a client is about to process. */
  lemma NextGrantIsReplayed(hostId: nat, clients: set<nat>, steps: seq<Step>, c: nat, nativeOk: bool, queued: bool)
    requires Setup(hostId, clients, steps) && c in Reached(hostId, clients, steps).links
    requires var down := Reached(hostId, clients, steps).links[c].down;
             down != [] && down[0].command == Grant && down[0].owner != c
    ensures var s := Reached(hostId, clients, steps);
            var t := Apply(s, ClientReceives(c, nativeOk, queued));
            c in t.links && TakesOver(s.links[c].client, s.links[c].down[0], nativeOk, t.links[c].client)
  {
    RunInv(hostId, clients, steps);
    var s := Reached(hostId, clients, steps);
    hide Run;
    var link := s.links[c];
    assert LinkInv(s, c, link) && link.client.role == Client && link.client.id == c && s.host.id != 0;
    assert link.down[0] == (link.taken + link.down)[|link.taken|];
    NextGrantIsFresh(s, c);
    TakenSeen(s, link, link.client);
    assert ForeignGrantLands(link.client, link.down[0], s.host.id) by { hide Fold, SeenInv, GrantIsStale; }
    hide *;
    ForeignGrantIsReplayed(link.client, link.down[0], s.host.id, nativeOk);
    Taken(s, c, nativeOk, queued);
  }

  lemma Taken(s: System, c: nat, nativeOk: bool, queued: bool)
    requires c in s.links && s.links[c].down != []
    ensures var t := Apply(s, ClientReceives(c, nativeOk, queued));
            c in t.links &&
            t.links[c].client == HandlePacket(s.links[c].client, s.links[c].down[0], s.host.id, nativeOk).peer
  {
    hide HandlePacket;
  }

  // ---- A replay that was deferred ------------------------------------------------------------

  /** The native call is tried: a retry is due, or the grant was repeated. */
  ghost predicate Attempts(p: Peer, e: Event) {
    || (e.Elapsed? && e.dt > 0.0 && p.replaySeconds <= e.dt)
    || (e.Received? && p.role == Client && ForeignGrantLands(p, e.m, e.transport))
  }

  predicate CallWorks(e: Event) {
    (e.Elapsed? || e.Received?) && e.nativeOk
  }

  ghost predicate SomeSuccess(p: Peer, es: seq<Event>)
    decreases es
  {
    es != [] && ((Attempts(p, es[0]) && CallWorks(es[0])) || SomeSuccess(Perform(p, es[0]).peer, es[1..]))
  }

  function HeldCall(p: Peer): Invocation {
    Invocation(p.trigger, p.dialogue, PeerBinding(p))
  }

  /** The held foreign lease has been played or needs no playing. */
  ghost predicate IsPlayed(p: Peer) {
    p.owner != 0 && p.owner != p.id && p.trigger in p.applied && !p.replayActive
  }

  lemma AwaitTick(p: Peer, dt: real, nativeOk: bool)
    requires Awaits(p)
    ensures var q := Tick(p, dt, nativeOk).peer;
            if dt > 0.0 && p.replaySeconds <= dt && nativeOk then
              q.native == p.native + [HeldCall(p)] && q.applied == p.applied + {p.trigger} && q.id == p.id
                && !q.replayActive
            else
              && q.native == p.native && (ActiveLease(q) == ActiveLease(p) ==> Awaits(q)) && q.id == p.id
              && (ActiveLease(q) == ActiveLease(p) && !(dt > 0.0 && p.replaySeconds <= dt) ==>
                    q.replaySeconds == if dt > 0.0 then p.replaySeconds - dt else p.replaySeconds)
  {
    var q := TickReplay(p, dt, nativeOk);
    assert PeerBinding(q) == PeerBinding(p) && q.id == p.id;
    assert dt > 0.0 && p.replaySeconds <= dt && nativeOk ==>
        q.native == p.native + [HeldCall(p)] && q.applied == p.applied + {p.trigger} && !q.replayActive;
    assert dt > 0.0 && !(p.replaySeconds <= dt && nativeOk) ==> q.native == p.native && Awaits(q);
    assert dt > 0.0 && p.replaySeconds > dt ==> q.replaySeconds == p.replaySeconds - dt;
    hide TickReplay, CarriesTrigger;
  }

  ghost predicate AwaitsStill(p: Peer, e: Event, q: Peer) {
    && q.native == p.native && Awaits(q)
    && (!Attempts(p, e) ==> q.replaySeconds == p.replaySeconds - Waited(e, 0.0))
  }

  lemma AwaitStep(p: Peer, e: Event)
    requires Awaits(p) && ActiveLease(Perform(p, e).peer) == ActiveLease(p)
    ensures var q := Perform(p, e).peer;
            if Attempts(p, e) && CallWorks(e) then q.native == p.native + [HeldCall(p)] && IsPlayed(q)
            else AwaitsStill(p, e, q)
  {
    match e
    case Elapsed(dt, nativeOk) =>
      AwaitTick(p, dt, nativeOk);
      hide Tick, CarriesTrigger;
    case Received(m, transport, nativeOk) =>
      AwaitPacket(p, m, transport, nativeOk);
      hide HandlePacket, CarriesTrigger;
    case _ =>
      hide Tick, HandlePacket, CarriesTrigger;
  }

  lemma AwaitPacket(p: Peer, m: Packet, transport: nat, nativeOk: bool)
    requires Awaits(p) && ActiveLease(HandlePacket(p, m, transport, nativeOk).peer) == ActiveLease(p)
    ensures var e := Received(m, transport, nativeOk);
            var q := HandlePacket(p, m, transport, nativeOk).peer;
            if Attempts(p, e) && nativeOk then q.native == p.native + [HeldCall(p)] && IsPlayed(q)
            else AwaitsStill(p, e, q)
  {
    if p.role == Client && ForeignGrantLands(p, m, transport) {
      ForeignGrantIsReplayed(p, m, transport, nativeOk);
      hide HandlePacket, CarriesTrigger, PassesGuard, GrantIsStale;
    } else {
      if p.id != 0 && m.owner == p.id {
        OwnGrantEndsForeignLease(p, m, nativeOk);
      }
      hide ReplayOrDefer, CarriesTrigger;
    }
  }

  lemma OwnGrantEndsForeignLease(p: Peer, m: Packet, nativeOk: bool)
    requires p.owner != 0 && p.owner != p.id && m.owner == p.id != 0
    ensures ActiveLease(ReplayOrDefer(SetActiveLease(p, m), m, nativeOk).peer) != ActiveLease(p)
  {
  }

  lemma PlayedStep(p: Peer, e: Event)
    requires IsPlayed(p) && ActiveLease(Perform(p, e).peer) == ActiveLease(p)
    ensures var q := Perform(p, e).peer; q.native == p.native && IsPlayed(q)
  {
    match e
    case Elapsed(dt, nativeOk) =>
      PlayedTick(p, dt, nativeOk);
      hide Tick;
    case Received(m, transport, nativeOk) =>
      PlayedPacket(p, m, transport, nativeOk);
      hide HandlePacket;
    case _ =>
      hide Tick, HandlePacket;
  }

  lemma PlayedTick(p: Peer, dt: real, nativeOk: bool)
    requires IsPlayed(p)
    ensures var q := Tick(p, dt, nativeOk).peer;
            ActiveLease(q) == ActiveLease(p) ==> q.native == p.native && q.applied == p.applied && IsPlayed(q)
  {
    var q := TickReplay(p, dt, nativeOk);
    assert q == p;
    hide TickReplay;
  }

  lemma PlayedPacket(p: Peer, m: Packet, transport: nat, nativeOk: bool)
    requires IsPlayed(p) && ActiveLease(HandlePacket(p, m, transport, nativeOk).peer) == ActiveLease(p)
    ensures var q := HandlePacket(p, m, transport, nativeOk).peer; q.native == p.native && IsPlayed(q)
  {
    if p.role == Client && ForeignGrantLands(p, m, transport) {
      ForeignGrantIsReplayed(p, m, transport, nativeOk);
      hide HandlePacket, CarriesTrigger, PassesGuard, GrantIsStale;
    } else {
      if p.id != 0 && m.owner == p.id {
        OwnGrantEndsForeignLease(p, m, nativeOk);
      }
      hide ReplayOrDefer, CarriesTrigger;
    }
  }

  lemma {:induction false} PlayedStays(p: Peer, es: seq<Event>)
    requires IsPlayed(p) && Holds(p, es)
    ensures PerformAll(p, es).native == p.native && IsPlayed(PerformAll(p, es))
    decreases es
  {
    if es != [] {
      PlayedStep(p, es[0]);
      PlayedStays(Perform(p, es[0]).peer, es[1..]);
    }
    hide Perform;
  }

  /** While the lease is held, whatever else happens, a deferred replay is made by the first attempt that succeeds,
      once, and under that lease; and as long as none does it stays deferred. */
  lemma {:induction false} DeferredReplayIsMade(p: Peer, es: seq<Event>)
    requires Awaits(p) && Holds(p, es)
    ensures PerformAll(p, es).native == p.native + if SomeSuccess(p, es) then [HeldCall(p)] else []
    ensures if SomeSuccess(p, es) then IsPlayed(PerformAll(p, es)) else Awaits(PerformAll(p, es))
    decreases es
  {
    if es != [] {
      AwaitStep(p, es[0]);
      var q := Perform(p, es[0]).peer;
      if Attempts(p, es[0]) && CallWorks(es[0]) {
        PlayedStays(q, es[1..]);
      } else {
        DeferredReplayIsMade(q, es[1..]);
        SameHeldCall(p, q);
      }
      hide Perform, Attempts, Awaits, IsPlayed;
    } else {
      assert p.native + [] == p.native;
    }
  }

  lemma SameHeldCall(p: Peer, q: Peer)
    requires ActiveLease(q) == ActiveLease(p) && p.owner != 0
    ensures HeldCall(q) == HeldCall(p)
  {
  }

  /** An attempt comes every quarter of a second: once the native call works, the replay is made within that time. */
  lemma {:induction false} ReplayIsPrompt(p: Peer, es: seq<Event>)
    requires Awaits(p) && Holds(p, es)
    requires forall i :: 0 <= i < |es| && (es[i].Elapsed? || es[i].Received?) ==> es[i].nativeOk
    ensures TimeOf(es) >= p.replaySeconds ==> SomeSuccess(p, es)
    decreases es
  {
    if es != [] {
      AwaitStep(p, es[0]);
      if !Attempts(p, es[0]) {
        ReplayIsPrompt(Perform(p, es[0]).peer, es[1..]);
      } else {
        assert CallWorks(es[0]);
      }
      hide Perform, ForeignGrantLands;
    }
  }

  // ---- Nothing is applied without the call ---------------------------------------------------

  ghost predicate PlayedHere(p: Peer, t: TriggerId) {
    exists i :: 0 <= i < |p.native| && p.native[i].trigger == t
  }

  /** What a peer marked as applied it triggered itself or played natively. */
  ghost predicate Accounted(p: Peer) {
    forall t :: t in p.applied ==> TriggeredBy(t, p.id) || PlayedHere(p, t)
  }

  /** The peer calls natively what it marks, or marks its own. */
  ghost predicate MarksHonestly(p: Peer, q: Peer) {
    && q.id == p.id
    && (|| (q.applied == p.applied && q.native == p.native)
        || (q.native == p.native && exists t :: q.applied == p.applied + {t} && TriggeredBy(t, p.id))
        || (exists call: Invocation :: q.applied == p.applied + {call.trigger} && q.native == p.native + [call]))
  }

  lemma HonestKeepsAccounted(p: Peer, q: Peer)
    requires Accounted(p) && MarksHonestly(p, q)
    ensures Accounted(q)
  {
    if q.native == p.native {
      forall t | t in q.applied ensures TriggeredBy(t, q.id) || PlayedHere(q, t) {
        if t in p.applied && PlayedHere(p, t) { assert PlayedHere(q, t); }
      }
    } else {
      var call: Invocation :| q.applied == p.applied + {call.trigger} && q.native == p.native + [call];
      forall t | t in q.applied ensures TriggeredBy(t, q.id) || PlayedHere(q, t) {
        if t == call.trigger {
          assert q.native[|p.native|].trigger == t;
        } else if PlayedHere(p, t) {
          var i :| 0 <= i < |p.native| && p.native[i].trigger == t;
          assert q.native[i].trigger == t;
        }
      }
    }
  }

  lemma CallMarksHonestly(p: Peer, g: Packet, nativeOk: bool)
    ensures MarksHonestly(p, ReplayGranted(p, g, nativeOk).peer)
  {
    var call := Invocation(g.trigger, g.dialogue, PeerBinding(p));
    var q := ReplayGranted(p, g, nativeOk).peer;
    assert q == p || (q.applied == p.applied + {call.trigger} && q.native == p.native + [call]);
  }

  lemma GrantMarksHonestly(p: Peer, g: Packet, nativeOk: bool)
    requires g.owner == p.id ==> TriggeredBy(g.trigger, p.id)
    ensures MarksHonestly(p, ReplayOrDefer(p, g, nativeOk).peer)
  {
    CallMarksHonestly(p, g, nativeOk);
    hide ReplayGranted;
  }

  lemma RequestMarksHonestly(p: Peer, m: Packet, nativeOk: bool)
    requires m.source != p.id
    ensures MarksHonestly(p, HandleRequest(p, m, nativeOk).peer)
  {
    var q := Advance(p.(epoch := Next(p.epoch)));
    var grant := Stamp(q, m.(target := 0, owner := m.source, epoch := q.epoch), Grant);
    GrantMarksHonestly(SetActiveLease(q, grant), grant, nativeOk);
    hide ReplayOrDefer, CarriesTrigger;
  }

  lemma TakenMarksHonestly(p: Peer, m: Packet, nativeOk: bool)
    requires m.owner == p.id ==> TriggeredBy(m.trigger, p.id)
    ensures MarksHonestly(p, HandleGrant(p, m, nativeOk).peer)
  {
    GrantMarksHonestly(SetActiveLease(p, m), m, nativeOk);
    hide ReplayOrDefer, CarriesTrigger, GrantIsStale;
  }

  lemma PacketMarksHonestly(p: Peer, m: Packet, transport: nat, nativeOk: bool)
    requires p.role == Host ==> m.source != p.id
    requires p.role == Client && m.command == Grant && m.owner == p.id ==> TriggeredBy(m.trigger, p.id)
    ensures MarksHonestly(p, HandlePacket(p, m, transport, nativeOk).peer)
  {
    if p.role == Host {
      RequestMarksHonestly(p, m, nativeOk);
      assert HandleGrant(p, m, nativeOk).peer == p;
    } else {
      if m.command == Grant { TakenMarksHonestly(p, m, nativeOk); }
      assert HandleRequest(p, m, nativeOk).peer == p;
    }
    hide HandleGrant, HandleRequest, PassesGuard;
  }

  lemma RetryMarksHonestly(p: Peer, dt: real, nativeOk: bool)
    ensures MarksHonestly(p, TickReplay(p, dt, nativeOk))
  {
    var q := p.(replaySeconds := p.replaySeconds - dt);
    CallMarksHonestly(q, q.replay, nativeOk);
    hide ReplayGranted;
  }

  lemma TickMarksHonestly(p: Peer, dt: real, nativeOk: bool)
    ensures MarksHonestly(p, Tick(p, dt, nativeOk).peer)
  {
    RetryMarksHonestly(p, dt, nativeOk);
    var q := TickReplay(p, dt, nativeOk);
    var r := TickLease(q, dt).peer;
    assert r.applied == q.applied && r.native == q.native && r.id == q.id by { hide TickReplay, MarksHonestly; }
    hide TickReplay, TickLease;
  }

  lemma EventMarksHonestly(p: Peer, e: Event)
    requires !e.Received?
    ensures MarksHonestly(p, Perform(p, e).peer)
  {
    if e.Elapsed? {
      TickMarksHonestly(p, e.dt, e.nativeOk);
      hide Tick;
    }
    hide HandlePacket, Tick;
  }

  lemma PacketKeepsAccounted(p: Peer, m: Packet, transport: nat, nativeOk: bool)
    requires Accounted(p)
    requires p.role == Host ==> m.source != p.id
    requires p.role == Client && m.command == Grant && m.owner == p.id ==> TriggeredBy(m.trigger, p.id)
    ensures Accounted(HandlePacket(p, m, transport, nativeOk).peer)
  {
    hide *;
    PacketMarksHonestly(p, m, transport, nativeOk);
    HonestKeepsAccounted(p, HandlePacket(p, m, transport, nativeOk).peer);
  }

  lemma EventKeepsAccounted(p: Peer, e: Event)
    requires Accounted(p) && !e.Received?
    ensures Accounted(Perform(p, e).peer)
  {
    hide *;
    EventMarksHonestly(p, e);
    HonestKeepsAccounted(p, Perform(p, e).peer);
  }

  ghost predicate AllAccounted(s: System) {
    Accounted(s.host) && forall c :: c in s.links ==> Accounted(s.links[c].client)
  }

  lemma HeadNamesItsOwner(s: System, c: nat)
    requires Inv(s) && c in s.links && s.links[c].down != []
    ensures var m := s.links[c].down[0]; m.command == Grant ==> TriggeredBy(m.trigger, m.owner)
  {
    var link := s.links[c];
    assert LinkInv(s, c, link) && IssuedInv(s.issued, s.host.epoch);
    assert link.down[0] == (link.taken + link.down)[|link.taken|];
    hide Coherent, SeenInv, Fold;
  }

  lemma UpIsFromClient(s: System, c: nat)
    requires Inv(s) && c in s.links && s.links[c].up != []
    ensures s.links[c].up[0].source == c != s.host.id
  {
    assert LinkInv(s, c, s.links[c]);
    hide Coherent, SeenInv, Fold, BroadcastInv;
  }

  lemma StepKeepsAccounted(s: System, step: Step)
    requires Inv(s) && AllAccounted(s)
    ensures AllAccounted(Apply(s, step))
  {
    hide Inv, Accounted, HandlePacket, Perform;
    match step
    case HostActs(e, _) =>
      if !e.Received? { EventKeepsAccounted(s.host, e); }
    case HostReceives(from, nativeOk, _) =>
      if from in s.links && s.links[from].up != [] {
        UpIsFromClient(s, from);
        HostIsHost(s);
        PacketKeepsAccounted(s.host, s.links[from].up[0], from, nativeOk);
      }
    case ClientActs(c, e, _) =>
      if c in s.links && !e.Received? { EventKeepsAccounted(s.links[c].client, e); }
    case ClientReceives(c, nativeOk, _) =>
      if c in s.links && s.links[c].down != [] {
        HeadNamesItsOwner(s, c);
        ClientIsClient(s, c);
        PacketKeepsAccounted(s.links[c].client, s.links[c].down[0], s.host.id, nativeOk);
      }
  }

  lemma HostIsHost(s: System)
    requires Inv(s)
    ensures s.host.role == Host
  {
  }

  lemma ClientIsClient(s: System, c: nat)
    requires Inv(s) && c in s.links
    ensures s.links[c].client.role == Client
  {
    assert LinkInv(s, c, s.links[c]);
  }

  lemma {:induction false} RunKeepsAccounted(hostId: nat, clients: set<nat>, steps: seq<Step>)
    requires Setup(hostId, clients, steps)
    ensures AllAccounted(Reached(hostId, clients, steps))
  {
    if steps != [] {
      var before := steps[..|steps| - 1];
      RunKeepsAccounted(hostId, clients, before);
      RunInv(hostId, clients, before);
      StepKeepsAccounted(Reached(hostId, clients, before), steps[|steps| - 1]);
    }
    hide Apply, Inv, Accounted;
  }

  /** In every reachable state what a peer has marked as applied is its own trigger or stands in its list of native
      calls, and never both. */
  lemma AppliedIsPlayedOrOwn(hostId: nat, clients: set<nat>, steps: seq<Step>, p: Peer)
    requires Setup(hostId, clients, steps) && IsPeer(Reached(hostId, clients, steps), p)
    ensures forall t :: t in p.applied ==> (TriggeredBy(t, p.id) <==> !PlayedHere(p, t))
  {
    RunKeepsAccounted(hostId, clients, steps);
    ReplaysAreGrantedOnceAndForeign(hostId, clients, steps, p);
    assert Accounted(p) by { hide Accounted, Run; }
    hide Run;
  }
}
