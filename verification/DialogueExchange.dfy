/** Conversations between two peers: what is asked, granted, denied and given back is the same lease on both sides. */
module DialogueExchange {
  import opened SerialSequence
  import opened DialogueLease
  import opened DialoguePeer
  import opened DialogueTimers

  // ---- A trigger and its request -------------------------------------------------------------

  /** No lease held and none asked for. */
  predicate IsIdle(p: Peer) {
    p.owner == 0 && p.pending == 0 && p.dialogue == 0
  }

  /** The lease that a trigger on peer `id` asks for. */
  function AskedFor(id: nat, d: nat, sequence: Serial, speaker: nat, rule: nat, epoch: Serial): Binding {
    Binding(d, id, TriggerId(id, d, sequence, speaker, rule), rule, epoch)
  }

  /** A trigger on a peer that holds or awaits a lease says nothing and changes neither. */
  lemma BusyPeerStaysSilent(p: Peer, d: nat, speaker: nat, rule: nat, response: nat, sendOk: bool)
    requires p.id != 0 && (p.owner != 0 || p.pending != 0)
    ensures var out := ObserveTrigger(p, d, speaker, rule, response, sendOk);
            && out.sent == None && ActiveLease(out.peer) == ActiveLease(p) && out.peer.pending == p.pending
            && out.peer.completed == p.completed && out.peer.epoch == p.epoch && out.peer.native == p.native
            && out.peer.descriptor.trigger == p.descriptor.trigger
            && (out.peer.descriptor.response ==
                if d != 0 && d == p.dialogue && p.owner == p.id && speaker != 0 && rule != 0
                  && response != 0 then response
                else p.descriptor.response)
  {
  }

  /** An idle host takes the lease itself, under the next epoch, and tells everybody; the trigger is already played. */
  lemma IdleHostTakesLease(p: Peer, d: nat, speaker: nat, rule: nat, response: nat, sendOk: bool)
    requires IsIdle(p) && p.role == Host && p.id != 0 && d != 0 && speaker != 0 && rule != 0
    ensures var out := ObserveTrigger(p, d, speaker, rule, response, sendOk);
            var lease := AskedFor(p.id, d, Next(p.sequence), speaker, rule, Next(p.epoch));
            && out.sent.Some? && out.sent.value.command == Grant && out.sent.value.target == 0
            && PacketBinding(out.sent.value) == lease && ActiveLease(out.peer) == Some(lease)
            && out.sent.value.speaker == speaker && out.sent.value.response == response
            && out.peer.native == p.native && out.peer.applied == p.applied + {lease.trigger}
            && out.peer.seconds == out.peer.activitySeconds == 0.0 && !out.peer.completed
  {
  }

  /** An idle client asks, and waits exactly if the request was sent. */
  lemma IdleClientAsks(p: Peer, d: nat, speaker: nat, rule: nat, response: nat, sendOk: bool)
    requires IsIdle(p) && p.role == Client && p.id != 0 && d != 0 && speaker != 0 && rule != 0
    ensures var out := ObserveTrigger(p, d, speaker, rule, response, sendOk);
            var lease := AskedFor(p.id, d, Next(p.sequence), speaker, rule, 0);
            && (out.sent.Some? <==> sendOk) && (out.peer.pending == if sendOk then d else 0)
            && ActiveLease(out.peer) == None
            && (sendOk ==>
                  && out.sent.value.command == Request && out.sent.value.target == 0
                  && PacketBinding(out.sent.value) == lease
                  && out.sent.value.speaker == speaker && out.sent.value.response == response
                  && out.peer.trigger == lease.trigger && !out.peer.completed
                  && out.peer.seconds == out.peer.activitySeconds == 0.0)
  {
  }

  // ---- The host's answer ---------------------------------------------------------------------

  /** A request that is complete and reaches the handler of a host. */
  ghost predicate RequestLands(h: Peer, m: Packet, transport: nat) {
    && h.role == Host && h.id != 0 && m.command == Request && CarriesTrigger(m)
    && PassesGuard(h, m, transport) && m.event !in h.seen && m.source != h.id
  }

  /** The host answers every request: a free one grants it under the next epoch to the one who asked, a busy one
      repeats its grant to the owner of the very trigger and denies anybody else, and keeps its lease. */
  lemma RequestIsAnswered(h: Peer, m: Packet, transport: nat, nativeOk: bool)
    requires Coherent(h) && RequestLands(h, m, transport)
    ensures var out := HandlePacket(h, m, transport, nativeOk);
            && out.sent.Some? && out.sent.value.source == h.id && out.sent.value.dialogue != 0
            && var answer := out.sent.value;
            if h.owner == 0 then
              && answer.command == Grant && answer.target == 0
              && PacketBinding(answer) == Binding(m.dialogue, m.source, m.trigger, m.rule, Next(h.epoch))
              && answer.speaker == m.speaker && answer.response == m.response
              && ActiveLease(out.peer) == Some(PacketBinding(answer)) && out.peer.seconds == 0.0
            else if h.owner == m.source && h.trigger == m.trigger then
              && answer.command == Grant && answer.target == 0
              && ActiveLease(out.peer) == ActiveLease(h) == Some(PacketBinding(answer))
            else
              && answer.command == Deny && answer.target == m.source
              && answer.dialogue == m.dialogue && answer.trigger == m.trigger
              && ActiveLease(out.peer) == ActiveLease(h)
  {
    if h.owner == 0 {
      GrantedAsAsked(h, m, nativeOk);
    }
    hide HandleGrant, ReplayOrDefer;
  }

  lemma GrantedAsAsked(h: Peer, m: Packet, nativeOk: bool)
    requires h.role == Host && h.owner == 0 && CarriesTrigger(m) && m.source != h.id && m.source != 0
    ensures var out := HandleRequest(h, m, nativeOk);
            && out.sent.Some? && out.sent.value.command == Grant && out.sent.value.target == 0
            && out.sent.value.source == h.id
            && PacketBinding(out.sent.value) == Binding(m.dialogue, m.source, m.trigger, m.rule, Next(h.epoch))
            && out.sent.value.speaker == m.speaker && out.sent.value.response == m.response
            && out.sent.value.dialogue == m.dialogue
            && ActiveLease(out.peer) == Some(PacketBinding(out.sent.value)) && out.peer.seconds == 0.0
  {
  }

  /** From a trigger on an idle client to the lease on both sides: both hold exactly what was asked for. */
  lemma AskedIsHeld(c: Peer, h: Peer, d: nat, speaker: nat, rule: nat, response: nat, nativeOk: bool)
    requires IsIdle(c) && c.role == Client && c.id != 0 && d != 0 && speaker != 0 && rule != 0
    requires Coherent(h) && h.role == Host && h.owner == 0 && h.id != 0 && h.id != c.id
    ensures var asked := ObserveTrigger(c, d, speaker, rule, response, true);
            var lease := AskedFor(c.id, d, Next(c.sequence), speaker, rule, Next(h.epoch));
            && asked.sent.Some?
            && (asked.sent.value.event !in h.seen ==>
                  var granted := HandlePacket(h, asked.sent.value, c.id, nativeOk);
                  && ActiveLease(granted.peer) == Some(lease) && granted.sent.Some?
                  && (granted.sent.value.event !in c.seen ==>
                        ActiveLease(HandlePacket(asked.peer, granted.sent.value, h.id, nativeOk).peer) == Some(lease)))
  {
    IdleClientAsks(c, d, speaker, rule, response, true);
    var asked := ObserveTrigger(c, d, speaker, rule, response, true);
    assert asked.peer.seen == c.seen && asked.peer.owner == 0 && asked.peer.id == c.id && asked.peer.role == Client;
    var m := asked.sent.value;
    assert RequestLands(h, m, c.id) || m.event in h.seen;
    hide ObserveTrigger;
    if m.event !in h.seen {
      RequestIsAnswered(h, m, c.id, nativeOk);
      var granted := HandlePacket(h, m, c.id, nativeOk);
      assert granted.sent.value.event != NoEvent;
      var g := granted.sent.value;
      hide HandlePacket, Coherent;
      if g.event !in c.seen {
        OwnGrantIsReturnedOrKept(asked.peer, g, h.id, nativeOk);
      }
    }
  }

  /** A denial ends the wait of the peer it is for, if it is about the pending trigger, and touches nobody else. */
  lemma DenialEndsTheWaitExactly(p: Peer, m: Packet, transport: nat, nativeOk: bool)
    requires Coherent(p) && m.command == Deny && m.trigger != NoTrigger
    ensures var out := HandlePacket(p, m, transport, nativeOk);
            var ends := PassesGuard(p, m, transport) && m.event !in p.seen && p.pending == m.dialogue
              && p.trigger == m.trigger;
            && out.sent == None && ActiveLease(out.peer) == ActiveLease(p) && out.peer.epoch == p.epoch
            && out.peer.pending == (if ends then 0 else p.pending)
            && out.peer.completed == (p.completed && !ends)
            && (ends ==> IsIdle(out.peer) && out.peer.descriptor == EMPTY_PACKET)
  {
    hide HandleRequest, HandleGrant;
  }

  // ---- Giving a lease back -------------------------------------------------------------------

  predicate EndsOwn(p: Peer, e: Event) {
    e.OperatorRelease? || (e.DialogueEnded? && e.d == p.dialogue)
  }

  /** The peer as it would be with a new lease state: only its numbering and its history are left. */
  function Renewed(p: Peer): Peer {
    FreshPeer(p.id, p.role).(epoch := p.epoch, sequence := p.sequence, seen := p.seen, applied := p.applied,
                             native := p.native)
  }

  /** The end of the own dialogue, or the operator, gives exactly the held lease back, with the last line that was
      played; nothing of the lease is left behind. Without an own lease neither sends anything. */
  lemma OwnLeaseIsGivenBack(p: Peer, e: Event)
    requires Coherent(p) && (e.OperatorRelease? || e.DialogueEnded?)
    ensures var out := Perform(p, e);
            && (out.sent.Some? <==> p.owner == p.id && EndsOwn(p, e))
            && (out.sent.Some? ==>
                  && out.sent.value.command == Release && out.sent.value.target == 0
                  && Some(PacketBinding(out.sent.value)) == ActiveLease(p)
                  && out.sent.value.response == p.descriptor.response
                  && out.peer == Renewed(p).(sequence := Next(p.sequence)))
            && (out.sent == None ==> ActiveLease(out.peer) == ActiveLease(p))
  {
  }

  /** A line of the own dialogue is the one that the peer names from then on. */
  lemma LineIsRemembered(p: Peer, d: nat, line: nat)
    requires Coherent(p)
    ensures var q := ObserveActivity(p, d, line);
            && ActiveLease(q) == ActiveLease(p)
            && q.seconds == (if d != 0 && d == p.dialogue && p.owner == p.id then 0.0 else p.seconds)
            && (q.descriptor.response == if d != 0 && d == p.dialogue && p.owner == p.id && line != 0 then line
                else p.descriptor.response)
  {
  }

  /** The host that holds the released lease drops it and passes the release on, and a client that holds it drops it
      in turn: one lease ends everywhere. */
  lemma ReleaseEndsItEverywhere(h: Peer, m: Packet, transport: nat, c: Peer, nativeOk: bool)
    requires Coherent(h) && h.role == Host && ActiveLease(h) == Some(PacketBinding(m))
    requires m.command == Release && m.source == m.owner && PassesGuard(h, m, transport) && m.event !in h.seen
    requires c.role == Client && ActiveLease(c) == Some(PacketBinding(m)) && c.id != 0
    ensures var out := HandlePacket(h, m, transport, nativeOk);
            && ActiveLease(out.peer) == None && out.sent.Some? && out.sent.value.command == Release
            && PacketBinding(out.sent.value) == PacketBinding(m)
            && (out.sent.value.event !in c.seen ==>
                  var q := HandlePacket(c, out.sent.value, h.id, nativeOk).peer;
                  q == Renewed(c).(seen := c.seen + {out.sent.value.event}))
  {
    hide HandleRequest, HandleGrant;
  }

  // ---- Packets that are not for the peer -----------------------------------------------------

  /** A packet without a dialogue, an event or a sender, one for another peer, and one that another peer than its sender
      delivered: none of them does anything. */
  lemma StrayPacketIsIgnored(p: Peer, m: Packet, transport: nat, nativeOk: bool)
    requires || m.dialogue == 0 || m.event == NoEvent || m.source == 0 || m.target !in {0, p.id}
             || transport !in {0, m.source}
    ensures HandlePacket(p, m, transport, nativeOk) == Outcome(p, None)
  {
    hide HandleRequest, HandleGrant, HandleDeny, HandleRelease, HandleActivity;
  }

  // ---- Repeated and late packets -------------------------------------------------------------

  /** Handling a packet a second time changes nothing and sends nothing, whatever came of it the first time. */
  lemma RepeatedPacketIsIgnored(p: Peer, m: Packet, transport: nat, nativeOk: bool, again: bool)
    ensures var q := HandlePacket(p, m, transport, nativeOk).peer;
            HandlePacket(q, m, transport, again) == Outcome(q, None)
  {
    var q := HandlePacket(p, m, transport, nativeOk).peer;
    if q != p {
      HandledIsSeen(p, m, transport, nativeOk);
    } else {
      UnchangedIsIgnored(p, m, transport, nativeOk, again);
    }
    hide HandleRequest, HandleGrant, HandleRelease, HandleDeny, HandleActivity;
  }

  lemma HandledIsSeen(p: Peer, m: Packet, transport: nat, nativeOk: bool)
    requires HandlePacket(p, m, transport, nativeOk).peer != p
    ensures m.event in HandlePacket(p, m, transport, nativeOk).peer.seen
  {
    hide ReplayOrDefer;
  }

  lemma UnchangedIsIgnored(p: Peer, m: Packet, transport: nat, nativeOk: bool, again: bool)
    requires HandlePacket(p, m, transport, nativeOk).peer == p
    ensures HandlePacket(p, m, transport, again) == Outcome(p, None)
  {
    if PassesGuard(p, m, transport) && m.event !in p.seen {
      if m.command == Request { RequestIgnored(p, m, nativeOk, again); }
      if m.command == Grant { GrantIgnored(p, m, nativeOk, again); }
      hide HandleRequest, HandleGrant;
    }
  }

  lemma RequestIgnored(p: Peer, m: Packet, nativeOk: bool, again: bool)
    requires m.event !in p.seen && HandleRequest(p, m, nativeOk).peer == p
    ensures HandleRequest(p, m, again) == Outcome(p, None)
  {
    assert p.role == Host && CarriesTrigger(m) ==> m.event in HandleRequest(p, m, nativeOk).peer.seen;
    hide ReplayOrDefer;
  }

  lemma GrantIgnored(p: Peer, m: Packet, nativeOk: bool, again: bool)
    requires m.event !in p.seen && HandleGrant(p, m, nativeOk).peer == p
    ensures HandleGrant(p, m, again) == Outcome(p, None)
  {
    hide ReplayOrDefer;
  }

  /** What a client needs to take a grant over: it is complete and, if a lease is held, not of an older epoch, nor of
      the same epoch with another trigger. Any other grant leaves the client exactly as it is. */
  lemma GrantTakesEffectExactly(p: Peer, m: Packet, transport: nat, nativeOk: bool)
    requires p.role == Client && p.id != 0 && m.command == Grant
    requires PassesGuard(p, m, transport) && m.event !in p.seen
    ensures var out := HandlePacket(p, m, transport, nativeOk);
            var fits := p.owner == 0 || m.epoch > p.epoch || (m.epoch == p.epoch && m.trigger == p.trigger);
            if CarriesTrigger(m) && m.owner != 0 && m.epoch != 0 && fits then
              if m.owner == p.id && p.completed then ReturnsLease(p.id, m, out)
              else
                && ActiveLease(out.peer) == Some(PacketBinding(m)) && out.sent == None && out.peer.pending == 0
                && out.peer.seconds == out.peer.activitySeconds == 0.0 && out.peer.descriptor == m
            else out == Outcome(p, None)
  {
    hide HandleRequest, HandleRelease, HandleDeny, HandleActivity;
  }
}
