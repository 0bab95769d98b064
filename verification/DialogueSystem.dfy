/** One host, any number of clients, and a FIFO link in each direction between the host and every client.
    Every queued packet may get lost before it enters a link; packets inside a link keep their order. */
module DialogueSystem {
  import opened SerialSequence
  import opened DialogueLease
  import opened DialoguePeer

  /** `taken` is the history of the host packets the client has processed; `lossless` says that every
      packet the host ever sent entered this link. */
  datatype Link = Link(client: Peer, up: seq<Packet>, down: seq<Packet>, taken: seq<Packet>, lossless: bool)

  /** `issued` is the history of the grants: what each epoch was given to. */
  datatype System = System(host: Peer, links: map<nat, Link>, issued: map<Serial, Binding>)

  datatype Step =
    | HostActs(e: Event, reached: set<nat>)
    | HostReceives(from: nat, nativeOk: bool, reached: set<nat>)
    | ClientActs(c: nat, e: Event, queued: bool)
    | ClientReceives(c: nat, nativeOk: bool, queued: bool)

  function Start(hostId: nat, clients: set<nat>): System {
    System(FreshPeer(hostId, Host), map c | c in clients :: Link(FreshPeer(c, Client), [], [], [], true), map[])
  }

  function Offer(link: Link, sent: Option<Packet>, reaches: bool): Link {
    if sent == None then link
    else if reaches then link.(down := link.down + [sent.value])
    else link.(lossless := false)
  }

  function HostMoved(s: System, out: Outcome, reached: set<nat>): System {
    System(out.peer,
           map c | c in s.links :: Offer(s.links[c], out.sent, c in reached),
           if out.peer.epoch != s.host.epoch then s.issued[out.peer.epoch := PeerBinding(out.peer)] else s.issued)
  }

  function ClientMoved(link: Link, out: Outcome, queued: bool): Link {
    link.(client := out.peer, up := if out.sent.Some? && queued then link.up + [out.sent.value] else link.up)
  }

  function Apply(s: System, step: Step): System {
    match step
    case HostActs(e, reached) =>
      if e.Received? then s else HostMoved(s, Perform(s.host, e), reached)
    case HostReceives(from, nativeOk, reached) =>
      if from !in s.links || s.links[from].up == [] then s
      else
        var link := s.links[from];
        var t := s.(links := s.links[from := link.(up := link.up[1..])]);
        HostMoved(t, HandlePacket(s.host, link.up[0], from, nativeOk), reached)
    case ClientActs(c, e, queued) =>
      if c !in s.links || e.Received? || (e.OperatorRequest? && s.links[c].client.owner != 0) then s
      else s.(links := s.links[c := ClientMoved(s.links[c], Perform(s.links[c].client, e), queued)])
    case ClientReceives(c, nativeOk, queued) =>
      if c !in s.links || s.links[c].down == [] then s
      else
        var link := s.links[c];
        var m := link.down[0];
        var out := HandlePacket(link.client, m, s.host.id, nativeOk);
        s.(links := s.links[c := ClientMoved(link.(down := link.down[1..], taken := link.taken + [m]), out, queued)])
  }

  /** The state after a whole run. */
  function Run(s: System, steps: seq<Step>): System {
    if steps == [] then s else Apply(Run(s, steps[..|steps| - 1]), steps[|steps| - 1])
  }

  // ---- The lease as a register ---------------------------------------------------------------

  predicate IsLeaseWord(m: Packet) {
    m.command == Grant || m.command == Release
  }

  /** What a sequence of host broadcasts says the lease is: a grant sets it, the release of the same
      binding clears it. */
  function Fold(ms: seq<Packet>): Option<Binding> {
    if ms == [] then None else FoldOne(Fold(ms[..|ms| - 1]), ms[|ms| - 1])
  }

  function FoldOne(lease: Option<Binding>, m: Packet): Option<Binding> {
    if m.command == Grant then Some(PacketBinding(m))
    else if m.command == Release && lease == Some(PacketBinding(m)) then None
    else lease
  }

  lemma FoldAppend(ms: seq<Packet>, m: Packet)
    ensures Fold(ms + [m]) == FoldOne(Fold(ms), m)
  {
    assert (ms + [m])[..|ms|] == ms;
  }

  /** The folded lease was granted by one of the packets. */
  lemma {:induction false} FoldComesFromGrant(ms: seq<Packet>)
    requires Fold(ms).Some?
    ensures exists i :: 0 <= i < |ms| && ms[i].command == Grant && PacketBinding(ms[i]) == Fold(ms).value
  {
    var last := |ms| - 1;
    if ms[last].command != Grant {
      FoldComesFromGrant(ms[..last]);
    }
  }

  // ---- What every step of the host does ------------------------------------------------------

  ghost predicate FreshGrant(p: Peer, out: Outcome) {
    && out.sent.Some? && out.sent.value.command == Grant && out.sent.value.target == 0 && CarriesTrigger(out.sent.value)
    && ActiveLease(p) == None && out.peer.epoch == Next(p.epoch)
    && ActiveLease(out.peer) == Some(PacketBinding(out.sent.value))
  }

  ghost predicate GrantAgain(p: Peer, out: Outcome) {
    && out.sent.Some? && out.sent.value.command == Grant && out.sent.value.target == 0 && CarriesTrigger(out.sent.value)
    && ActiveLease(p) == ActiveLease(out.peer) == Some(PacketBinding(out.sent.value))
    && out.peer.epoch == p.epoch
  }

  ghost predicate LeaseEnds(p: Peer, out: Outcome) {
    && out.sent.Some? && out.sent.value.command == Release && out.sent.value.target == 0
    && ActiveLease(p) == Some(PacketBinding(out.sent.value)) && ActiveLease(out.peer) == None
    && out.peer.epoch == p.epoch
  }

  ghost predicate LeaseKept(p: Peer, out: Outcome) {
    && (out.sent.Some? ==> out.sent.value.command == Deny)
    && ActiveLease(p) == ActiveLease(out.peer) && out.peer.epoch == p.epoch
  }

  ghost predicate Numbered(p: Peer, out: Outcome) {
    && (out.sent.Some? ==> out.sent.value.sequence == out.peer.sequence && out.peer.sequence == Next(p.sequence))
    && (out.sent == None ==> out.peer.sequence in {p.sequence, Next(p.sequence)})
  }

  /** At most one native call is logged, under the lease held before or after the step. */
  ghost predicate LogsCall(p: Peer, q: Peer) {
    || q.native == p.native
    || exists call :: q.native == p.native + [call] && Some(call.lease) in {ActiveLease(p), ActiveLease(q)}
  }

  ghost predicate HostShape(p: Peer, out: Outcome) {
    && Numbered(p, out) && LogsCall(p, out.peer)
    && (FreshGrant(p, out) || GrantAgain(p, out) || LeaseEnds(p, out) || LeaseKept(p, out))
  }

  lemma HostTickShape(p: Peer, dt: real, nativeOk: bool)
    requires Coherent(p) && p.role == Host
    ensures HostShape(p, Tick(p, dt, nativeOk))
  {
    var q := TickReplay(p, dt, nativeOk);
    assert q.descriptor == p.descriptor && PeerBinding(q) == PeerBinding(p) && q.sequence == p.sequence;
    if q.native != p.native {
      assert q.native[..|p.native|] == p.native;
    }
    hide TickReplay;
  }

  lemma HostRequestShape(p: Peer, m: Packet, nativeOk: bool)
    requires Coherent(p) && p.role == Host && m.source != 0 && m.source != p.id
    ensures HostShape(p, HandleRequest(p, m, nativeOk))
    ensures FreshGrant(p, HandleRequest(p, m, nativeOk)) ==>
              var g := HandleRequest(p, m, nativeOk).sent.value; g.trigger == m.trigger && g.owner == m.source
  {
    if CarriesTrigger(m) && p.owner == 0 {
      var q := Advance(p.(epoch := Next(p.epoch)));
      var grant := Stamp(q, m.(target := 0, owner := m.source, epoch := q.epoch), Grant);
      var a := SetActiveLease(q, grant);
      var r := ReplayGranted(a, grant, nativeOk).peer;
      assert r.native == a.native || r.native == a.native + [Invocation(grant.trigger, grant.dialogue, PeerBinding(a))];
    }
  }

  lemma HostReceiveShape(p: Peer, m: Packet, transport: nat, nativeOk: bool)
    requires Coherent(p) && p.role == Host && m.source != p.id
    ensures HostShape(p, HandlePacket(p, m, transport, nativeOk))
    ensures FreshGrant(p, HandlePacket(p, m, transport, nativeOk)) ==>
              var g := HandlePacket(p, m, transport, nativeOk).sent.value;
              m.command == Request && g.trigger == m.trigger && g.owner == m.source
  {
    if PassesGuard(p, m, transport) {
      HostRequestShape(p, m, nativeOk);
    }
    hide HandleRequest;
  }

  lemma HostActShape(p: Peer, e: Event)
    requires Coherent(p) && p.role == Host && !e.Received?
    ensures HostShape(p, Perform(p, e))
    ensures FreshGrant(p, Perform(p, e)) ==>
              var g := Perform(p, e).sent.value; TriggeredBy(g.trigger, p.id) && g.owner == p.id
  {
    if e.Elapsed? {
      HostTickShape(p, e.dt, e.nativeOk);
      assert !FreshGrant(p, Tick(p, e.dt, e.nativeOk));
    }
    hide Tick, HandlePacket;
  }

  // ---- What every step of a client does ------------------------------------------------------

  /** The lease stays, or the client gives up a lease it owns. */
  ghost predicate KeptOrOwnReleased(p: Peer, q: Peer) {
    || ActiveLease(q) == ActiveLease(p)
    || (ActiveLease(q) == None && p.owner == p.id)
  }

  ghost predicate RequestsOwnTrigger(id: nat, sent: Option<Packet>) {
    sent.Some? ==> sent.value.source == id && (sent.value.command == Request ==> TriggeredBy(sent.value.trigger, id))
  }

  lemma ClientTickShape(p: Peer, dt: real, nativeOk: bool)
    requires Coherent(p) && p.role == Client
    ensures var out := Tick(p, dt, nativeOk);
            && ActiveLease(out.peer) == ActiveLease(p) && out.peer.seen == p.seen && LogsCall(p, out.peer)
            && RequestsOwnTrigger(p.id, out.sent)
  {
    var q := TickReplay(p, dt, nativeOk);
    assert PeerBinding(q) == PeerBinding(p) && q.seen == p.seen && LogsCall(p, q);
    hide TickReplay;
  }

  lemma ClientActShape(p: Peer, e: Event)
    requires Coherent(p) && p.role == Client && !e.Received?
    requires e.OperatorRequest? ==> p.owner == 0
    ensures var out := Perform(p, e);
            && KeptOrOwnReleased(p, out.peer) && out.peer.seen == p.seen && LogsCall(p, out.peer)
            && RequestsOwnTrigger(p.id, out.sent)
  {
    if e.Elapsed? {
      ClientTickShape(p, e.dt, e.nativeOk);
    }
    hide Tick, HandlePacket;
  }

  /** How a client's lease follows one packet of the host. */
  ghost predicate FollowsPacket(p: Peer, m: Packet, q: Peer) {
    match m.command
    case Grant => ActiveLease(q) == Some(PacketBinding(m)) || (ActiveLease(q) == None && m.owner == p.id)
    case Release => ActiveLease(q) == if NamesLease(p, m) then None else ActiveLease(p)
    case _ => ActiveLease(q) == ActiveLease(p)
  }

  lemma ClientGrantShape(p: Peer, m: Packet, nativeOk: bool)
    requires Coherent(p) && p.role == Client && m.owner != 0 && m.epoch != 0 && CarriesTrigger(m) && !GrantIsStale(p, m)
    ensures var out := HandleGrant(p, m, nativeOk);
            && (ActiveLease(out.peer) == Some(PacketBinding(m)) || (ActiveLease(out.peer) == None && m.owner == p.id))
            && out.peer.seen == p.seen + {m.event} && RequestsOwnTrigger(p.id, out.sent) && LogsCall(p, out.peer)
  {
    var a := SetActiveLease(p, m);
    var r := ReplayGranted(a, m, nativeOk).peer;
    assert r.native == a.native || r.native == a.native + [Invocation(m.trigger, m.dialogue, PeerBinding(a))];
  }

  lemma ClientReceiveShape(p: Peer, m: Packet, transport: nat, nativeOk: bool)
    requires Coherent(p) && p.role == Client && m.event !in p.seen
    requires m.command == Grant ==> m.owner != 0 && m.epoch != 0 && CarriesTrigger(m) && !GrantIsStale(p, m)
    requires IsLeaseWord(m) ==> PassesGuard(p, m, transport)
    ensures var out := HandlePacket(p, m, transport, nativeOk);
            && FollowsPacket(p, m, out.peer) && out.peer.seen <= p.seen + {m.event} && LogsCall(p, out.peer)
            && RequestsOwnTrigger(p.id, out.sent)
  {
    if m.command == Grant {
      ClientGrantShape(p, m, nativeOk);
    }
    hide HandleGrant, CarriesTrigger;
  }
}
