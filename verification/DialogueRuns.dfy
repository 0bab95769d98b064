/** What holds in every state the whole system can reach: fencing, replica agreement, and no replay of an
    own trigger. */
module DialogueRuns {
  import opened SerialSequence
  import opened DialogueLease
  import opened DialoguePeer
  import opened DialogueSystem

  // ---- The invariant -------------------------------------------------------------------------

  ghost predicate Issued(issued: map<Serial, Binding>, b: Binding) {
    b.epoch in issued && issued[b.epoch] == b
  }

  ghost predicate LeaseIssued(issued: map<Serial, Binding>, p: Peer) {
    p.owner != 0 ==> Issued(issued, PeerBinding(p))
  }

  ghost predicate CallsIssued(issued: map<Serial, Binding>, p: Peer) {
    forall i :: 0 <= i < |p.native| ==> Issued(issued, p.native[i].lease)
  }

  /** Epochs 1 up to the host's newest are issued, each to the peer whose own trigger it names. */
  ghost predicate IssuedInv(issued: map<Serial, Binding>, newest: Serial) {
    && (forall e: Serial :: e in issued <==> 1 <= e <= newest)
    && (forall e: Serial :: e in issued ==>
          issued[e].epoch == e && issued[e].owner != 0 && TriggeredBy(issued[e].trigger, issued[e].owner))
  }

  ghost predicate HostInv(s: System) {
    && s.host.role == Host && Coherent(s.host)
    && IssuedInv(s.issued, s.host.epoch) && LeaseIssued(s.issued, s.host) && CallsIssued(s.issued, s.host)
    && (s.host.owner != 0 ==> s.host.epoch == PeerBinding(s.host).epoch)
  }

  ghost predicate FromHost(host: nat, m: Packet) {
    && m.source == host && m.dialogue != 0 && m.event == EventId(host, m.dialogue, m.sequence, m.command)
  }

  ghost predicate LeaseWordOk(issued: map<Serial, Binding>, m: Packet) {
    IsLeaseWord(m) ==> Issued(issued, PacketBinding(m)) && m.target == 0 && (m.command == Grant ==> CarriesTrigger(m))
  }

  /** Everything the host put on a link, in order: numbered upwards, lease words issued, epochs never falling. */
  ghost predicate BroadcastInv(s: System, ms: seq<Packet>) {
    && (forall i :: 0 <= i < |ms| ==>
          FromHost(s.host.id, ms[i]) && LeaseWordOk(s.issued, ms[i]) && ms[i].sequence <= s.host.sequence)
    && (forall i, j :: 0 <= i < j < |ms| ==> ms[i].sequence < ms[j].sequence)
    && (forall i, j :: 0 <= i < j < |ms| && IsLeaseWord(ms[i]) && IsLeaseWord(ms[j]) ==> ms[i].epoch <= ms[j].epoch)
  }

  ghost predicate SeenInv(s: System, link: Link) {
    forall ev :: ev in link.client.seen ==>
      && ev.EventId? && ev.sequence <= s.host.sequence
      && (forall i :: 0 <= i < |link.down| ==> ev.sequence < link.down[i].sequence)
  }

  ghost predicate UpInv(c: nat, up: seq<Packet>) {
    forall i :: 0 <= i < |up| ==> up[i].source == c && (up[i].command == Request ==> TriggeredBy(up[i].trigger, c))
  }

  /** The client's lease is the fold of the broadcasts it has taken, or it owned that lease and released it. */
  ghost predicate Agrees(link: Link) {
    || ActiveLease(link.client) == Fold(link.taken)
    || (ActiveLease(link.client) == None && Fold(link.taken).Some? && Fold(link.taken).value.owner == link.client.id)
  }

  ghost predicate LinkInv(s: System, c: nat, link: Link) {
    && c != 0 && c != s.host.id && link.client.id == c && link.client.role == Client && Coherent(link.client)
    && BroadcastInv(s, link.taken + link.down) && SeenInv(s, link) && UpInv(c, link.up)
    && LeaseIssued(s.issued, link.client) && CallsIssued(s.issued, link.client)
    && Agrees(link)
    && (link.lossless ==> Fold(link.taken + link.down) == ActiveLease(s.host))
  }

  ghost predicate Inv(s: System) {
    HostInv(s) && forall c :: c in s.links ==> LinkInv(s, c, s.links[c])
  }

  // ---- Host steps ----------------------------------------------------------------------------

  function IssuedAfter(s: System, out: Outcome): map<Serial, Binding> {
    if out.peer.epoch != s.host.epoch then s.issued[out.peer.epoch := PeerBinding(out.peer)] else s.issued
  }

  /** What the host just sent continues every link it enters. */
  ghost predicate Continues(s: System, out: Outcome) {
    out.sent.Some? ==>
      var m := out.sent.value;
      && FromHost(s.host.id, m) && LeaseWordOk(IssuedAfter(s, out), m)
      && s.host.sequence < m.sequence == out.peer.sequence
      && (IsLeaseWord(m) ==> m.epoch == out.peer.epoch)
  }

  ghost predicate HostStepOk(s: System, out: Outcome) {
    && out.peer.id == s.host.id && out.peer.role == Host && Coherent(out.peer)
    && HostShape(s.host, out) && Stamped(s.host, out)
    && (FreshGrant(s.host, out) ==> TriggeredBy(out.sent.value.trigger, out.sent.value.owner))
    && (out.sent.Some? ==> out.sent.value.dialogue != 0)
    && s.host.sequence < LAST && s.host.epoch < LAST
  }

  lemma HostStateMoves(s: System, out: Outcome, reached: set<nat>)
    requires HostInv(s) && HostStepOk(s, out)
    ensures var t := HostMoved(s, out, reached);
            && HostInv(t) && Continues(s, out) && t.issued == IssuedAfter(s, out)
            && (forall b :: Issued(s.issued, b) ==> Issued(t.issued, b))
            && s.host.sequence <= out.peer.sequence && s.host.epoch <= out.peer.epoch
  {
    var p, q := s.host, out.peer;
    if FreshGrant(p, out) {
      assert q.epoch == p.epoch + 1 && q.epoch !in s.issued;
    }
    var issued := IssuedAfter(s, out);
    assert IssuedInv(issued, q.epoch);
    assert LeaseIssued(issued, q);
    forall i | 0 <= i < |q.native| ensures Issued(issued, q.native[i].lease) {
      if i < |p.native| { assert q.native[i] == p.native[i]; }
    }
  }

  lemma BroadcastGrows(s: System, t: System, ms: seq<Packet>)
    requires BroadcastInv(s, ms) && t.host.id == s.host.id && s.host.sequence <= t.host.sequence
    requires forall b :: Issued(s.issued, b) ==> Issued(t.issued, b)
    ensures BroadcastInv(t, ms)
  {
  }

  lemma BroadcastExtends(s: System, t: System, ms: seq<Packet>, m: Packet)
    requires BroadcastInv(s, ms) && BroadcastInv(t, ms)
    requires IssuedInv(s.issued, s.host.epoch)
    requires FromHost(t.host.id, m) && LeaseWordOk(t.issued, m) && s.host.sequence < m.sequence <= t.host.sequence
    requires IsLeaseWord(m) ==> s.host.epoch <= m.epoch
    ensures BroadcastInv(t, ms + [m])
  {
  }

  /** The folded broadcasts track the host's lease through any step. */
  lemma FoldTracksHost(s: System, out: Outcome, ms: seq<Packet>)
    requires HostShape(s.host, out) && Fold(ms) == ActiveLease(s.host)
    ensures out.sent.Some? ==> Fold(ms + [out.sent.value]) == ActiveLease(out.peer)
    ensures out.sent == None ==> Fold(ms) == ActiveLease(out.peer)
  {
    if out.sent.Some? {
      FoldAppend(ms, out.sent.value);
    }
  }

  /** A host step that keeps what was issued and numbers what it sends. */
  ghost predicate HostAdvances(s: System, t: System, out: Outcome) {
    && HostInv(s) && HostInv(t) && Continues(s, out)
    && t.host == out.peer && t.issued == IssuedAfter(s, out) && t.host.id == s.host.id
    && (forall b :: Issued(s.issued, b) ==> Issued(t.issued, b))
    && s.host.sequence <= t.host.sequence && s.host.epoch <= t.host.epoch
  }

  lemma OfferKeepsBroadcast(s: System, t: System, out: Outcome, link: Link, reaches: bool)
    requires HostAdvances(s, t, out) && BroadcastInv(s, link.taken + link.down)
    ensures var next := Offer(link, out.sent, reaches); BroadcastInv(t, next.taken + next.down)
  {
    var ms := link.taken + link.down;
    BroadcastGrows(s, t, ms);
    if out.sent.Some? {
      BroadcastExtends(s, t, ms, out.sent.value);
      assert link.taken + (link.down + [out.sent.value]) == ms + [out.sent.value];
    }
    hide BroadcastInv;
  }

  lemma OfferKeepsFold(s: System, out: Outcome, link: Link, reaches: bool)
    requires HostShape(s.host, out) && (link.lossless ==> Fold(link.taken + link.down) == ActiveLease(s.host))
    ensures var next := Offer(link, out.sent, reaches);
            next.lossless ==> Fold(next.taken + next.down) == ActiveLease(out.peer)
  {
    var ms := link.taken + link.down;
    if link.lossless {
      FoldTracksHost(s, out, ms);
      if out.sent.Some? {
        assert link.taken + (link.down + [out.sent.value]) == ms + [out.sent.value];
      }
    }
    hide HostShape;
  }

  lemma OfferKeepsSeen(s: System, t: System, out: Outcome, link: Link, reaches: bool)
    requires HostAdvances(s, t, out) && SeenInv(s, link)
    ensures SeenInv(t, Offer(link, out.sent, reaches))
  {
    hide HostInv;
  }

  lemma HostMovesLink(s: System, out: Outcome, reached: set<nat>, c: nat)
    requires c in s.links && LinkInv(s, c, s.links[c])
    requires HostShape(s.host, out) && HostAdvances(s, HostMoved(s, out, reached), out)
    ensures var t := HostMoved(s, out, reached); LinkInv(t, c, t.links[c])
  {
    var t := HostMoved(s, out, reached);
    OfferKeepsBroadcast(s, t, out, s.links[c], c in reached);
    OfferKeepsFold(s, out, s.links[c], c in reached);
    OfferKeepsSeen(s, t, out, s.links[c], c in reached);
    hide HostShape, Coherent, HostInv, Continues, BroadcastInv, SeenInv, Fold;
  }

  lemma HostMovesInv(s: System, out: Outcome, reached: set<nat>)
    requires Inv(s) && HostStepOk(s, out)
    ensures Inv(HostMoved(s, out, reached))
    ensures forall b :: Issued(s.issued, b) ==> Issued(HostMoved(s, out, reached).issued, b)
  {
    HostStateMoves(s, out, reached);
    forall c | c in s.links ensures LinkInv(HostMoved(s, out, reached), c, HostMoved(s, out, reached).links[c]) {
      HostMovesLink(s, out, reached, c);
    }
  }

  lemma HostActsInv(s: System, e: Event, reached: set<nat>)
    requires Inv(s) && !e.Received? && s.host.sequence < LAST && s.host.epoch < LAST
    ensures Inv(HostMoved(s, Perform(s.host, e), reached))
    ensures forall b :: Issued(s.issued, b) ==> Issued(HostMoved(s, Perform(s.host, e), reached).issued, b)
  {
    if e.OperatorRequest? {
      assert Perform(s.host, e) == Outcome(s.host, None);
    }
    HostActShape(s.host, e);
    if !e.OperatorRequest? { PerformKeepsCoherence(s.host, e); }
    SentDialogue(s.host, Perform(s.host, e));
    HostMovesInv(s, Perform(s.host, e), reached);
    hide Perform, HostShape;
  }

  lemma SentDialogue(p: Peer, out: Outcome)
    requires Coherent(p) && HostShape(p, out) && Coherent(out.peer)
    ensures out.sent.Some? && out.sent.value.command != Deny ==> out.sent.value.dialogue != 0
  {
  }

  lemma HostReceivesInv(s: System, m: Packet, from: nat, nativeOk: bool, reached: set<nat>)
    requires Inv(s) && s.host.sequence < LAST && s.host.epoch < LAST
    requires m.source != s.host.id && (m.command == Request ==> TriggeredBy(m.trigger, m.source))
    ensures var t := HostMoved(s, HandlePacket(s.host, m, from, nativeOk), reached);
            Inv(t) && forall b :: Issued(s.issued, b) ==> Issued(t.issued, b)
  {
    var out := HandlePacket(s.host, m, from, nativeOk);
    HostReceiveShape(s.host, m, from, nativeOk);
    ReceiveKeepsCoherence(s.host, m, from, nativeOk);
    SentDialogue(s.host, out);
    assert out.sent.Some? && out.sent.value.command == Deny ==> out.sent.value.dialogue == m.dialogue != 0 by {
      hide ReplayOrDefer, HandleGrant;
    }
    hide HandlePacket, HostShape;
    HostMovesInv(s, out, reached);
  }

  // ---- Client steps --------------------------------------------------------------------------

  /** Dropping the head of a client's outgoing queue disturbs nothing. */
  lemma TakeUpInv(s: System, c: nat)
    requires Inv(s) && c in s.links && s.links[c].up != []
    ensures Inv(s.(links := s.links[c := s.links[c].(up := s.links[c].up[1..])]))
  {
    hide BroadcastInv, Coherent, Fold, Issued, CallsIssued, LeaseIssued;
    var t := s.(links := s.links[c := s.links[c].(up := s.links[c].up[1..])]);
    forall d | d in t.links ensures LinkInv(t, d, t.links[d]) {
      BroadcastGrows(s, t, t.links[d].taken + t.links[d].down);
    }
  }

  lemma ClientMovesCalls(issued: map<Serial, Binding>, p: Peer, q: Peer)
    requires CallsIssued(issued, p) && LogsCall(p, q) && LeaseIssued(issued, p) && LeaseIssued(issued, q)
    ensures CallsIssued(issued, q)
  {
    forall i | 0 <= i < |q.native| ensures Issued(issued, q.native[i].lease) {
      if i < |p.native| { assert q.native[i] == p.native[i]; }
    }
  }

  lemma ClientActsInv(s: System, c: nat, e: Event, queued: bool)
    requires HostInv(s) && c in s.links && LinkInv(s, c, s.links[c])
    requires !e.Received? && (e.OperatorRequest? ==> s.links[c].client.owner == 0)
    ensures LinkInv(s, c, ClientMoved(s.links[c], Perform(s.links[c].client, e), queued))
  {
    var link := s.links[c];
    var p, out := link.client, Perform(link.client, e);
    ClientActShape(p, e);
    PerformKeepsCoherence(p, e);
    assert Stamped(p, out);
    hide Perform, Coherent, BroadcastInv, Fold;
    assert LeaseIssued(s.issued, out.peer);
    ClientMovesCalls(s.issued, p, out.peer);
    assert Agrees(ClientMoved(link, out, queued));
  }

  /** A grant at the head of a link is never stale: epochs do not fall along a link. */
  lemma NextGrantIsFresh(s: System, c: nat)
    requires HostInv(s) && c in s.links && LinkInv(s, c, s.links[c]) && s.links[c].down != []
    ensures var m := s.links[c].down[0];
            m.command == Grant ==>
              !GrantIsStale(s.links[c].client, m) && m.owner != 0 && m.epoch != 0 && CarriesTrigger(m)
  {
    var link := s.links[c];
    var m, p := link.down[0], link.client;
    var all := link.taken + link.down;
    assert m == all[|link.taken|];
    if m.command == Grant && p.owner != 0 {
      FoldComesFromGrant(link.taken);
      var i :| 0 <= i < |link.taken| && link.taken[i].command == Grant
        && PacketBinding(link.taken[i]) == Fold(link.taken).value;
      assert all[i] == link.taken[i];
    }
  }

  lemma TakenAgrees(s: System, link: Link, m: Packet, q: Peer)
    requires Agrees(link) && LeaseIssued(s.issued, link.client) && LeaseWordOk(s.issued, m) && m.dialogue != 0
    requires FollowsPacket(link.client, m, q) && q.id == link.client.id
    requires ActiveCoherent(link.client)
    ensures Agrees(link.(client := q, taken := link.taken + [m]))
  {
    FoldAppend(link.taken, m);
  }

  lemma TakenSeen(s: System, link: Link, q: Peer)
    requires BroadcastInv(s, link.taken + link.down) && SeenInv(s, link) && link.down != []
    requires q.seen <= link.client.seen + {link.down[0].event}
    ensures SeenInv(s, link.(client := q, down := link.down[1..]))
    ensures link.down[0].event !in link.client.seen
  {
    var all := link.taken + link.down;
    forall i | 0 <= i < |link.down| ensures all[|link.taken| + i] == link.down[i] {}
    assert FromHost(s.host.id, all[|link.taken|]);
  }

  ghost predicate TakesPacket(p: Peer, m: Packet, out: Outcome) {
    && FollowsPacket(p, m, out.peer) && out.peer.seen <= p.seen + {m.event} && LogsCall(p, out.peer)
    && RequestsOwnTrigger(p.id, out.sent) && Coherent(out.peer) && SameIdentity(p, out.peer)
  }

  lemma ClientTakesNext(s: System, c: nat, nativeOk: bool)
    requires HostInv(s) && c in s.links && LinkInv(s, c, s.links[c]) && s.links[c].down != []
    ensures var link := s.links[c];
            var m := link.down[0];
            && FromHost(s.host.id, m) && LeaseWordOk(s.issued, m)
            && TakesPacket(link.client, m, HandlePacket(link.client, m, s.host.id, nativeOk))
  {
    var link := s.links[c];
    var m, p := link.down[0], link.client;
    assert m == (link.taken + link.down)[|link.taken|];
    NextGrantIsFresh(s, c);
    TakenSeen(s, link, p);
    ClientReceiveShape(p, m, s.host.id, nativeOk);
    ReceiveKeepsCoherence(p, m, s.host.id, nativeOk);
    hide HandlePacket, Fold, SeenInv;
  }

  lemma ClientReceivesInv(s: System, c: nat, nativeOk: bool, queued: bool)
    requires HostInv(s) && c in s.links && LinkInv(s, c, s.links[c]) && s.links[c].down != []
    ensures var link := s.links[c];
            var m := link.down[0];
            var out := HandlePacket(link.client, m, s.host.id, nativeOk);
            LinkInv(s, c, ClientMoved(link.(down := link.down[1..], taken := link.taken + [m]), out, queued))
  {
    hide HandlePacket;
    var link := s.links[c];
    var m, p := link.down[0], link.client;
    var out := HandlePacket(p, m, s.host.id, nativeOk);
    var next := ClientMoved(link.(down := link.down[1..], taken := link.taken + [m]), out, queued);
    assert next.taken + next.down == link.taken + link.down;
    ClientTakesNext(s, c, nativeOk);
    TakenSeen(s, link, out.peer);
    TakenAgrees(s, link, m, out.peer);
    hide Coherent, BroadcastInv, Fold, SeenInv;
    assert LeaseIssued(s.issued, out.peer);
    ClientMovesCalls(s.issued, p, out.peer);
  }

  // ---- Runs ----------------------------------------------------------------------------------

  ghost predicate Grows(s: System, t: System) {
    && t.host.id == s.host.id && t.links.Keys == s.links.Keys
    && (forall b :: Issued(s.issued, b) ==> Issued(t.issued, b))
    && t.host.sequence <= s.host.sequence + 1
  }

  /** A new epoch is the successor of the last one and is given out only by a host without a lease; the
      host never exchanges one lease for another in one step. */
  ghost predicate LeaseMoves(s: System, t: System) {
    && s.host.epoch <= t.host.epoch <= s.host.epoch + 1
    && (t.host.epoch != s.host.epoch <==> ActiveLease(s.host) == None && ActiveLease(t.host).Some?)
    && (t.host.epoch != s.host.epoch ==> Issued(t.issued, PeerBinding(t.host)))
    && (ActiveLease(t.host) != ActiveLease(s.host) ==> ActiveLease(s.host) == None || ActiveLease(t.host) == None)
  }

  lemma HostCounters(s: System, out: Outcome, reached: set<nat>)
    requires HostInv(s) && HostShape(s.host, out) && s.host.sequence < LAST && s.host.epoch < LAST
    requires HostInv(HostMoved(s, out, reached))
    ensures out.peer.sequence <= s.host.sequence + 1 && LeaseMoves(s, HostMoved(s, out, reached))
  {
    hide Coherent, CarriesTrigger;
  }

  lemma HostActsStep(s: System, e: Event, reached: set<nat>)
    requires Inv(s) && s.host.sequence < LAST && s.host.epoch < LAST && !e.Received?
    ensures var t := HostMoved(s, Perform(s.host, e), reached); Inv(t) && Grows(s, t) && LeaseMoves(s, t)
  {
    HostActsInv(s, e, reached);
    HostActShape(s.host, e);
    hide Perform, HostShape;
    HostCounters(s, Perform(s.host, e), reached);
  }

  lemma HostReceivesStep(s: System, from: nat, nativeOk: bool, reached: set<nat>)
    requires Inv(s) && s.host.sequence < LAST && s.host.epoch < LAST && from in s.links && s.links[from].up != []
    ensures var t := Apply(s, HostReceives(from, nativeOk, reached)); Inv(t) && Grows(s, t) && LeaseMoves(s, t)
  {
    hide HandlePacket, HostShape;
    var link := s.links[from];
    TakeUpInv(s, from);
    var t := s.(links := s.links[from := link.(up := link.up[1..])]);
    HostReceivesInv(t, link.up[0], from, nativeOk, reached);
    HostReceiveShape(t.host, link.up[0], from, nativeOk);
    HostCounters(t, HandlePacket(s.host, link.up[0], from, nativeOk), reached);
    hide Inv, Coherent;
  }

  lemma OtherLinksInv(s: System, c: nat, link: Link)
    requires Inv(s) && c in s.links && LinkInv(s, c, link)
    ensures Inv(s.(links := s.links[c := link]))
  {
    var t := s.(links := s.links[c := link]);
    forall d | d in t.links ensures LinkInv(t, d, t.links[d]) {
      BroadcastGrows(s, t, t.links[d].taken + t.links[d].down);
      hide BroadcastInv, Coherent, Fold;
    }
    hide LinkInv;
  }

  /** A step of one client touches only its own link. */
  lemma ClientStep(s: System, c: nat, link: Link)
    requires Inv(s) && c in s.links && LinkInv(s, c, link)
    ensures var t := s.(links := s.links[c := link]); Inv(t) && Grows(s, t) && LeaseMoves(s, t)
  {
    OtherLinksInv(s, c, link);
    hide Inv;
  }

  lemma NoStep(s: System)
    ensures Grows(s, s) && LeaseMoves(s, s)
  {
  }

  lemma StepInv(s: System, step: Step)
    requires Inv(s) && s.host.sequence < LAST && s.host.epoch < LAST
    ensures var t := Apply(s, step); Inv(t) && Grows(s, t) && LeaseMoves(s, t)
  {
    hide Perform, HandlePacket, LinkInv, Grows, LeaseMoves, HostMoved, ClientMoved, HostInv;
    NoStep(s);
    if Apply(s, step) != s {
      match step
      case HostActs(e, reached) =>
        HostActsStep(s, e, reached);
      case HostReceives(from, nativeOk, reached) =>
        HostReceivesStep(s, from, nativeOk, reached);
      case ClientActs(c, e, queued) =>
        ClientActsInv(s, c, e, queued);
        ClientStep(s, c, Apply(s, step).links[c]);
      case ClientReceives(c, nativeOk, queued) =>
        ClientReceivesInv(s, c, nativeOk, queued);
        ClientStep(s, c, Apply(s, step).links[c]);
    }
  }

  /** Peer identities are non-zero and distinct, and the run is too short for a 32-bit counter to wrap. */
  ghost predicate Setup(hostId: nat, clients: set<nat>, steps: seq<Step>) {
    hostId != 0 && 0 !in clients && hostId !in clients && |steps| < LAST
  }

  lemma StartInv(hostId: nat, clients: set<nat>)
    requires Setup(hostId, clients, [])
    ensures Inv(Start(hostId, clients))
  {
  }

  lemma {:induction false} RunInv(hostId: nat, clients: set<nat>, steps: seq<Step>)
    requires Setup(hostId, clients, steps)
    ensures var s := Run(Start(hostId, clients), steps);
            && Inv(s) && s.host.id == hostId && s.links.Keys == clients
            && s.host.sequence <= |steps| && s.host.epoch <= |steps|
  {
    if steps == [] {
      StartInv(hostId, clients);
    } else {
      var before := steps[..|steps| - 1];
      RunInv(hostId, clients, before);
      StepInv(Run(Start(hostId, clients), before), steps[|steps| - 1]);
    }
    hide Inv, Apply;
  }

  lemma {:induction false} RunGrows(s: System, steps: seq<Step>, k: nat)
    requires k <= |steps| && Inv(s) && s.host.sequence + |steps| < LAST && s.host.epoch + |steps| < LAST
    ensures var t, u := Run(s, steps[..k]), Run(s, steps);
            && Inv(u) && u.host.sequence <= s.host.sequence + |steps| && u.host.epoch <= s.host.epoch + |steps|
            && t.host.epoch <= u.host.epoch && (forall b :: Issued(t.issued, b) ==> Issued(u.issued, b))
  {
    if k == |steps| {
      assert steps[..k] == steps;
    }
    if steps != [] {
      var before := steps[..|steps| - 1];
      RunGrows(s, before, if k == |steps| then k - 1 else k);
      if k < |steps| { assert steps[..k] == before[..k]; }
      StepInv(Run(s, before), steps[|steps| - 1]);
    }
    hide Inv, Apply;
  }
}
