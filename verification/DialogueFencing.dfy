/** Words about a lease that is no longer held: no activity or release ever touches another lease than the one
    its sender held. */
module DialogueFencing {
  import opened SerialSequence
  import opened DialogueLease
  import opened DialoguePeer
  import opened DialogueSystem
  import opened DialogueRuns
  import opened DialogueTheorems

  // ---- What a client says about its lease ----------------------------------------------------

  predicate IsOwnersWord(m: Packet) {
    m.command == Activity || m.command == Release
  }

  /** The activities and releases a client has under way name leases that were granted to it. */
  ghost predicate WordsIssued(issued: map<Serial, Binding>, c: nat, up: seq<Packet>) {
    forall i :: 0 <= i < |up| && IsOwnersWord(up[i]) ==> Issued(issued, PacketBinding(up[i])) && up[i].owner == c
  }

  ghost predicate AllWordsIssued(s: System) {
    forall c :: c in s.links ==> WordsIssued(s.issued, c, s.links[c].up)
  }

  lemma TickSpeaksOfLease(p: Peer, dt: real, nativeOk: bool)
    requires Coherent(p) && p.role == Client
    ensures var sent := Tick(p, dt, nativeOk).sent;
            sent.Some? && IsOwnersWord(sent.value) ==> PacketBinding(sent.value) == PeerBinding(p) && p.owner == p.id
  {
    var q := TickReplay(p, dt, nativeOk);
    assert q.descriptor == p.descriptor && PeerBinding(q) == PeerBinding(p) && q.id == p.id && q.role == p.role;
    hide TickReplay;
  }

  lemma ClientSpeaksOfLease(p: Peer, e: Event)
    requires Coherent(p) && p.role == Client && !e.Received?
    ensures var sent := Perform(p, e).sent;
            sent.Some? && IsOwnersWord(sent.value) ==> PacketBinding(sent.value) == PeerBinding(p) && p.owner == p.id
  {
    if e.Elapsed? {
      TickSpeaksOfLease(p, e.dt, e.nativeOk);
    }
    hide Tick, HandlePacket;
  }

  lemma ClientReturnsGrant(p: Peer, m: Packet, transport: nat, nativeOk: bool)
    requires p.role == Client && p.id != 0
    ensures var sent := HandlePacket(p, m, transport, nativeOk).sent;
            sent.Some? && IsOwnersWord(sent.value) ==>
              PacketBinding(sent.value) == PacketBinding(m) && m.owner == p.id && m.command == Grant
  {
    hide HandleDeny, HandleActivity;
  }

  lemma SaysIssued(issued: map<Serial, Binding>, c: nat, link: Link, out: Outcome, queued: bool)
    requires WordsIssued(issued, c, link.up)
    requires out.sent.Some? && IsOwnersWord(out.sent.value) ==>
               Issued(issued, PacketBinding(out.sent.value)) && out.sent.value.owner == c
    ensures WordsIssued(issued, c, ClientMoved(link, out, queued).up)
  {
  }

  lemma ClientStepWords(s: System, c: nat, step: Step)
    requires Inv(s) && AllWordsIssued(s) && c in s.links && (step.ClientActs? || step.ClientReceives?)
    ensures c in Apply(s, step).links && WordsIssued(s.issued, c, Apply(s, step).links[c].up)
  {
    var link := s.links[c];
    var p := link.client;
    assert Coherent(p) && p.role == Client && p.id == c != 0 && LeaseIssued(s.issued, p);
    match step
    case ClientActs(d, e, queued) =>
      if d == c && !e.Received? {
        ClientSpeaksOfLease(p, e);
        SaysIssued(s.issued, c, link, Perform(p, e), queued);
      }
      hide Perform, Inv, Coherent, WordsIssued;
    case ClientReceives(d, nativeOk, queued) =>
      if d == c && link.down != [] {
        HeadIsOk(s, c);
        ClientReturnsGrant(p, link.down[0], s.host.id, nativeOk);
        var taken := link.(down := link.down[1..], taken := link.taken + [link.down[0]]);
        SaysIssued(s.issued, c, taken, HandlePacket(p, link.down[0], s.host.id, nativeOk), queued);
      }
      hide HandlePacket, Inv, Coherent, WordsIssued;
  }

  lemma HeadIsOk(s: System, c: nat)
    requires Inv(s) && c in s.links && s.links[c].down != []
    ensures FromHost(s.host.id, s.links[c].down[0]) && LeaseWordOk(s.issued, s.links[c].down[0])
  {
    var link := s.links[c];
    assert LinkInv(s, c, link);
    assert link.down[0] == (link.taken + link.down)[|link.taken|];
    hide Coherent, SeenInv, Fold;
  }

  lemma HostStepWords(s: System, c: nat, step: Step)
    requires AllWordsIssued(s) && c in s.links && (step.HostActs? || step.HostReceives?)
    ensures c in Apply(s, step).links && WordsIssued(s.issued, c, Apply(s, step).links[c].up)
  {
    hide Perform, HandlePacket, Issued;
  }

  lemma StepWords(s: System, step: Step)
    requires Inv(s) && AllWordsIssued(s) && s.host.sequence < LAST && s.host.epoch < LAST
    ensures AllWordsIssued(Apply(s, step))
  {
    hide Apply, Inv, Issued;
    var t := Apply(s, step);
    StepInv(s, step);
    forall c | c in t.links ensures WordsIssued(t.issued, c, t.links[c].up) {
      if step.ClientActs? || step.ClientReceives? {
        ClientStepWords(s, c, step);
      } else {
        HostStepWords(s, c, step);
      }
    }
  }

  lemma {:induction false} RunWords(hostId: nat, clients: set<nat>, steps: seq<Step>)
    requires Setup(hostId, clients, steps)
    ensures AllWordsIssued(Reached(hostId, clients, steps))
  {
    if steps != [] {
      var before := steps[..|steps| - 1];
      RunWords(hostId, clients, before);
      RunInv(hostId, clients, before);
      StepWords(Reached(hostId, clients, before), steps[|steps| - 1]);
    }
    hide Apply, Inv, WordsIssued;
  }

  // ---- Stale words ---------------------------------------------------------------------------

  lemma HostIgnores(h: Peer, issued: map<Serial, Binding>, m: Packet, transport: nat, nativeOk: bool)
    requires h.role == Host && LeaseIssued(issued, h) && IsOwnersWord(m) && m.source != 0
    requires Issued(issued, PacketBinding(m)) && ActiveLease(h) != Some(PacketBinding(m))
    ensures HandlePacket(h, m, transport, nativeOk) == Outcome(h, None)
  {
    hide HandleRequest, HandleGrant, HandleDeny;
  }

  /** In every reachable state: an activity or release from a client that reaches the host when the host's lease
      is not exactly the one the word speaks of changes nothing but the queue it was taken from, and sends nothing. */
  lemma StaleWordsAreHarmless(hostId: nat, clients: set<nat>, steps: seq<Step>, c: nat, nativeOk: bool,
      reached: set<nat>)
    requires Setup(hostId, clients, steps) && c in Reached(hostId, clients, steps).links
    requires var up := Reached(hostId, clients, steps).links[c].up; up != [] && IsOwnersWord(up[0])
    ensures var s := Reached(hostId, clients, steps);
            var m := s.links[c].up[0];
            && Issued(s.issued, PacketBinding(m)) && m.owner == c == m.source
            && (ActiveLease(s.host) != Some(PacketBinding(m)) ==>
                  Apply(s, HostReceives(c, nativeOk, reached)) ==
                  s.(links := s.links[c := s.links[c].(up := s.links[c].up[1..])]))
  {
    RunInv(hostId, clients, steps);
    RunWords(hostId, clients, steps);
    hide Run;
    var s := Reached(hostId, clients, steps);
    var m := s.links[c].up[0];
    assert LinkInv(s, c, s.links[c]) && m.source == c != 0;
    assert s.host.role == Host && LeaseIssued(s.issued, s.host);
    hide HandlePacket, HostInv, LinkInv, Issued;
    if ActiveLease(s.host) != Some(PacketBinding(m)) {
      HostIgnores(s.host, s.issued, m, c, nativeOk);
      NothingSent(s.(links := s.links[c := s.links[c].(up := s.links[c].up[1..])]), reached);
    }
  }

  lemma NothingSent(s: System, reached: set<nat>)
    ensures HostMoved(s, Outcome(s.host, None), reached) == s
  {
    assert (map c | c in s.links :: Offer(s.links[c], None, c in reached)) == s.links;
  }

  /** In every reachable state: of all the host's words other than a grant, the next one ends a client's lease if
      it is the release of exactly that lease, and otherwise leaves the lease as it is. */
  lemma OnlyItsReleaseEndsALease(hostId: nat, clients: set<nat>, steps: seq<Step>, c: nat, nativeOk: bool, queued: bool)
    requires Setup(hostId, clients, steps) && c in Reached(hostId, clients, steps).links
    requires var down := Reached(hostId, clients, steps).links[c].down; down != [] && down[0].command != Grant
    ensures var s := Reached(hostId, clients, steps);
            var m := s.links[c].down[0];
            var mine := ActiveLease(s.links[c].client);
            var t := Apply(s, ClientReceives(c, nativeOk, queued));
            && c in t.links
            && ActiveLease(t.links[c].client) ==
               if m.command == Release && mine == Some(PacketBinding(m)) then None else mine
  {
    RunInv(hostId, clients, steps);
    hide Run, HandlePacket;
    var s := Reached(hostId, clients, steps);
    assert LinkInv(s, c, s.links[c]);
    ClientTakesNext(s, c, nativeOk);
    var p, m := s.links[c].client, s.links[c].down[0];
    assert LeaseIssued(s.issued, p) && ActiveCoherent(p);
    hide HostInv, LinkInv, BroadcastInv, Coherent;
    if m.command == Release {
      NamesItsLease(p, s.issued, m);
    }
  }

  /** Among issued leases the three fields the handlers compare name the whole lease. */
  lemma NamesItsLease(p: Peer, issued: map<Serial, Binding>, m: Packet)
    requires LeaseIssued(issued, p) && ActiveCoherent(p) && LeaseWordOk(issued, m) && m.dialogue != 0
    requires m.command == Release
    ensures NamesLease(p, m) <==> ActiveLease(p) == Some(PacketBinding(m))
  {
  }
}
