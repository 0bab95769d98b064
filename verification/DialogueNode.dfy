/** The ModMain fields of CoopDialogueSync.cpp as a mutable object.  Every method updates the fields
    in the order of the original and is proved to be the step that DialogueLease describes. */
module DialogueNode {
  import opened SerialSequence
  import opened DialogueLease

  /** A step makes at most one native call, of a trigger that was not applied before and is now. */
  ghost predicate CallsFreshTrigger(p: Peer, q: Peer) {
    && p.applied <= q.applied
    && (|| q.native == p.native
        || exists call :: q.native == p.native + [call] && call.trigger in q.applied - p.applied)
  }

  lemma ReplayCallsFresh(p: Peer, grant: Packet, nativeOk: bool)
    ensures CallsFreshTrigger(p, ReplayGranted(p, grant, nativeOk).peer)
    ensures CallsFreshTrigger(p, ReplayOrDefer(p, grant, nativeOk).peer)
  {
    var q := ReplayGranted(p, grant, nativeOk).peer;
    if q != p {
      assert q.native == p.native + [Invocation(grant.trigger, grant.dialogue, PeerBinding(p))];
    }
  }

  lemma RequestCallsFresh(p: Peer, m: Packet, nativeOk: bool)
    ensures CallsFreshTrigger(p, HandleRequest(p, m, nativeOk).peer)
  {
    if p.role == Host && CarriesTrigger(m) && p.owner == 0 {
      var q := Advance(p.(epoch := Next(p.epoch)));
      var grant := Stamp(q, m.(target := 0, owner := m.source, epoch := q.epoch), Grant);
      ReplayCallsFresh(SetActiveLease(q, grant), grant, nativeOk);
    }
    hide ReplayOrDefer, CarriesTrigger;
  }

  lemma GrantCallsFresh(p: Peer, m: Packet, nativeOk: bool)
    ensures CallsFreshTrigger(p, HandleGrant(p, m, nativeOk).peer)
  {
    ReplayCallsFresh(SetActiveLease(p, m), m, nativeOk);
    hide ReplayOrDefer, CarriesTrigger;
  }

  lemma PacketCallsFresh(p: Peer, m: Packet, transport: nat, nativeOk: bool)
    ensures CallsFreshTrigger(p, HandlePacket(p, m, transport, nativeOk).peer)
  {
    RequestCallsFresh(p, m, nativeOk);
    GrantCallsFresh(p, m, nativeOk);
    hide HandleRequest, HandleGrant, PassesGuard;
  }

  lemma TickReplayCallsFresh(p: Peer, dt: real, nativeOk: bool)
    ensures CallsFreshTrigger(p, TickReplay(p, dt, nativeOk))
  {
    var q := p.(replaySeconds := p.replaySeconds - dt);
    ReplayCallsFresh(q, q.replay, nativeOk);
    hide ReplayGranted;
  }

  lemma TickCallsFresh(p: Peer, dt: real, nativeOk: bool)
    ensures CallsFreshTrigger(p, Tick(p, dt, nativeOk).peer)
  {
    TickReplayCallsFresh(p, dt, nativeOk);
    var q := TickLease(TickReplay(p, dt, nativeOk), dt).peer;
    assert q.native == TickReplay(p, dt, nativeOk).native && q.applied == TickReplay(p, dt, nativeOk).applied by {
      hide TickReplay, CallsFreshTrigger;
    }
    hide TickReplay, TickLease;
  }

  class Node {
    const id: nat
    const role: Role

    var dialogueId: nat
    var pendingId: nat
    var ownerHash: nat
    var triggerEventId: TriggerId
    var ruleId: nat
    var epoch: Serial
    var descriptor: Packet
    var seconds: real
    var activitySendSeconds: real
    var pendingCompletion: bool
    var pendingReplayActive: bool
    var pendingReplay: Packet
    var pendingReplaySeconds: real
    var sequence: Serial
    var appliedEventIds: set<EventId>
    var appliedTriggerIds: set<TriggerId>
    var nativeInvocations: seq<Invocation>

    ghost function View(): Peer
      reads this
    {
      Peer(id, role, dialogueId, pendingId, ownerHash, triggerEventId, ruleId, epoch, descriptor, seconds,
           activitySendSeconds, pendingCompletion, pendingReplayActive, pendingReplay, pendingReplaySeconds,
           sequence, appliedEventIds, appliedTriggerIds, nativeInvocations)
    }

    constructor (id: nat, role: Role)
      ensures View() == FreshPeer(id, role)
    {
      this.id, this.role := id, role;
      dialogueId, pendingId, ownerHash, triggerEventId, ruleId, epoch := 0, 0, 0, NoTrigger, 0, 0;
      descriptor, seconds, activitySendSeconds, pendingCompletion := EMPTY_PACKET, 0.0, 0.0, false;
      pendingReplayActive, pendingReplay, pendingReplaySeconds := false, EMPTY_PACKET, 0.0;
      sequence, appliedEventIds, appliedTriggerIds, nativeInvocations := 0, {}, {}, [];
    }

    method AdvanceSequence()
      modifies this`sequence
      ensures View() == Advance(old(View()))
    {
      sequence := Next(sequence);
    }

    method SetIdentity(d: nat, owner: nat, trigger: TriggerId, rule: nat)
      modifies this`dialogueId, this`pendingId, this`ownerHash, this`triggerEventId, this`ruleId
      ensures View() == old(View()).(dialogue := d, pending := 0, owner := owner, trigger := trigger, rule := rule)
    {
      dialogueId := d;
      pendingId := 0;
      ownerHash := owner;
      triggerEventId := trigger;
      ruleId := rule;
    }

    method ResetTimers()
      modifies this`seconds, this`activitySendSeconds
      ensures View() == old(View()).(seconds := 0.0, activitySeconds := 0.0)
    {
      seconds := 0.0;
      activitySendSeconds := 0.0;
    }

    method ForgetPendingReplay()
      modifies this`pendingReplayActive, this`pendingReplay, this`pendingReplaySeconds
      ensures View() == old(View()).(replayActive := false, replay := EMPTY_PACKET, replaySeconds := 0.0)
    {
      pendingReplayActive := false;
      pendingReplay := EMPTY_PACKET;
      pendingReplaySeconds := 0.0;
    }

    method ClearActiveDialogueLease()
      modifies this
      ensures View() == ClearLease(old(View()))
    {
      SetIdentity(0, 0, NoTrigger, 0);
      ResetTimers();
      pendingCompletion := false;
      descriptor := EMPTY_PACKET;
      ForgetPendingReplay();
    }

    method BuildDialogueLeasePacket(command: Command) returns (packet: Packet)
      ensures packet == BuildPacket(View(), command)
    {
      if descriptor.dialogue == dialogueId {
        packet := descriptor;
      } else {
        packet := EMPTY_PACKET;
      }
      packet := packet.(sequence := sequence, source := id, target := 0);
      packet := packet.(dialogue := dialogueId, owner := ownerHash, epoch := epoch, command := command);
      packet := packet.(event := EventId(id, dialogueId, sequence, command));
    }

    method RequestDialogueLease(request: Packet, sendOk: bool) returns (ok: bool, sent: Option<Packet>)
      modifies this
      ensures Outcome(View(), sent) == RequestLease(old(View()), request, sendOk)
      ensures ok <==> sent.Some?
    {
      if role != Client || !CarriesTrigger(request) {
        return false, None;
      }
      var packet := request;
      AdvanceSequence();
      packet := packet.(sequence := sequence, source := id, target := 0, owner := id, epoch := 0, command := Request);
      packet := packet.(event := EventId(packet.source, packet.dialogue, packet.sequence, packet.command));
      if !sendOk {
        return false, None;
      }
      pendingId := packet.dialogue;
      triggerEventId := packet.trigger;
      ruleId := packet.rule;
      descriptor := packet;
      pendingCompletion := false;
      ResetTimers();
      return true, Some(packet);
    }

    method GrantToSelf(captured: Packet) returns (packet: Packet)
      modifies this
      ensures Outcome(View(), Some(packet)) == GrantLocally(old(View()), captured)
    {
      epoch := Next(epoch);
      packet := captured.(sequence := sequence, source := id, owner := id, epoch := epoch, command := Grant);
      packet := packet.(event := EventId(id, packet.dialogue, packet.sequence, packet.command));
      SetActive(packet);
      pendingCompletion := false;
      appliedTriggerIds := appliedTriggerIds + {packet.trigger};
    }

    method ObserveLocalDialogueTrigger(d: nat, speaker: nat, rule: nat, response: nat, sendOk: bool)
      returns (sent: Option<Packet>)
      modifies this
      ensures Outcome(View(), sent) == ObserveTrigger(old(View()), d, speaker, rule, response, sendOk)
    {
      AdvanceSequence();
      if d == 0 || speaker == 0 || rule == 0 {
        return None;
      }
      var packet := EMPTY_PACKET.(sequence := sequence, source := id, owner := id, dialogue := d, speaker := speaker);
      packet := packet.(rule := rule, command := Request, response := response);
      packet := packet.(trigger := TriggerId(id, d, sequence, speaker, rule));
      packet := packet.(event := EventId(id, d, sequence, Request));

      if (dialogueId == d && ownerHash != 0) || pendingId == d {
        if ownerHash == id && dialogueId == d {
          seconds := 0.0;
          if packet.response != 0 {
            descriptor := descriptor.(response := packet.response);
          }
        }
        return None;
      }
      if ownerHash != 0 || pendingId != 0 {
        return None;
      }
      if role == Host {
        packet := GrantToSelf(packet);
        return Some(packet);
      }
      var _, request := RequestDialogueLease(packet, sendOk);
      return request;
    }

    method ObserveLocalDialogueActivity(d: nat, line: nat)
      modifies this`seconds, this`descriptor
      ensures View() == ObserveActivity(old(View()), d, line)
    {
      if d == 0 || dialogueId != d || ownerHash != id {
        return;
      }
      seconds := 0.0;
      if line != 0 {
        descriptor := descriptor.(response := line);
      }
    }

    method ReleaseLocalDialogueLease() returns (sent: Option<Packet>)
      modifies this
      ensures Outcome(View(), sent) == ReleaseLocalLease(old(View()))
    {
      if dialogueId == 0 || ownerHash != id {
        return None;
      }
      AdvanceSequence();
      var packet := BuildDialogueLeasePacket(Release);
      packet := packet.(owner := id, trigger := triggerEventId);
      ClearActiveDialogueLease();
      return Some(packet);
    }

    method OnLocalDialogueCompleted(d: nat) returns (sent: Option<Packet>)
      modifies this
      ensures Outcome(View(), sent) == CompleteDialogue(old(View()), d)
    {
      if d == 0 {
        return None;
      }
      if pendingId == d {
        pendingCompletion := true;
        return None;
      }
      if dialogueId != d || ownerHash != id {
        return None;
      }
      sent := ReleaseLocalDialogueLease();
    }

    method ShouldSuppressRemoteDialogueRetrigger(rule: nat) returns (suppress: bool)
      modifies this`seconds
      ensures View() == SuppressRetrigger(old(View()), rule)
      ensures suppress <==> rule != 0 && ActiveLease(View()).Some? && ruleId == rule && ownerHash != id
    {
      suppress := rule != 0 && ruleId == rule && ownerHash != 0 && ownerHash != id;
      if suppress {
        seconds := 0.0;
      }
    }

    method SetActive(grant: Packet)
      modifies this
      ensures View() == SetActiveLease(old(View()), grant)
    {
      SetIdentity(grant.dialogue, grant.owner, grant.trigger, grant.rule);
      epoch := grant.epoch;
      descriptor := grant;
      ResetTimers();
    }

    method ReplayGrantedDialogue(grant: Packet, nativeOk: bool) returns (done: bool)
      modifies this`appliedTriggerIds, this`nativeInvocations
      ensures ReplayResult(View(), done) == ReplayGranted(old(View()), grant, nativeOk)
    {
      if !CarriesTrigger(grant) {
        return false;
      }
      if grant.trigger in appliedTriggerIds {
        return true;
      }
      if !nativeOk {
        return false;
      }
      var held := Binding(dialogueId, ownerHash, triggerEventId, ruleId, epoch);
      nativeInvocations := nativeInvocations + [Invocation(grant.trigger, grant.dialogue, held)];
      appliedTriggerIds := appliedTriggerIds + {grant.trigger};
      return true;
    }

    method ApplyGrant(grant: Packet, nativeOk: bool) returns (sent: Option<Packet>)
      modifies this
      ensures Outcome(View(), sent) == ReplayOrDefer(old(View()), grant, nativeOk)
    {
      if grant.owner == id {
        appliedTriggerIds := appliedTriggerIds + {grant.trigger};
        if pendingCompletion {
          pendingCompletion := false;
          sent := ReleaseLocalDialogueLease();
          return;
        }
        return None;
      }
      var done := ReplayGrantedDialogue(grant, nativeOk);
      if !done {
        pendingReplay := grant;
        pendingReplayActive := true;
        pendingReplaySeconds := RETRY_SECONDS;
        return None;
      }
      ForgetPendingReplay();
      return None;
    }

    method MarkSeen(packet: Packet)
      modifies this`appliedEventIds
      ensures View() == Seen(old(View()), packet)
    {
      appliedEventIds := appliedEventIds + {packet.event};
    }

    method OnRequest(packet: Packet, nativeOk: bool) returns (sent: Option<Packet>)
      modifies this
      ensures Outcome(View(), sent) == HandleRequest(old(View()), packet, nativeOk)
    {
      if role != Host || !CarriesTrigger(packet) {
        return None;
      }
      var response: Packet;
      if ownerHash != 0 {
        if ownerHash == packet.source && triggerEventId == packet.trigger {
          AdvanceSequence();
          response := descriptor.(sequence := sequence, source := id, target := 0, owner := ownerHash);
          response := response.(epoch := epoch, command := Grant);
        } else {
          AdvanceSequence();
          response := packet.(sequence := sequence, source := id, target := packet.source, owner := ownerHash);
          response := response.(epoch := epoch, command := Deny);
        }
        response := response.(event := EventId(id, response.dialogue, response.sequence, response.command));
        MarkSeen(packet);
        return Some(response);
      }
      epoch := Next(epoch);
      AdvanceSequence();
      response := packet.(sequence := sequence, source := id, target := 0, owner := packet.source);
      response := response.(epoch := epoch, command := Grant);
      response := response.(event := EventId(id, response.dialogue, response.sequence, response.command));
      SetActive(response);
      var _ := ApplyGrant(response, nativeOk);
      MarkSeen(packet);
      return Some(response);
    }

    method OnGrant(packet: Packet, nativeOk: bool) returns (sent: Option<Packet>)
      modifies this
      ensures Outcome(View(), sent) == HandleGrant(old(View()), packet, nativeOk)
    {
      if role != Client || packet.epoch == 0 || packet.owner == 0 || !CarriesTrigger(packet) {
        return None;
      }
      if ownerHash != 0 && (packet.epoch < epoch || (packet.epoch == epoch && packet.trigger != triggerEventId)) {
        return None;
      }
      SetActive(packet);
      sent := ApplyGrant(packet, nativeOk);
      MarkSeen(packet);
    }

    method DropPendingRequest()
      modifies this`pendingId, this`triggerEventId, this`ruleId, this`descriptor, this`pendingCompletion
      ensures View() == old(View()).(pending := 0, trigger := NoTrigger, rule := 0, descriptor := EMPTY_PACKET,
                        completed := false)
    {
      pendingId := 0;
      triggerEventId := NoTrigger;
      ruleId := 0;
      descriptor := EMPTY_PACKET;
      pendingCompletion := false;
    }

    method OnDeny(packet: Packet)
      modifies this
      ensures View() == HandleDeny(old(View()), packet)
    {
      if pendingId == packet.dialogue && (triggerEventId == NoTrigger || packet.trigger == triggerEventId) {
        DropPendingRequest();
      }
      MarkSeen(packet);
    }

    method OnRelease(packet: Packet) returns (sent: Option<Packet>)
      modifies this
      ensures Outcome(View(), sent) == HandleRelease(old(View()), packet)
    {
      sent := None;
      if role == Host {
        if ownerHash != packet.source || dialogueId != packet.dialogue || epoch != packet.epoch ||
           triggerEventId != packet.trigger {
          return;
        }
        AdvanceSequence();
        var response := descriptor.(sequence := sequence, source := id, target := 0, owner := ownerHash);
        response := response.(command := Release);
        response := response.(event := EventId(id, response.dialogue, response.sequence, response.command));
        sent := Some(response);
      } else if dialogueId != 0 &&
                (dialogueId != packet.dialogue || epoch != packet.epoch || triggerEventId != packet.trigger) {
        return;
      }
      MarkSeen(packet);
      ClearActiveDialogueLease();
    }

    method HandleDialogueLease(packet: Packet, transport: nat, nativeOk: bool) returns (sent: Option<Packet>)
      modifies this
      ensures Outcome(View(), sent) == HandlePacket(old(View()), packet, transport, nativeOk)
      ensures CallsFreshTrigger(old(View()), View())
    {
      PacketCallsFresh(View(), packet, transport, nativeOk);
      hide CallsFreshTrigger;
      if packet.dialogue == 0 || packet.event == NoEvent || packet.source == 0 ||
         (packet.target != 0 && packet.target != id) ||
         !(transport == 0 || transport == packet.source) {
        return None;
      }
      if packet.event in appliedEventIds {
        return None;
      }
      sent := None;
      match packet.command {
        case Request =>
          sent := OnRequest(packet, nativeOk);
        case Grant =>
          sent := OnGrant(packet, nativeOk);
        case Deny =>
          OnDeny(packet);
        case Activity =>
          if role == Host && ownerHash == packet.source && dialogueId == packet.dialogue &&
             epoch == packet.epoch && triggerEventId == packet.trigger {
            seconds := 0.0;
            MarkSeen(packet);
          }
        case Release =>
          sent := OnRelease(packet);
        case Unknown =>
      }
    }

    method TickPendingReplay(frameTime: real, nativeOk: bool)
      modifies this
      ensures View() == TickReplay(old(View()), frameTime, nativeOk)
    {
      if !pendingReplayActive {
        return;
      }
      pendingReplaySeconds := pendingReplaySeconds - frameTime;
      if pendingReplaySeconds <= 0.0 && dialogueId == pendingReplay.dialogue &&
         triggerEventId == pendingReplay.trigger {
        var done := ReplayGrantedDialogue(pendingReplay, nativeOk);
        if done {
          ForgetPendingReplay();
        } else {
          pendingReplaySeconds := RETRY_SECONDS;
        }
      }
    }

    method SendActivityWhenDue(frameTime: real) returns (sent: Option<Packet>)
      requires ownerHash == id != 0 && role == Client
      modifies this`seconds, this`activitySendSeconds, this`sequence
      ensures Outcome(View(), sent) == TickLease(old(View()), frameTime)
    {
      seconds := seconds + frameTime;
      activitySendSeconds := activitySendSeconds + frameTime;
      if activitySendSeconds < ACTIVITY_SECONDS {
        return None;
      }
      AdvanceSequence();
      var activity := BuildDialogueLeasePacket(Activity);
      activitySendSeconds := 0.0;
      return Some(activity.(trigger := triggerEventId, owner := id));
    }

    method TickDialogueLease(frameTime: real, nativeOk: bool) returns (sent: Option<Packet>)
      modifies this
      ensures Outcome(View(), sent) == Tick(old(View()), frameTime, nativeOk)
      ensures CallsFreshTrigger(old(View()), View())
    {
      TickCallsFresh(View(), frameTime, nativeOk);
      hide CallsFreshTrigger;
      if frameTime <= 0.0 {
        return None;
      }
      TickPendingReplay(frameTime, nativeOk);
      if ownerHash == 0 {
        return None;
      }
      if ownerHash == id && role == Client {
        sent := SendActivityWhenDue(frameTime);
        return;
      }
      seconds := seconds + frameTime;
      if ownerHash == id || role != Host || seconds < TIMEOUT_SECONDS {
        return None;
      }
      AdvanceSequence();
      var release := BuildDialogueLeasePacket(Release);
      sent := Some(release.(owner := ownerHash, trigger := triggerEventId));
      ClearActiveDialogueLease();
    }
  }
}
