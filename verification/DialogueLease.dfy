/** CoopDialogueSync.cpp: what one peer does with the dialogue lease, as functions on its state.
    The class in DialogueNode.dfy carries the same fields and is proved against these functions.

    The 64-bit FNV ids are datatype values, so that different inputs give different ids and no id
    is the "none" value.  Identities (peers, dialogues, rules, speakers, responses) are naturals
    with 0 for "none". */
module DialogueLease {
  import opened SerialSequence

  const TIMEOUT_SECONDS := 20.0
  const ACTIVITY_SECONDS := 3.0
  const RETRY_SECONDS := 0.25

  datatype Role = Host | Client

  datatype Command = Request | Grant | Deny | Release | Activity | Unknown

  datatype TriggerId =
    | NoTrigger
    | TriggerId(source: nat, dialogue: nat, sequence: Serial, speaker: nat, rule: nat)

  datatype EventId =
    | NoEvent
    | EventId(source: nat, dialogue: nat, sequence: Serial, command: Command)

  datatype Packet = Packet(
    sequence: Serial, event: EventId, trigger: TriggerId, source: nat, target: nat, dialogue: nat,
    owner: nat, speaker: nat, rule: nat, response: nat, epoch: Serial, command: Command)

  const EMPTY_PACKET := Packet(0, NoEvent, NoTrigger, 0, 0, 0, 0, 0, 0, 0, 0, Request)

  /** What a grant promises: who owns which native trigger of which dialogue under which epoch. */
  datatype Binding = Binding(dialogue: nat, owner: nat, trigger: TriggerId, rule: nat, epoch: Serial)

  datatype Option<+T> = None | Some(value: T)

  /** One successful native TriggerRule invocation, with the lease the peer held at that moment. */
  datatype Invocation = Invocation(trigger: TriggerId, dialogue: nat, lease: Binding)

  datatype Peer = Peer(
    id: nat, role: Role,
    dialogue: nat, pending: nat, owner: nat, trigger: TriggerId, rule: nat, epoch: Serial,
    descriptor: Packet, seconds: real, activitySeconds: real, completed: bool,
    replayActive: bool, replay: Packet, replaySeconds: real,
    sequence: Serial, seen: set<EventId>, applied: set<TriggerId>, native: seq<Invocation>)

  /** The peer after a step, and the one packet the step may have handed to the transport. */
  datatype Outcome = Outcome(peer: Peer, sent: Option<Packet>)

  predicate SameIdentity(p: Peer, q: Peer) {
    p.id == q.id && p.role == q.role
  }

  /** A step keeps the peer's identity, and what it sends carries that identity and an event id made from it. */
  predicate Stamped(p: Peer, out: Outcome) {
    && SameIdentity(p, out.peer)
    && (out.sent.Some? ==>
          var m := out.sent.value;
          m.source == p.id && m.event == EventId(p.id, m.dialogue, m.sequence, m.command))
  }

  function FreshPeer(id: nat, role: Role): Peer {
    Peer(id, role, 0, 0, 0, NoTrigger, 0, 0, EMPTY_PACKET, 0.0, 0.0, false,
         false, EMPTY_PACKET, 0.0, 0, {}, {}, [])
  }

  function PacketBinding(m: Packet): Binding {
    Binding(m.dialogue, m.owner, m.trigger, m.rule, m.epoch)
  }

  function PeerBinding(p: Peer): Binding {
    Binding(p.dialogue, p.owner, p.trigger, p.rule, p.epoch)
  }

  /** The lease the peer believes to be active. */
  function ActiveLease(p: Peer): Option<Binding> {
    if p.owner == 0 then None else Some(PeerBinding(p))
  }

  predicate CarriesTrigger(m: Packet) {
    m.trigger != NoTrigger && m.dialogue != 0 && m.rule != 0 && m.speaker != 0
  }

  predicate TriggeredBy(trigger: TriggerId, peer: nat) {
    trigger.TriggerId? && trigger.source == peer
  }

  function Advance(p: Peer): Peer {
    p.(sequence := Next(p.sequence))
  }

  function Stamp(p: Peer, m: Packet, command: Command): Packet {
    m.(sequence := p.sequence, source := p.id, command := command,
       event := EventId(p.id, m.dialogue, p.sequence, command))
  }

  function BuildPacket(p: Peer, command: Command): Packet
  {
    var base := if p.descriptor.dialogue == p.dialogue then p.descriptor else EMPTY_PACKET.(dialogue := p.dialogue);
    Stamp(p, base.(target := 0, owner := p.owner, epoch := p.epoch), command)
  }

  function ClearLease(p: Peer): Peer {
    p.(dialogue := 0, pending := 0, owner := 0, trigger := NoTrigger, rule := 0, seconds := 0.0,
       activitySeconds := 0.0, completed := false, descriptor := EMPTY_PACKET,
       replayActive := false, replay := EMPTY_PACKET, replaySeconds := 0.0)
  }

  function SetActiveLease(p: Peer, grant: Packet): Peer {
    p.(dialogue := grant.dialogue, pending := 0, owner := grant.owner, trigger := grant.trigger,
       rule := grant.rule, epoch := grant.epoch, descriptor := grant, seconds := 0.0, activitySeconds := 0.0)
  }

  // ---- Local steps -------------------------------------------------------------------------

  function CapturedPacket(p: Peer, d: nat, speaker: nat, rule: nat, response: nat): Packet {
    Stamp(p,
          EMPTY_PACKET.(trigger := TriggerId(p.id, d, p.sequence, speaker, rule), dialogue := d, owner := p.id,
          speaker := speaker, rule := rule, response := response),
          Request)
  }

  function RequestLease(p: Peer, request: Packet, sendOk: bool): (out: Outcome)
    ensures Stamped(p, out)
  {
    if p.role != Client || !CarriesTrigger(request) then Outcome(p, None)
    else
      var q := Advance(p);
      var m := Stamp(q, request.(target := 0, owner := q.id, epoch := 0), Request);
      if !sendOk then Outcome(q, None)
      else
        Outcome(q.(pending := m.dialogue, trigger := m.trigger, rule := m.rule, descriptor := m,
                completed := false, seconds := 0.0, activitySeconds := 0.0),
                Some(m))
  }

  function GrantLocally(p: Peer, captured: Packet): (out: Outcome)
    ensures Stamped(p, out)
  {
    var q := p.(epoch := Next(p.epoch));
    var m := Stamp(q, captured.(owner := q.id, epoch := q.epoch), Grant);
    Outcome(q.(dialogue := m.dialogue, pending := 0, owner := q.id, trigger := m.trigger, rule := m.rule,
            descriptor := m, seconds := 0.0, activitySeconds := 0.0, completed := false,
            applied := q.applied + {m.trigger}),
            Some(m))
  }

  /** A native TriggerRule ran here and was not itself a replay.  A zero dialogue, speaker or rule
      stands for a capture that fails. */
  function ObserveTrigger(p: Peer, d: nat, speaker: nat, rule: nat, response: nat, sendOk: bool): (out: Outcome)
    ensures Stamped(p, out)
  {
    var q := Advance(p);
    if d == 0 || speaker == 0 || rule == 0 then Outcome(q, None)
    else if (q.dialogue == d && q.owner != 0) || q.pending == d then
      if q.owner == q.id && q.dialogue == d then
        Outcome(q.(seconds := 0.0,
                descriptor := if response != 0 then q.descriptor.(response := response) else q.descriptor),
                None)
      else Outcome(q, None)
    else if q.owner != 0 || q.pending != 0 then Outcome(q, None)
    else
      var m := CapturedPacket(q, d, speaker, rule, response);
      if q.role == Host then GrantLocally(q, m) else RequestLease(q, m, sendOk)
  }

  function ObserveActivity(p: Peer, d: nat, line: nat): Peer {
    if d == 0 || p.dialogue != d || p.owner != p.id then p
    else p.(seconds := 0.0, descriptor := if line != 0 then p.descriptor.(response := line) else p.descriptor)
  }

  function ReleaseLocalLease(p: Peer): (out: Outcome)
    ensures Stamped(p, out)
  {
    if p.dialogue == 0 || p.owner != p.id then Outcome(p, None)
    else
      var q := Advance(p);
      Outcome(ClearLease(q), Some(BuildPacket(q, Release).(owner := q.id, trigger := q.trigger)))
  }

  function CompleteDialogue(p: Peer, d: nat): (out: Outcome)
    ensures Stamped(p, out)
  {
    if d == 0 then Outcome(p, None)
    else if p.pending == d then Outcome(p.(completed := true), None)
    else if p.dialogue != d || p.owner != p.id then Outcome(p, None)
    else ReleaseLocalLease(p)
  }

  /** A native retrigger of the rule that is being mirrored: it is suppressed and counts as activity. */
  function SuppressRetrigger(p: Peer, rule: nat): Peer {
    if rule != 0 && p.rule == rule && p.owner != 0 && p.owner != p.id then p.(seconds := 0.0) else p
  }

  // ---- Replay ------------------------------------------------------------------------------

  datatype ReplayResult = ReplayResult(peer: Peer, done: bool)

  /** `nativeOk` says whether the guarded native call would find its speaker and return a conversation. */
  function ReplayGranted(p: Peer, grant: Packet, nativeOk: bool): (r: ReplayResult)
    ensures SameIdentity(p, r.peer)
  {
    if !CarriesTrigger(grant) then ReplayResult(p, false)
    else if grant.trigger in p.applied then ReplayResult(p, true)
    else if !nativeOk then ReplayResult(p, false)
    else
      ReplayResult(p.(applied := p.applied + {grant.trigger},
                   native := p.native + [Invocation(grant.trigger, grant.dialogue, PeerBinding(p))]),
                   true)
  }

  function ReplayOrDefer(p: Peer, grant: Packet, nativeOk: bool): (out: Outcome)
    ensures Stamped(p, out)
  {
    if grant.owner == p.id then
      var q := p.(applied := p.applied + {grant.trigger});
      if q.completed then ReleaseLocalLease(q.(completed := false)) else Outcome(q, None)
    else
      var r := ReplayGranted(p, grant, nativeOk);
      if r.done then
        Outcome(r.peer.(replayActive := false, replay := EMPTY_PACKET, replaySeconds := 0.0), None)
      else
        Outcome(r.peer.(replayActive := true, replay := grant, replaySeconds := RETRY_SECONDS), None)
  }

  // ---- Received packets --------------------------------------------------------------------

  predicate PassesGuard(p: Peer, m: Packet, transport: nat) {
    && m.dialogue != 0 && m.event != NoEvent && m.source != 0
    && (m.target == 0 || m.target == p.id)
    && (transport == 0 || transport == m.source)
  }

  function Seen(p: Peer, m: Packet): Peer {
    p.(seen := p.seen + {m.event})
  }

  /** The nested release of ReplayOrDefer cannot happen here: a host never waits for a grant, so it never
      remembers a completion (DialoguePeer.Coherent). */
  function HandleRequest(p: Peer, m: Packet, nativeOk: bool): (out: Outcome)
    ensures Stamped(p, out)
  {
    if p.role != Host || !CarriesTrigger(m) then Outcome(p, None)
    else if p.owner != 0 then
      var q := Advance(p);
      if p.owner == m.source && p.trigger == m.trigger then
        Outcome(Seen(q, m), Some(Stamp(q, q.descriptor.(target := 0, owner := q.owner, epoch := q.epoch), Grant)))
      else
        Outcome(Seen(q, m), Some(Stamp(q, m.(target := m.source, owner := q.owner, epoch := q.epoch), Deny)))
    else
      var q := Advance(p.(epoch := Next(p.epoch)));
      var grant := Stamp(q, m.(target := 0, owner := m.source, epoch := q.epoch), Grant);
      var out := ReplayOrDefer(SetActiveLease(q, grant), grant, nativeOk);
      Outcome(Seen(out.peer, m), Some(grant))
  }

  predicate GrantIsStale(p: Peer, m: Packet) {
    p.owner != 0 && (m.epoch < p.epoch || (m.epoch == p.epoch && m.trigger != p.trigger))
  }

  function HandleGrant(p: Peer, m: Packet, nativeOk: bool): (out: Outcome)
    ensures Stamped(p, out)
  {
    if p.role != Client || m.epoch == 0 || m.owner == 0 || !CarriesTrigger(m) then Outcome(p, None)
    else if GrantIsStale(p, m) then Outcome(p, None)
    else
      var out := ReplayOrDefer(SetActiveLease(p, m), m, nativeOk);
      Outcome(Seen(out.peer, m), out.sent)
  }

  function HandleDeny(p: Peer, m: Packet): (q: Peer)
    ensures SameIdentity(p, q)
  {
    if p.pending == m.dialogue && (p.trigger == NoTrigger || m.trigger == p.trigger) then
      Seen(p.(pending := 0, trigger := NoTrigger, rule := 0, descriptor := EMPTY_PACKET, completed := false), m)
    else Seen(p, m)
  }

  predicate NamesLease(p: Peer, m: Packet) {
    p.dialogue == m.dialogue && p.epoch == m.epoch && p.trigger == m.trigger
  }

  function HandleActivity(p: Peer, m: Packet): (q: Peer)
    ensures SameIdentity(p, q)
  {
    if p.role == Host && p.owner == m.source && NamesLease(p, m) then Seen(p.(seconds := 0.0), m) else p
  }

  function HandleRelease(p: Peer, m: Packet): (out: Outcome)
    ensures Stamped(p, out)
  {
    if p.role == Host then
      if p.owner != m.source || !NamesLease(p, m) then Outcome(p, None)
      else
        var q := Advance(p);
        Outcome(ClearLease(Seen(q, m)), Some(Stamp(q, q.descriptor.(target := 0, owner := q.owner), Release)))
    else if p.dialogue != 0 && !NamesLease(p, m) then Outcome(p, None)
    else Outcome(ClearLease(Seen(p, m)), None)
  }

  function HandlePacket(p: Peer, m: Packet, transport: nat, nativeOk: bool): (out: Outcome)
    ensures Stamped(p, out)
  {
    if !PassesGuard(p, m, transport) || m.event in p.seen then Outcome(p, None)
    else
      match m.command
      case Request => HandleRequest(p, m, nativeOk)
      case Grant => HandleGrant(p, m, nativeOk)
      case Deny => Outcome(HandleDeny(p, m), None)
      case Activity => Outcome(HandleActivity(p, m), None)
      case Release => HandleRelease(p, m)
      case Unknown => Outcome(p, None)
  }

  // ---- Time --------------------------------------------------------------------------------

  function TickReplay(p: Peer, dt: real, nativeOk: bool): (q: Peer)
    ensures SameIdentity(p, q)
  {
    if !p.replayActive then p
    else
      var q := p.(replaySeconds := p.replaySeconds - dt);
      if q.replaySeconds > 0.0 || q.dialogue != q.replay.dialogue || q.trigger != q.replay.trigger then q
      else
        var r := ReplayGranted(q, q.replay, nativeOk);
        if r.done then r.peer.(replayActive := false, replay := EMPTY_PACKET, replaySeconds := 0.0)
        else r.peer.(replaySeconds := RETRY_SECONDS)
  }

  function TickLease(p: Peer, dt: real): (out: Outcome)
    ensures Stamped(p, out)
  {
    if p.owner == 0 then Outcome(p, None)
    else
      var q := p.(seconds := p.seconds + dt);
      if q.owner == q.id then
        if q.role != Client then Outcome(q, None)
        else
          var r := q.(activitySeconds := q.activitySeconds + dt);
          if r.activitySeconds < ACTIVITY_SECONDS then Outcome(r, None)
          else
            var t := Advance(r);
            Outcome(t.(activitySeconds := 0.0),
                    Some(BuildPacket(t, Activity).(trigger := t.trigger, owner := t.id)))
      else if q.role != Host || q.seconds < TIMEOUT_SECONDS then Outcome(q, None)
      else
        var t := Advance(q);
        Outcome(ClearLease(t), Some(BuildPacket(t, Release).(owner := t.owner, trigger := t.trigger)))
  }

  function Tick(p: Peer, dt: real, nativeOk: bool): (out: Outcome)
    ensures Stamped(p, out)
  {
    if dt <= 0.0 then Outcome(p, None) else TickLease(TickReplay(p, dt, nativeOk), dt)
  }

  // ---- One step of a peer ------------------------------------------------------------------

  datatype Event =
    | TriggerRan(d: nat, speaker: nat, rule: nat, response: nat, sendOk: bool)
    | LinePlayed(d: nat, line: nat)
    | DialogueEnded(d: nat)
    | Retriggered(rule: nat)
    | OperatorRelease
    | OperatorRequest(sendOk: bool)
    | Elapsed(dt: real, nativeOk: bool)
    | Received(m: Packet, transport: nat, nativeOk: bool)

  function Perform(p: Peer, e: Event): (out: Outcome)
    ensures Stamped(p, out)
  {
    match e
    case TriggerRan(d, speaker, rule, response, sendOk) => ObserveTrigger(p, d, speaker, rule, response, sendOk)
    case LinePlayed(d, line) => Outcome(ObserveActivity(p, d, line), None)
    case DialogueEnded(d) => CompleteDialogue(p, d)
    case Retriggered(rule) => Outcome(SuppressRetrigger(p, rule), None)
    case OperatorRelease => ReleaseLocalLease(p)
    case OperatorRequest(sendOk) => RequestLease(p, p.descriptor, sendOk)
    case Elapsed(dt, nativeOk) => Tick(p, dt, nativeOk)
    case Received(m, transport, nativeOk) => HandlePacket(p, m, transport, nativeOk)
  }
}
