/** CoopEnemyControlPolicy.cpp, ResolveRemoteMotion: which legs a replicated enemy moves after a packet and for how
    long. The flag word is a set of flags, floats are reals, and a float the code asks isfinite of may be not finite. */
module EnemyMotion {

  datatype Float = Finite(r: real) | NonFinite

  datatype Mode = LocalOwner | LocalTargetRemoteOwner | RemoteObserver

  datatype Flag =
    | Walking | Running | Dashing | Shifting | Morphing | Attacking | HitReacting | Stunned | Cowering | Glooed
    | Turning | MannequinDriven | InCombat | MindControlled | PsiSuppressed | Lunging | Ragdolled

  type Flags = set<Flag>

  function Continuous(): Flags { {Walking, Running} }

  function BurstFlags(): Flags { {Dashing, Shifting, Morphing, Lunging} }

  function Movement(): Flags { Continuous() + BurstFlags() }

  function BodyLock(): Flags { {Glooed, Stunned, Cowering, Ragdolled} }

  function HardOverride(): Flags { {Glooed, Dashing, Shifting, Morphing, Lunging} }

  function Actions(): Flags { HardOverride() + {Attacking, HitReacting, Stunned, Cowering, Ragdolled} }

  function MovementBlocking(): Flags { BodyLock() + HardOverride() + {HitReacting} }

  function Passive(): Flags { {MannequinDriven, Turning, InCombat} }

  function Active(): Flags {
    {Attacking, HitReacting, Stunned, Cowering, Glooed, Dashing, Shifting, Morphing, Lunging}
  }

  const MAX_SPEED: real := 12.0

  predicate Has(flags: Flags, mask: Flags) {
    flags * mask != {}
  }

  predicate IsPassiveMannequin(flags: Flags) {
    Has(flags, Passive()) && !Has(flags, Active())
  }

  function Max(a: real, b: real): real {
    if a < b then b else a
  }

  function Min(a: real, b: real): real {
    if b < a then b else a
  }

  function Clamp(a: real, low: real, high: real): real {
    if a < low then low else if a > high then high else a
  }

  function WalkOrRun(speed: real, runSpeed: real): Flags {
    if speed > runSpeed then {Running} else {Walking}
  }

  datatype Decision = Decision(
    locomotionFlags: Flags, inferredMovementFlags: Flags, targetMotionFlags: Flags, actionTargetMotionFlags: Flags,
    filteredTargetSpeed: real, inferredTargetSpeed: real, actionTargetMotionSpeed: real, motionSeconds: real,
    strippedUnconfirmedActionMovement: bool, strippedHeldPassiveMovement: bool, heldPassiveMovementEvidence: bool,
    inferenceBlocked: bool, blockedPreviousMovementHold: bool, blockedPassiveDriftOnlyMotion: bool,
    inferredCatchupDrift: bool, heldPreviousMovement: bool, passiveActionMovementHoldEvidence: bool,
    passiveNonCarryActionMotionBlocked: bool, confirmedTargetMotion: bool, localTargetActionMotionEvidence: bool,
    remoteActionTargetMotionEvidence: bool, explicitBurstEvent: bool, snapBurstToAuthority: bool,
    currentMovementAnimationEvidence: bool, holdSuppressed: bool, activeActionBlockedMovementAnimation: bool)

  const NEUTRAL: Decision := Decision({}, {}, {}, {}, 0.0, 0.0, 0.0, 0.0, false, false, false, false, false, false,
      false, false,
                                      false, false, false, false, false, false, false, false, false, false)

  /** One packet and what the receiver remembers, with the conditions the decision is made of. In mixed attention
      none but the first few matter; in the other two modes they are simpler than the code writes them. */
  datatype Context = Context(
    mode: Mode, locomotionFlags: Flags, authorityPacketLocomotionFlags: Flags, previousLocomotionFlags: Flags,
    mannequinSequence: int, mannequinFragmentId: int, packetSpeed: Float, packetTargetStepLen: real,
    packetDeltaLen: real,
    previousFilteredTargetSpeed: Float, previousMotionSeconds: real, tickSeconds: real,
    movementIntentSpeedThreshold: real,
    minStep: real, minSpeed: real, catchupIntentDistance: real, receiverInferRunSpeed: real,
    passiveInferredMaxWalkSpeed: Float, movementHoldSeconds: real, hasExistingState: bool,
    existingRemoteLocomotionAuthority: bool, authorityGlooed: bool, inferenceDisabled: bool,
    heldAuthorityMannequin: bool,
    authorityMannequinMovementCarry: bool, authorityActionAllowsMovementAnimation: bool,
    activeRemoteActionBlocksMotionInference: bool, explicitBurstEvent: bool)
  {
    predicate Observer() { mode == RemoteObserver }

    predicate Burst() { explicitBurstEvent && Has(locomotionFlags, BurstFlags()) }

    function Tick(): (t: real) ensures t > 0.0 { Max(tickSeconds, 0.001) }

    function StepSpeed(): real { if packetTargetStepLen > 0.0001 then packetTargetStepLen / Tick() else 0.0 }

    function PreviousContinuous(): Flags { previousLocomotionFlags * Continuous() }

    predicate HasMannequin() { mannequinSequence != 0 && mannequinFragmentId >= 0 }

    predicate ExplicitMovement() { Has(authorityPacketLocomotionFlags, Movement()) }

    /** A running action forbids inferring movement the authority did not report. */
    predicate Forbids() { activeRemoteActionBlocksMotionInference && !ExplicitMovement() && !authorityGlooed }

    predicate FastPacket() { packetSpeed.Finite? && packetSpeed.r > movementIntentSpeedThreshold }

    predicate StepConfirms() {
      packetTargetStepLen >= Max(minStep * 2.5, 0.12) || (packetTargetStepLen >= minStep && packetDeltaLen > 0.10)
    }

    predicate StepAnimates() { packetTargetStepLen >= Max(minStep * 0.70, 0.035) }

    function Reported(): Flags { if Forbids() then locomotionFlags - Movement() else locomotionFlags }

    predicate ActionWhileWalking() {
      HasMannequin() && Has(Reported(), Actions()) && Has(Reported(), Continuous()) && !Has(Reported(), BurstFlags())
    }

    predicate ActionStandingStill() { HasMannequin() && Has(Reported(), Actions()) && !Has(Reported(), Movement()) }

    predicate Unconfirmed() { ActionWhileWalking() && !FastPacket() && !StepConfirms() }

    function Confirmed(): Flags { if Unconfirmed() then Reported() - Continuous() else Reported() }

    predicate PassiveMannequin() { HasMannequin() && IsPassiveMannequin(Confirmed()) }

    predicate HeldPassive() { heldAuthorityMannequin && PassiveMannequin() }

    function Stripped(): Flags { if HeldPassive() then Confirmed() - Movement() else Confirmed() }

    predicate PassiveStandingStill() { PassiveMannequin() && !Has(Stripped(), Continuous()) }

    predicate NonCarry() { PassiveStandingStill() && !authorityMannequinMovementCarry }

    /** The exponential filter on the speed of the target. */
    function Smoothed(): real {
      var previous := if previousFilteredTargetSpeed.Finite? then Clamp(previousFilteredTargetSpeed.r, 0.0, MAX_SPEED)
        else 0.0;
      if packetTargetStepLen > 0.006 then previous + (StepSpeed() - previous) * 0.45
      else (previous + (StepSpeed() - previous) * 0.18) * 0.65
    }

    function Filtered(): real {
      var cap := if passiveInferredMaxWalkSpeed.Finite? then Max(0.1, passiveInferredMaxWalkSpeed.r) else 1.8;
      var speed := Clamp(Smoothed(), 0.0, MAX_SPEED);
      if PassiveStandingStill() then Min(speed, cap) else speed
    }

    predicate NonCarryMoves() {
      && NonCarry() && !Forbids() && !Observer()
      && (|| StepConfirms()
          || (packetTargetStepLen >= Max(minStep * 2.0, 0.10) && StepSpeed() > minSpeed)
          || (packetTargetStepLen >= Max(minStep, 0.035) && packetDeltaLen > catchupIntentDistance * 0.75
              && Filtered() > minSpeed * 0.65))
    }

    predicate NonCarryBlocks() { NonCarry() && !NonCarryMoves() }

    predicate PassiveStepMoves() {
      && !NonCarryBlocks()
      && (StepConfirms() || (PassiveStandingStill() && packetTargetStepLen >= minStep && packetDeltaLen > 0.065))
    }

    predicate Residual() {
      || packetTargetStepLen >= Max(minStep * 1.6, 0.08)
      || (packetTargetStepLen >= minStep && packetDeltaLen > catchupIntentDistance * 0.50)
    }

    predicate Catchup() { packetDeltaLen > catchupIntentDistance * 0.50 && Filtered() > minSpeed * 0.45 }

    predicate WasMoving() { previousMotionSeconds > 0.0 && PreviousContinuous() != {} }

    predicate Grace() {
      && WasMoving() && ActionStandingStill() && authorityMannequinMovementCarry
      && Attacking in Stripped() && !Has(Stripped(), MovementBlocking())
    }

    predicate HoldEvidence() {
      && !Forbids() && WasMoving()
      && (Grace() || ((Residual() || Catchup()) && (StepSpeed() > minSpeed * 0.50 || Filtered() > minSpeed * 0.65)))
    }

    predicate PassiveHold() { PassiveStandingStill() && !NonCarryBlocks() && HoldEvidence() }

    predicate PassiveMoves() { PassiveStepMoves() || PassiveHold() }

    predicate ActionMoves() {
      PassiveMoves() || (!(Observer() && ActionStandingStill())
                         && ((FastPacket() && packetTargetStepLen >= minStep) || StepConfirms()))
    }

    predicate Blocked() {
      || Forbids()
      || (Observer() && ActionStandingStill())
      || (HasMannequin() && Has(Stripped(), MovementBlocking()))
      || (HeldPassive() && !PassiveStepMoves())
      || NonCarryBlocks()
      || (PassiveStandingStill() && !PassiveMoves())
      || (activeRemoteActionBlocksMotionInference && !ActionMoves()
          && (ActionStandingStill() || (!Has(Stripped(), Continuous()) && !HoldEvidence())))
    }

    /** The filtered speed once a blocking action has stopped it. */
    function Speed(): real { if Blocked() && !PassiveHold() then 0.0 else Filtered() }

    predicate MayInfer() {
      && !inferenceDisabled && !authorityGlooed && !Blocked() && !Has(Stripped(), Movement())
      && hasExistingState && existingRemoteLocomotionAuthority
    }

    predicate TargetMoved() {
      && MayInfer() && packetTargetStepLen >= minStep && StepSpeed() > minSpeed
      && (Speed() > minSpeed || PassiveMoves())
    }

    predicate ResidualEvidence() {
      if HeldPassive() then PassiveStepMoves()
      else if PassiveStandingStill() then PassiveMoves()
      else Residual() || Catchup() || Grace()
    }

    predicate DriftWalk() {
      MayInfer() && !TargetMoved() && packetDeltaLen > catchupIntentDistance && WasMoving() && ResidualEvidence()
    }

    function Inferred(): Flags {
      if TargetMoved() then WalkOrRun(Max(Speed(), StepSpeed()), receiverInferRunSpeed)
      else if DriftWalk() then PreviousContinuous()
      else {}
    }

    function Moving(): Flags { Stripped() + Inferred() }

    predicate ContinuousConfirmed() {
      && Has(authorityPacketLocomotionFlags, Continuous())
      && ((FastPacket() && packetTargetStepLen >= minStep * 0.70) || StepAnimates())
    }

    predicate ActiveActionAllows() {
      || !activeRemoteActionBlocksMotionInference || ExplicitMovement()
      || (HasMannequin() && authorityActionAllowsMovementAnimation) || Has(Reported(), HardOverride())
    }

    predicate Animates() {
      && (!HasMannequin() || authorityActionAllowsMovementAnimation || ContinuousConfirmed()
          || Has(Reported(), HardOverride()))
      && ActiveActionAllows()
      && (Burst() || StepAnimates() || TargetMoved())
    }

    function Remaining(): real { Max(0.0, previousMotionSeconds - Tick()) }

    predicate WouldHold() { Remaining() > 0.0 && PreviousContinuous() != {} && ResidualEvidence() }
  }

  // ---- The decision --------------------------------------------------------------------------

  /** Mixed attention: the authority's walking and running bits are the legs, nothing else is. */
  function Mixed(c: Context): Decision {
    var legs := c.authorityPacketLocomotionFlags * Continuous();
    var packet := if c.packetSpeed.Finite? then Max(0.0, c.packetSpeed.r) else 0.0;
    NEUTRAL.(locomotionFlags := c.locomotionFlags - Continuous() + legs,
             explicitBurstEvent := c.Burst(),
             inferredTargetSpeed := c.StepSpeed(),
             filteredTargetSpeed := Clamp(Max(packet, c.StepSpeed()), 0.0, MAX_SPEED),
             currentMovementAnimationEvidence := legs != {},
             motionSeconds := if legs != {} then c.movementHoldSeconds else 0.0,
             targetMotionFlags := legs)
  }

  /** What holds of the decision before the legs are settled. */
  function Gathered(c: Context): Decision {
    NEUTRAL.(locomotionFlags := c.Moving(),
             inferredMovementFlags := c.Inferred(),
             filteredTargetSpeed := c.Speed(),
             inferredTargetSpeed := c.StepSpeed(),
             strippedUnconfirmedActionMovement := (c.Forbids() && Has(c.locomotionFlags, Movement()))
               || c.Unconfirmed(),
             strippedHeldPassiveMovement := c.HeldPassive() && Has(c.Confirmed(), Movement()),
             heldPassiveMovementEvidence := c.HeldPassive() && c.PassiveStepMoves(),
             inferenceBlocked := c.Blocked(),
             blockedPassiveDriftOnlyMotion := c.PassiveStandingStill() && c.packetDeltaLen > c.catchupIntentDistance
               && !c.PassiveStepMoves(),
             inferredCatchupDrift := c.DriftWalk(),
             heldPreviousMovement := c.DriftWalk(),
             passiveActionMovementHoldEvidence := c.PassiveHold(),
             passiveNonCarryActionMotionBlocked := c.NonCarryBlocks(),
             confirmedTargetMotion := c.TargetMoved(),
             explicitBurstEvent := c.Burst(),
             currentMovementAnimationEvidence := c.Animates(),
             activeActionBlockedMovementAnimation := c.activeRemoteActionBlocksMotionInference
               && !c.ActiveActionAllows())
  }

  /** The hold of the legs, from what is known of it. */
  datatype Hold = Hold(seconds: real, remaining: real, would: bool, legs: Flags)

  function HoldOf(c: Context): Hold {
    Hold(c.movementHoldSeconds, c.Remaining(), c.WouldHold(), c.PreviousContinuous())
  }

  /** Without a movement bit the time left runs down; until then the previous legs may go on. */
  function Coasted(h: Hold, d: Decision): Decision {
    if h.would && !d.inferenceBlocked then
      d.(motionSeconds := h.remaining, locomotionFlags := d.locomotionFlags + h.legs,
         targetMotionFlags := h.legs, heldPreviousMovement := true)
    else
      d.(motionSeconds := h.remaining, blockedPreviousMovementHold := h.would,
         filteredTargetSpeed := if h.remaining <= 0.0 then 0.0 else d.filteredTargetSpeed)
  }

  function Settled(glooed: bool, h: Hold, d: Decision): Decision {
    if glooed then d.(filteredTargetSpeed := 0.0)
    else if !Has(d.locomotionFlags, Continuous()) then Coasted(h, d)
    else if d.currentMovementAnimationEvidence then
      d.(motionSeconds := h.seconds, targetMotionFlags := d.locomotionFlags * Continuous())
    else d.(holdSuppressed := true)
  }

  function Resolved(c: Context): Decision {
    if c.mode == LocalTargetRemoteOwner then Mixed(c) else Settled(c.authorityGlooed, HoldOf(c), Gathered(c))
  }

  // ---- What every decision keeps -------------------------------------------------------------

  predicate IsSane(d: Decision, hold: real) {
    && d.targetMotionFlags <= d.locomotionFlags && d.targetMotionFlags <= Continuous()
    && 0.0 <= d.filteredTargetSpeed <= MAX_SPEED
    && (hold > 0.0 && d.targetMotionFlags != {} ==> d.motionSeconds > 0.0)
    && (hold >= 0.0 ==> d.motionSeconds >= 0.0)
  }

  lemma SpeedIsInRange(c: Context)
    ensures 0.0 <= c.Speed() <= MAX_SPEED
  {
    hide c.Smoothed, c.PassiveStandingStill, c.Blocked, c.PassiveHold;
  }

  predicate HoldOk(h: Hold) {
    h.remaining >= 0.0 && h.legs <= Continuous() && (h.would ==> h.remaining > 0.0)
  }

  /** The time left runs down by the tick or drops to zero, and with it the legs stop. */
  predicate RunsDown(h: Hold, d: Decision) {
    && (d.motionSeconds == 0.0 || d.motionSeconds == h.remaining)
    && (d.motionSeconds <= 0.0 ==> d.targetMotionFlags == {})
  }

  predicate IsUnsettled(d: Decision) {
    d.targetMotionFlags == {} && d.motionSeconds == 0.0 && 0.0 <= d.filteredTargetSpeed <= MAX_SPEED
  }

  lemma HeldIsSane(h: Hold, d: Decision)
    requires IsUnsettled(d) && HoldOk(h) && h.would && !d.inferenceBlocked
    ensures IsSane(Coasted(h, d), h.seconds) && RunsDown(h, Coasted(h, d))
  {
  }

  lemma ReleasedIsSane(h: Hold, d: Decision)
    requires IsUnsettled(d) && HoldOk(h) && !(h.would && !d.inferenceBlocked)
    ensures IsSane(Coasted(h, d), h.seconds) && RunsDown(h, Coasted(h, d))
  {
  }

  lemma ContinuedIsSane(glooed: bool, h: Hold, d: Decision)
    requires IsUnsettled(d) && (glooed || Has(d.locomotionFlags, Continuous()))
    ensures IsSane(Settled(glooed, h, d), h.seconds)
    ensures !d.currentMovementAnimationEvidence ==> RunsDown(h, Settled(glooed, h, d))
  {
    hide Continuous, Coasted, Has;
  }

  lemma SettledIsSane(glooed: bool, h: Hold, d: Decision)
    requires IsUnsettled(d) && HoldOk(h)
    ensures IsSane(Settled(glooed, h, d), h.seconds)
    ensures !d.currentMovementAnimationEvidence ==> RunsDown(h, Settled(glooed, h, d))
  {
    if glooed || Has(d.locomotionFlags, Continuous()) {
      ContinuedIsSane(glooed, h, d);
      hide *;
    } else {
      assert Settled(glooed, h, d) == Coasted(h, d);
      hide *;
      if h.would && !d.inferenceBlocked {
        HeldIsSane(h, d);
      } else {
        ReleasedIsSane(h, d);
      }
    }
  }

  lemma HoldIsOk(c: Context)
    ensures HoldOk(HoldOf(c))
  {
    hide c.ResidualEvidence;
  }

  /** The legs that move are among the flags and only walk or run; the speed is in range; legs move for some time. */
  lemma DecisionIsSane(c: Context)
    ensures IsSane(Resolved(c), c.movementHoldSeconds)
  {
    if c.mode != LocalTargetRemoteOwner {
      SpeedIsInRange(c);
      HoldIsOk(c);
      SettledIsSane(c.authorityGlooed, HoldOf(c), Gathered(c));
    }
    hide Settled, c.Speed, HoldOk;
  }

  /** In mixed attention no action, effect or drift of the receiver invents or suppresses a leg. */
  lemma MixedLegsAreTheAuthoritys(c: Context)
    requires c.mode == LocalTargetRemoteOwner
    ensures var d := Resolved(c);
            && d.locomotionFlags * Continuous() == c.authorityPacketLocomotionFlags * Continuous() ==
               d.targetMotionFlags
            && d.locomotionFlags - Continuous() == c.locomotionFlags - Continuous()
            && (d.motionSeconds > 0.0 ==> d.targetMotionFlags != {})
  {
  }

  /** A packet that reports no movement and no step worth an inference. */
  predicate IsQuiet(c: Context) {
    && !Has(c.locomotionFlags, Movement()) && !c.ExplicitMovement()
    && !c.StepAnimates() && !(c.packetTargetStepLen >= c.minStep && c.StepSpeed() > c.minSpeed)
  }

  /** A packet without movement bits and with no step at all is quiet, whatever the thresholds on the step are. */
  lemma ZeroStepIsQuiet(c: Context)
    requires !Has(c.locomotionFlags, Movement()) && !c.ExplicitMovement()
    requires c.packetTargetStepLen == 0.0 && c.minSpeed >= 0.0
    ensures IsQuiet(c)
  {
  }

  lemma QuietPacketDoesNotAnimate(c: Context)
    requires IsQuiet(c)
    ensures !c.Animates()
  {
  }

  /** A quiet packet never re-arms the hold. */
  lemma QuietPacketRunsDown(c: Context)
    requires IsQuiet(c)
    ensures var d := Resolved(c);
            && (d.motionSeconds == 0.0 || d.motionSeconds == Max(0.0, c.previousMotionSeconds - c.Tick()))
            && (d.motionSeconds <= 0.0 ==> d.targetMotionFlags == {})
  {
    if c.mode != LocalTargetRemoteOwner {
      QuietPacketDoesNotAnimate(c);
      HoldIsOk(c);
      SpeedIsInRange(c);
      SettledIsSane(c.authorityGlooed, HoldOf(c), Gathered(c));
      hide c.Animates, Settled, HoldOk, c.Speed;
    }
  }

  /** Packets in a row, each with the hold the one before left. */
  ghost predicate IsFed(cs: seq<Context>) {
    forall i :: 0 < i < |cs| ==> FedAt(cs, i)
  }

  predicate FedAt(cs: seq<Context>, i: int)
    requires 0 < i < |cs|
  {
    cs[i].previousMotionSeconds == Resolved(cs[i - 1]).motionSeconds
  }

  ghost predicate QuietUpTo(cs: seq<Context>, tick: real, n: nat) {
    forall j :: 0 <= j < n && j < |cs| ==> QuietAt(cs[j], tick)
  }

  function Ticks(n: nat, tick: real): real {
    n as real * tick
  }

  predicate QuietAt(c: Context, tick: real) {
    IsQuiet(c) && c.Tick() >= tick
  }

  /** Over any run of quiet packets the hold dies out: after n of them at most what n ticks leave, and once zero it
      stays zero with the legs still. */
  lemma {:induction false} HoldDiesOut(cs: seq<Context>, tick: real, n: nat)
    requires 0 < n <= |cs| && IsFed(cs) && tick >= 0.0 && cs[0].previousMotionSeconds >= 0.0 && QuietUpTo(cs, tick, n)
    ensures var d := Resolved(cs[n - 1]);
            && 0.0 <= d.motionSeconds <= Max(0.0, cs[0].previousMotionSeconds - Ticks(n, tick))
            && (d.motionSeconds == 0.0 ==> d.targetMotionFlags == {})
  {
    var c := cs[n - 1];
    assert QuietAt(c, tick);
    QuietPacketRunsDown(c);
    assert n > 1 ==> FedAt(cs, n - 1);
    hide Resolved, IsQuiet, IsFed, Max, Ticks;
    if n > 1 {
      HoldDiesOut(cs, tick, n - 1);
    }
    TickTaken(cs[0].previousMotionSeconds, n - 1, tick, c.previousMotionSeconds, c.Tick(), Resolved(c).motionSeconds);
  }

  lemma TickTaken(start: real, i: nat, tick: real, left: real, taken: real, next: real)
    requires start >= 0.0 && tick >= 0.0 && taken >= tick
    requires if i == 0 then left == start else 0.0 <= left <= Max(0.0, start - Ticks(i, tick))
    requires next == 0.0 || next == Max(0.0, left - taken)
    ensures 0.0 <= next <= Max(0.0, start - Ticks(i + 1, tick))
  {
    assert Ticks(i + 1, tick) == Ticks(i, tick) + tick;
    hide Ticks;
  }

  // ---- The code, step by step ----------------------------------------------------------------

  method ResolveMixed(c: Context) returns (d: Decision)
    ensures d == Mixed(c)
  {
    d := NEUTRAL.(locomotionFlags := c.locomotionFlags, explicitBurstEvent := c.explicitBurstEvent
                  && Has(c.locomotionFlags, BurstFlags()));
    var authorityContinuousFlags := c.authorityPacketLocomotionFlags * Continuous();
    d := d.(locomotionFlags := d.locomotionFlags - Continuous());
    d := d.(locomotionFlags := d.locomotionFlags + authorityContinuousFlags);
    var tick := Max(c.tickSeconds, 0.001);
    var targetSpeed := if c.packetTargetStepLen > 0.0001 then c.packetTargetStepLen / tick else 0.0;
    var packetSpeed := if c.packetSpeed.Finite? then Max(0.0, c.packetSpeed.r) else 0.0;
    d := d.(inferredTargetSpeed := targetSpeed, filteredTargetSpeed := Clamp(Max(packetSpeed, targetSpeed), 0.0, 12.0));
    d := d.(currentMovementAnimationEvidence := authorityContinuousFlags != {},
            motionSeconds := if authorityContinuousFlags != {} then c.movementHoldSeconds else 0.0,
            targetMotionFlags := authorityContinuousFlags);
  }

  /** The movement bits that nothing confirms are taken from the flags. */
  method StripMovement(c: Context) returns (flags: Flags, strippedUnconfirmed: bool, strippedHeld: bool, passive: bool)
    ensures flags == c.Stripped() && passive == c.PassiveMannequin()
    ensures strippedUnconfirmed == ((c.Forbids() && Has(c.locomotionFlags, Movement())) || c.Unconfirmed())
    ensures strippedHeld == (c.HeldPassive() && Has(c.Confirmed(), Movement()))
  {
    flags, strippedUnconfirmed, strippedHeld := c.locomotionFlags, false, false;
    var hasMannequin := c.mannequinSequence != 0 && c.mannequinFragmentId >= 0;
    var explicitAuthorityMovementBits := Has(c.authorityPacketLocomotionFlags, Movement());
    var forbids := c.activeRemoteActionBlocksMotionInference && !explicitAuthorityMovementBits && !c.authorityGlooed;
    if forbids && Has(flags, Movement()) {
      flags, strippedUnconfirmed := flags - Movement(), true;
    }
    assert flags == c.Reported() by { hide Movement; }
    var actionWithMovement := hasMannequin && Has(flags, Actions()) && Has(flags, Continuous())
      && !Has(flags, BurstFlags());
    var packetConfirms := (c.packetSpeed.Finite? && c.packetSpeed.r > c.movementIntentSpeedThreshold
                           && c.packetTargetStepLen >= c.minStep)
                          || c.StepConfirms();
    var explicitActionMovement := actionWithMovement && c.packetSpeed.Finite?
      && c.packetSpeed.r > c.movementIntentSpeedThreshold;
    if actionWithMovement && !packetConfirms && !explicitActionMovement {
      flags, strippedUnconfirmed := flags - Continuous(), true;
    }
    assert flags == c.Confirmed();
    passive := hasMannequin && IsPassiveMannequin(flags);
    var held := c.heldAuthorityMannequin && passive;
    if held && Has(flags, Movement()) {
      PassiveWithoutMovement(flags);
      flags, strippedHeld := flags - Movement(), true;
      passive := IsPassiveMannequin(flags);
    }
  }

  lemma PassiveWithoutMovement(flags: Flags)
    ensures IsPassiveMannequin(flags) ==> IsPassiveMannequin(flags - Movement())
  {
  }

  method FilterSpeed(c: Context, passiveStandingStill: bool) returns (instantaneous: real, filtered: real)
    requires passiveStandingStill == c.PassiveStandingStill()
    ensures instantaneous == c.StepSpeed() && filtered == c.Filtered()
  {
    var maxWalkSpeed := if c.passiveInferredMaxWalkSpeed.Finite? then Max(0.1, c.passiveInferredMaxWalkSpeed.r)
      else 1.8;
    var tick := Max(c.tickSeconds, 0.001);
    instantaneous := if c.packetTargetStepLen > 0.0001 then c.packetTargetStepLen / tick else 0.0;
    var previous := if c.previousFilteredTargetSpeed.Finite? then Clamp(c.previousFilteredTargetSpeed.r, 0.0, 12.0)
      else 0.0;
    var hasTargetStep := c.packetTargetStepLen > 0.006;
    var blend := if hasTargetStep then 0.45 else 0.18;
    filtered := previous + (instantaneous - previous) * blend;
    if !hasTargetStep {
      filtered := filtered * 0.65;
    }
    filtered := Clamp(filtered, 0.0, 12.0);
    if passiveStandingStill {
      filtered := Min(filtered, maxWalkSpeed);
    }
  }

  /** Whether a step of the target or the previous movement speaks for moving legs. */
  method MovementEvidence(c: Context, flags: Flags, passive: bool, instantaneous: real, filtered: real)
    returns (nonCarryBlocks: bool, passiveStep: bool, passiveHold: bool, holdEvidence: bool, residual: bool)
    requires flags == c.Stripped() && passive == c.PassiveMannequin()
    requires instantaneous == c.StepSpeed() && filtered == c.Filtered()
    ensures nonCarryBlocks == c.NonCarryBlocks() && passiveStep == c.PassiveStepMoves()
            && passiveHold == c.PassiveHold()
    ensures holdEvidence == c.HoldEvidence() && residual == c.ResidualEvidence()
  {
    var remoteObserver := c.mode == RemoteObserver;
    var step, delta := c.packetTargetStepLen, c.packetDeltaLen;
    var forbids := c.activeRemoteActionBlocksMotionInference && !Has(c.authorityPacketLocomotionFlags, Movement())
      && !c.authorityGlooed;
    var fastPacket := c.packetSpeed.Finite? && c.packetSpeed.r > c.movementIntentSpeedThreshold;
    var stepConfirms := step >= Max(c.minStep * 2.5, 0.12) || (step >= c.minStep && delta > 0.10);
    var held := c.heldAuthorityMannequin && passive;
    var standingStill := passive && !Has(flags, Continuous());
    var nonCarry := standingStill && !c.authorityMannequinMovementCarry;
    var previousContinuous := c.PreviousContinuous();
    assert forbids == c.Forbids() && standingStill == c.PassiveStandingStill() && nonCarry == c.NonCarry();
    assert fastPacket == c.FastPacket() && stepConfirms == c.StepConfirms() && held == c.HeldPassive();
    hide c.Forbids, c.PassiveStandingStill, c.NonCarry, c.Stripped, c.Filtered, c.StepSpeed, c.HeldPassive,
      c.PassiveMannequin;
    hide c.PreviousContinuous, c.ActionStandingStill, Has;
    var nonCarryStrong := nonCarry && !forbids && !remoteObserver
                          && (stepConfirms
                              || (step >= Max(c.minStep * 2.0, 0.10) && instantaneous > c.minSpeed)
                              || (step >= c.minStep && delta > 0.10 && instantaneous > c.minSpeed * 0.75)
                              || (step >= Max(c.minStep, 0.035) && delta > c.catchupIntentDistance * 0.75
                                  && filtered > c.minSpeed * 0.65));
    nonCarryBlocks := nonCarry && !nonCarryStrong;
    assert nonCarryBlocks == c.NonCarryBlocks();
    hide c.NonCarryBlocks;
    passiveStep := (!nonCarry || nonCarryStrong)
                   && (stepConfirms
                       || (standingStill && step >= c.minStep && delta > 0.065)
                       || (fastPacket && step >= c.minStep && delta > 0.10));
    assert passiveStep == c.PassiveStepMoves();
    hide c.PassiveStepMoves, c.StepConfirms, c.FastPacket;
    var residualStep := step >= Max(c.minStep * 1.6, 0.08)
      || (step >= c.minStep && delta > c.catchupIntentDistance * 0.50);
    var speedEvidence := instantaneous > c.minSpeed * 0.50 || filtered > c.minSpeed * 0.65;
    var catchup := delta > c.catchupIntentDistance * 0.50 && filtered > c.minSpeed * 0.45;
    assert residualStep == c.Residual() && catchup == c.Catchup();
    hide c.Residual, c.Catchup;
    var actionCanCarry := c.ActionStandingStill() && c.authorityMannequinMovementCarry && Attacking in flags
      && !Has(flags, MovementBlocking());
    var grace := actionCanCarry && c.previousMotionSeconds > 0.0 && previousContinuous != {};
    assert grace == c.Grace();
    hide c.Grace;
    holdEvidence := !forbids && c.previousMotionSeconds > 0.0 && previousContinuous != {}
                    && (((residualStep || catchup) && speedEvidence) || grace);
    assert holdEvidence == c.HoldEvidence();
    hide c.HoldEvidence;
    passiveHold := standingStill && (!nonCarry || nonCarryStrong) && holdEvidence;
    var passiveStrong := passiveStep || passiveHold;
    var heldEvidence := held && passiveStep;
    residual := if held then heldEvidence else if standingStill then passiveStrong
      else residualStep || catchup || grace;
  }

  /** Whether an action forbids inferring a movement. Outside mixed attention the evidence of a moving action is
      never strong and never local: those branches of the code are dead, and with them its speed and its flags. */
  method BlockingEvidence(c: Context, flags: Flags, passive: bool, instantaneous: real, filtered: real,
                          nonCarryBlocks: bool, passiveStep: bool, passiveHold: bool, holdEvidence: bool)
    returns (blocked: bool, strongAction: bool, localTargetAction: bool)
    requires c.mode != LocalTargetRemoteOwner && flags == c.Stripped() && passive == c.PassiveMannequin()
    requires nonCarryBlocks == c.NonCarryBlocks() && passiveStep == c.PassiveStepMoves()
             && passiveHold == c.PassiveHold()
    requires holdEvidence == c.HoldEvidence()
    ensures blocked == c.Blocked() && !strongAction && !localTargetAction
  {
    var localTarget, remoteObserver := c.mode == LocalTargetRemoteOwner, c.mode == RemoteObserver;
    var hasMannequin := c.mannequinSequence != 0 && c.mannequinFragmentId >= 0;
    var step, delta := c.packetTargetStepLen, c.packetDeltaLen;
    var forbids := c.activeRemoteActionBlocksMotionInference && !Has(c.authorityPacketLocomotionFlags, Movement())
      && !c.authorityGlooed;
    var standingAction := c.ActionStandingStill();
    var fastPacket := c.packetSpeed.Finite? && c.packetSpeed.r > c.movementIntentSpeedThreshold;
    var stepConfirms := step >= Max(c.minStep * 2.5, 0.12) || (step >= c.minStep && delta > 0.10);
    var packetConfirms := (fastPacket && step >= c.minStep) || stepConfirms;
    var held := c.heldAuthorityMannequin && passive;
    var standingStill := passive && !Has(flags, Continuous());
    assert hasMannequin == c.HasMannequin() && forbids == c.Forbids() && standingStill == c.PassiveStandingStill();
    assert fastPacket == c.FastPacket() && stepConfirms == c.StepConfirms() && held == c.HeldPassive();
    assert standingAction ==> hasMannequin;
    assert passive ==> hasMannequin;
    assert nonCarryBlocks ==> standingStill;
    hide c.Forbids, c.PassiveStandingStill, c.NonCarryBlocks, c.PassiveStepMoves, c.PassiveHold, c.HoldEvidence,
      c.HasMannequin;
    hide c.FastPacket, c.StepConfirms, c.HeldPassive, c.ActionStandingStill, c.Stripped, c.PassiveMannequin, Has, Max;
    var passiveStrong := passiveStep || passiveHold;
    var remoteAction := (localTarget || remoteObserver) && standingAction;
    var stationary := remoteAction && (remoteObserver || localTarget);
    var mayInfer := remoteAction && c.authorityMannequinMovementCarry;
    strongAction := remoteAction && mayInfer && !forbids && localTarget && !c.authorityGlooed
                    && delta > Max(c.minStep, 0.075)
                    && (stepConfirms || packetConfirms
                        || (step >= Max(c.minStep * 2.0, 0.10) && instantaneous > c.minSpeed * 1.25)
                        || (step >= Max(c.minStep, 0.050) && delta > c.catchupIntentDistance * 0.75
                            && filtered > c.minSpeed));
    var remoteActionStep := !forbids && (!stationary || strongAction) && remoteAction && mayInfer
                            && step >= Max(c.minStep * 1.5, 0.075) && instantaneous > c.minSpeed
                            && (delta > Max(c.minStep * 1.2, 0.060) || filtered > c.minSpeed * 0.65);
    var actionStep := (!stationary && (stepConfirms || packetConfirms || remoteActionStep)) || passiveStrong
      || passiveHold;
    assert actionStep == c.ActionMoves();
    localTargetAction := localTarget && remoteAction && !forbids && actionStep;
    blocked := forbids
               || (hasMannequin
                   && ((stationary && !strongAction)
                       || (remoteAction && !actionStep && !strongAction)
                       || Has(flags, MovementBlocking())
                       || (c.activeRemoteActionBlocksMotionInference && standingAction && !actionStep && !strongAction)
                       || (held && !(held && passiveStep))
                       || nonCarryBlocks
                       || (standingStill && !passiveStrong)));
    if c.activeRemoteActionBlocksMotionInference && !Has(flags, Continuous()) && !actionStep && !holdEvidence
      && !strongAction {
      blocked := true;
    }
  }

  method InferMovement(c: Context, flags: Flags, speed: real, instantaneous: real, blocked: bool, passiveStrong: bool,
      residual: bool)
    returns (inferred: Flags, targetMoved: bool, drift: bool, heldPrevious: bool)
    requires flags == c.Stripped() && speed == c.Speed() && instantaneous == c.StepSpeed() && blocked == c.Blocked()
    requires passiveStrong == c.PassiveMoves() && residual == c.ResidualEvidence()
    ensures inferred == c.Inferred() && targetMoved == c.TargetMoved() && drift == heldPrevious == c.DriftWalk()
  {
    inferred, targetMoved, drift, heldPrevious := {}, false, false, false;
    hide c.Stripped, c.Speed, c.StepSpeed, c.Blocked, c.PassiveMoves, c.ResidualEvidence, Has;
    if !c.inferenceDisabled && !c.authorityGlooed && !blocked && !Has(flags, Movement()) && c.hasExistingState
       && c.existingRemoteLocomotionAuthority {
      targetMoved := c.packetTargetStepLen >= c.minStep && instantaneous > c.minSpeed
        && (speed > c.minSpeed || passiveStrong);
      var previousContinuous := c.PreviousContinuous();
      var mayHold := c.previousMotionSeconds > 0.0 && previousContinuous != {} && residual;
      var needsCatchupWalk := c.packetDeltaLen > c.catchupIntentDistance && (targetMoved || mayHold);
      if targetMoved || needsCatchupWalk {
        drift := needsCatchupWalk && !targetMoved;
        if targetMoved || previousContinuous == {} {
          inferred := WalkOrRun(Max(speed, instantaneous), c.receiverInferRunSpeed);
        } else {
          inferred, heldPrevious := previousContinuous, true;
        }
      }
    }
  }

  /** What lets the movement animation play. */
  method AnimationEvidence(c: Context, targetMoved: bool, heldPrevious: bool)
      returns (evidence: bool, actionBlocks: bool)
    requires targetMoved == c.TargetMoved()
    ensures evidence == c.Animates()
    ensures actionBlocks == (c.activeRemoteActionBlocksMotionInference && !c.ActiveActionAllows())
  {
    var hasMannequin := c.mannequinSequence != 0 && c.mannequinFragmentId >= 0;
    var reported := c.Reported();
    var fastPacket := c.packetSpeed.Finite? && c.packetSpeed.r > c.movementIntentSpeedThreshold;
    var explicitContinuous := Has(c.authorityPacketLocomotionFlags, Continuous())
                              && ((fastPacket && c.packetTargetStepLen >= c.minStep * 0.70)
                                  || c.packetTargetStepLen >= Max(c.minStep * 0.70, 0.035));
    assert explicitContinuous == c.ContinuousConfirmed();
    var hardOrBurst := Has(reported, HardOverride() + BurstFlags());
    BurstIsHard(reported);
    hide c.ContinuousConfirmed, c.TargetMoved, c.Reported, Has, Movement, HardOverride, BurstFlags;
    var allowed := !hasMannequin || c.authorityActionAllowsMovementAnimation || explicitContinuous || hardOrBurst;
    var activeAllows := !c.activeRemoteActionBlocksMotionInference || Has(c.authorityPacketLocomotionFlags, Movement())
                        || (hasMannequin && c.authorityActionAllowsMovementAnimation) || hardOrBurst;
    actionBlocks := c.activeRemoteActionBlocksMotionInference && !activeAllows;
    var stepAnimates := c.packetTargetStepLen >= Max(c.minStep * 0.70, 0.035);
    evidence := allowed && activeAllows
                && ((c.explicitBurstEvent && Has(c.locomotionFlags, BurstFlags())) || stepAnimates || targetMoved
                    || (heldPrevious && stepAnimates));
  }

  lemma BurstIsHard(flags: Flags)
    ensures Has(flags, HardOverride() + BurstFlags()) == Has(flags, HardOverride())
  {
    assert HardOverride() + BurstFlags() == HardOverride();
  }

  method SettleLegs(c: Context, gathered: Decision, residual: bool) returns (d: Decision)
    requires residual == c.ResidualEvidence()
    requires IsUnsettled(gathered) && !gathered.holdSuppressed && !gathered.blockedPreviousMovementHold
    ensures d == Settled(c.authorityGlooed, HoldOf(c), gathered)
  {
    d := gathered;
    var hasContinuousMovement := Has(d.locomotionFlags, Continuous());
    hide c.ResidualEvidence, Has, Continuous;
    if c.authorityGlooed {
      d := d.(motionSeconds := 0.0, targetMotionFlags := {}, filteredTargetSpeed := 0.0);
    } else if hasContinuousMovement && d.currentMovementAnimationEvidence {
      d := d.(motionSeconds := c.movementHoldSeconds, targetMotionFlags := d.locomotionFlags * Continuous());
    } else if hasContinuousMovement {
      d := d.(motionSeconds := 0.0, targetMotionFlags := {}, holdSuppressed := true);
    } else {
      d := CoastLegs(c, d, residual);
    }
  }

  method CoastLegs(c: Context, gathered: Decision, residual: bool) returns (d: Decision)
    requires residual == c.ResidualEvidence()
    requires gathered.targetMotionFlags == {} && !gathered.blockedPreviousMovementHold
    ensures d == Coasted(HoldOf(c), gathered)
  {
    hide c.ResidualEvidence, Continuous;
    var motionSeconds := Max(0.0, c.previousMotionSeconds - c.Tick());
    var previousContinuous := c.PreviousContinuous();
    var wouldHold := motionSeconds > 0.0 && previousContinuous != {} && residual;
    assert HoldOf(c) == Hold(c.movementHoldSeconds, motionSeconds, wouldHold, previousContinuous);
    hide HoldOf, c.PreviousContinuous, c.Tick, Max;
    if wouldHold && !gathered.inferenceBlocked {
      d := gathered.(motionSeconds := motionSeconds, locomotionFlags := gathered.locomotionFlags + previousContinuous,
                     targetMotionFlags := previousContinuous, heldPreviousMovement := true);
      return;
    }
    var speed := gathered.filteredTargetSpeed;
    if motionSeconds <= 0.0 {
      speed := 0.0;
    }
    d := gathered.(motionSeconds := motionSeconds, targetMotionFlags := {}, filteredTargetSpeed := speed,
                   blockedPreviousMovementHold := wouldHold && gathered.inferenceBlocked);
  }

  /** The flags, evidence and speeds of the decision, before the legs are settled. */
  method GatherMotion(c: Context) returns (d: Decision, residual: bool)
    requires c.mode != LocalTargetRemoteOwner
    ensures d == Gathered(c) && residual == c.ResidualEvidence()
    ensures IsUnsettled(d) && !d.holdSuppressed && !d.blockedPreviousMovementHold
  {
    var flags, strippedUnconfirmed, strippedHeld, passive := StripMovement(c);
    var standingStill := passive && !Has(flags, Continuous());
    var instantaneous, filtered := FilterSpeed(c, standingStill);
    var nonCarryBlocks, passiveStep, passiveHold, holdEvidence;
    nonCarryBlocks, passiveStep, passiveHold, holdEvidence, residual :=
      MovementEvidence(c, flags, passive, instantaneous, filtered);
    var blocked, strongAction, localTargetAction :=
      BlockingEvidence(c, flags, passive, instantaneous, filtered, nonCarryBlocks, passiveStep, passiveHold,
                       holdEvidence);
    assert passiveHold ==> !c.Forbids();
    var speed := if blocked && (!passiveHold || c.Forbids()) then 0.0 else filtered;
    var inferred, targetMoved, drift, heldPrevious :=
      InferMovement(c, flags, speed, instantaneous, blocked, passiveStep || passiveHold, residual);
    var animates, actionBlocks := AnimationEvidence(c, targetMoved, heldPrevious);
    d := NEUTRAL.(
      explicitBurstEvent := c.explicitBurstEvent && Has(c.locomotionFlags, BurstFlags()),
      strippedUnconfirmedActionMovement := strippedUnconfirmed, strippedHeldPassiveMovement := strippedHeld,
      activeActionBlockedMovementAnimation := actionBlocks, inferredTargetSpeed := instantaneous,
      filteredTargetSpeed := speed, remoteActionTargetMotionEvidence := strongAction,
      passiveNonCarryActionMotionBlocked := nonCarryBlocks, passiveActionMovementHoldEvidence := passiveHold,
      blockedPassiveDriftOnlyMotion := standingStill && c.packetDeltaLen > c.catchupIntentDistance && !passiveStep,
      heldPassiveMovementEvidence := c.heldAuthorityMannequin && passive && passiveStep,
      localTargetActionMotionEvidence := localTargetAction, inferenceBlocked := blocked,
      confirmedTargetMotion := targetMoved, inferredCatchupDrift := drift, heldPreviousMovement := heldPrevious,
      inferredMovementFlags := inferred, locomotionFlags := flags + inferred,
      currentMovementAnimationEvidence := animates);
  }

  /** ResolveRemoteMotion is the decision above, for every context. */
  method ResolveRemoteMotion(c: Context) returns (d: Decision)
    ensures d == Resolved(c)
  {
    hide Gathered;
    if c.mode == LocalTargetRemoteOwner {
      d := ResolveMixed(c);
      return;
    }
    var gathered, residual := GatherMotion(c);
    d := SettleLegs(c, gathered, residual);
  }
}
