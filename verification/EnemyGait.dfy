/** Which legs an enemy moves after a packet, from the fields of the packet alone. */
module EnemyGait {
  import opened EnemyMotion

  // ---- The speeds ----------------------------------------------------------------------------

  /** The speed at which the authority's target moved in this tick; a tick counts at least a millisecond. */
  function TargetSpeed(step: real, tick: real): real {
    if step <= 0.0001 then 0.0 else if tick < 0.001 then step / 0.001 else step / tick
  }

  /** The remembered speed, if it is a number, between standing and the fastest. */
  function Remembered(previous: Float): (speed: real)
    ensures 0.0 <= speed <= 12.0
  {
    match previous
    case NonFinite => 0.0
    case Finite(r) => if r < 0.0 then 0.0 else if r > 12.0 then 12.0 else r
  }

  /** Neither a body action nor a mannequin of the authority is running. */
  predicate IsPlain(c: Context) {
    && c.mode != LocalTargetRemoteOwner && (c.mannequinSequence == 0 || c.mannequinFragmentId < 0)
    && !c.activeRemoteActionBlocksMotionInference
  }

  /** The remembered speed drawn towards the speed of the target, slower and with a loss when the target stands. */
  function FilteredTarget(c: Context): real {
    var v, previous := TargetSpeed(c.packetTargetStepLen, c.tickSeconds), Remembered(c.previousFilteredTargetSpeed);
    var drawn := if c.packetTargetStepLen > 0.006 then 0.55 * previous + 0.45 * v
      else 0.65 * (0.82 * previous + 0.18 * v);
    if drawn > 12.0 then 12.0 else drawn
  }

  lemma StepSpeedIs(c: Context)
    ensures c.StepSpeed() == TargetSpeed(c.packetTargetStepLen, c.tickSeconds) >= 0.0
  {
  }

  lemma PlainFilter(c: Context)
    requires IsPlain(c)
    ensures c.Filtered() == FilteredTarget(c)
  {
    StepSpeedIs(c);
    hide c.StepSpeed, TargetSpeed;
  }

  lemma PlainIsNotBlocked(c: Context)
    requires IsPlain(c)
    ensures !c.Blocked() && c.Stripped() == c.locomotionFlags && c.Speed() == c.Filtered()
    ensures c.PassiveMoves() <==> c.StepConfirms()
  {
    hide c.Filtered, c.StepConfirms;
  }

  /** The step of the target is long enough to count by itself. */
  predicate StepIsClear(step: real, delta: real, minStep: real) {
    || (step >= 2.5 * minStep && step >= 0.12)
    || (step >= minStep && delta > 0.10)
  }

  /** The step is long enough to be seen. */
  predicate StepIsSeen(step: real, minStep: real) {
    step >= 0.7 * minStep && step >= 0.035
  }

  lemma ClearAndSeen(c: Context)
    ensures c.StepConfirms() <==> StepIsClear(c.packetTargetStepLen, c.packetDeltaLen, c.minStep)
    ensures c.StepAnimates() <==> StepIsSeen(c.packetTargetStepLen, c.minStep)
  {
  }

  // ---- The gait ------------------------------------------------------------------------------

  /** Running exactly above the given speed. */
  function Gait(filtered: real, speed: real, runSpeed: real): Flags {
    if filtered > runSpeed || speed > runSpeed then {Running} else {Walking}
  }

  predicate KeepsEvidence(d: Decision, t: Decision) {
    && t.inferredTargetSpeed == d.inferredTargetSpeed && t.confirmedTargetMotion == d.confirmedTargetMotion
    && t.inferredMovementFlags == d.inferredMovementFlags && t.inferenceBlocked == d.inferenceBlocked
    && t.inferredCatchupDrift == d.inferredCatchupDrift
    && t.currentMovementAnimationEvidence == d.currentMovementAnimationEvidence
  }

  lemma HoldingKeepsEvidence(h: Hold, d: Decision)
    ensures h.would && !d.inferenceBlocked ==> KeepsEvidence(d, Coasted(h, d))
  {
  }

  lemma CoastingKeepsEvidence(h: Hold, d: Decision)
    ensures !(h.would && !d.inferenceBlocked) ==> KeepsEvidence(d, Coasted(h, d))
  {
  }

  lemma SettlingKeepsEvidence(glooed: bool, h: Hold, d: Decision)
    ensures KeepsEvidence(d, Settled(glooed, h, d))
  {
    HoldingKeepsEvidence(h, d);
    CoastingKeepsEvidence(h, d);
    if glooed || Has(d.locomotionFlags, Continuous()) {
      hide Has, Continuous, Coasted;
    } else {
      assert Settled(glooed, h, d) == Coasted(h, d);
      hide *;
    }
  }

  /** Legs that are seen move for the whole hold. */
  lemma SettlingMovesLegs(h: Hold, d: Decision)
    requires IsUnsettled(d) && Has(d.locomotionFlags, Continuous())
    ensures var t := Settled(false, h, d);
            && t.locomotionFlags == d.locomotionFlags && t.filteredTargetSpeed == d.filteredTargetSpeed
            && t.targetMotionFlags ==
               (if d.currentMovementAnimationEvidence then d.locomotionFlags * Continuous() else {})
            && t.motionSeconds == (if d.currentMovementAnimationEvidence then h.seconds else 0.0)
            && t.holdSuppressed == (d.holdSuppressed || !d.currentMovementAnimationEvidence)
  {
    hide Has, Continuous, Coasted;
  }

  /** Outside mixed attention, whatever the packet: a confirmed step infers running if and only if the filtered or the
      step speed is above the run speed, and walking otherwise; and with the evidence to be seen exactly those legs move
      for the whole hold, without it none do. */
  lemma StepSetsTheGait(c: Context)
    requires c.mode != LocalTargetRemoteOwner
    ensures var d := Resolved(c);
            && d.inferredTargetSpeed == TargetSpeed(c.packetTargetStepLen, c.tickSeconds)
            && (d.confirmedTargetMotion ==>
                  var legs := Gait(d.filteredTargetSpeed, d.inferredTargetSpeed, c.receiverInferRunSpeed);
                  && d.inferredMovementFlags == legs == d.locomotionFlags * {Walking, Running}
                  && d.targetMotionFlags == (if d.currentMovementAnimationEvidence then legs else {})
                  && d.motionSeconds == (if d.currentMovementAnimationEvidence then c.movementHoldSeconds else 0.0)
                  && d.holdSuppressed == !d.currentMovementAnimationEvidence)
  {
    StepSpeedIs(c);
    SpeedIsInRange(c);
    assert Gathered(c).confirmedTargetMotion == c.TargetMoved();
    if c.TargetMoved() { GaitOfInferred(c); }
    var g := Gathered(c);
    assert g.inferredTargetSpeed == c.StepSpeed() && g.filteredTargetSpeed == c.Speed();
    assert g.inferredMovementFlags == c.Inferred() && g.locomotionFlags == c.Stripped() + c.Inferred();
    assert IsUnsettled(g) && !g.holdSuppressed;
    SettlingKeepsEvidence(c.authorityGlooed, HoldOf(c), g);
    GaitIsSeen(g, c.receiverInferRunSpeed);
    if c.TargetMoved() {
      SettlingMovesLegs(HoldOf(c), g);
    }
    hide Gathered, Settled, c.TargetMoved, c.Inferred, c.Speed, c.StepSpeed, c.Stripped, c.Remaining, c.WouldHold;
  }

  lemma GaitIsSeen(g: Decision, runSpeed: real)
    ensures var legs := Gait(g.filteredTargetSpeed, g.inferredTargetSpeed, runSpeed);
            g.locomotionFlags * {Walking, Running} == legs ==>
              Has(g.locomotionFlags, Continuous()) && g.locomotionFlags * Continuous() == legs
  {
  }

  lemma GaitOfInferred(c: Context)
    requires c.TargetMoved()
    ensures c.Inferred() == Gait(c.Speed(), c.StepSpeed(), c.receiverInferRunSpeed)
    ensures c.Inferred() * {Walking, Running} == c.Inferred() && c.Stripped() * {Walking, Running} == {}
    ensures !c.authorityGlooed
  {
    hide c.Speed, c.StepSpeed, c.Stripped, c.Blocked, c.PassiveMoves;
    assert !Has(c.Stripped(), Movement()) && Continuous() <= Movement();
  }

  /** A plain packet confirms a step exactly if inference is on, the authority is remote and neither glooed nor moving
      by its own report, the step is long and fast enough, and the filtered speed is, or the step is clear. */
  lemma PlainStepIsConfirmedExactly(c: Context)
    requires IsPlain(c)
    ensures var d, v := Resolved(c), TargetSpeed(c.packetTargetStepLen, c.tickSeconds);
            && !d.inferenceBlocked
            && (d.confirmedTargetMotion <==>
                  && !c.inferenceDisabled && !c.authorityGlooed && c.hasExistingState
                     && c.existingRemoteLocomotionAuthority
                  && c.locomotionFlags * {Walking, Running, Dashing, Shifting, Morphing, Lunging} == {}
                  && c.packetTargetStepLen >= c.minStep && v > c.minSpeed
                  && (FilteredTarget(c) > c.minSpeed
                      || StepIsClear(c.packetTargetStepLen, c.packetDeltaLen, c.minStep)))
            && (d.confirmedTargetMotion ==>
                  d.currentMovementAnimationEvidence && d.filteredTargetSpeed == FilteredTarget(c))
  {
    StepSpeedIs(c);
    PlainFilter(c);
    PlainIsNotBlocked(c);
    ClearAndSeen(c);
    PlainAnimates(c);
    if c.TargetMoved() { GaitOfInferred(c); }
    assert Movement() == {Walking, Running, Dashing, Shifting, Morphing, Lunging};
    hide c.Filtered, c.Smoothed, c.StepSpeed, c.Stripped, c.Animates, c.Blocked, c.PassiveMoves, c.StepConfirms,
      c.WouldHold;
  }

  lemma PlainAnimates(c: Context)
    requires IsPlain(c)
    ensures c.TargetMoved() ==> c.Animates()
  {
    hide c.TargetMoved;
  }

  /** So on a plain packet without movement bits a step that is long, fast and clear moves the legs it should: running
      above the run speed, walking otherwise, for the whole hold. */
  lemma PlainStepMovesTheLegs(c: Context)
    requires IsPlain(c) && !c.inferenceDisabled && !c.authorityGlooed
    requires c.hasExistingState && c.existingRemoteLocomotionAuthority
    requires c.locomotionFlags * {Walking, Running, Dashing, Shifting, Morphing, Lunging} == {}
    requires c.packetTargetStepLen >= c.minStep && TargetSpeed(c.packetTargetStepLen, c.tickSeconds) > c.minSpeed
    requires StepIsClear(c.packetTargetStepLen, c.packetDeltaLen, c.minStep)
    ensures var d, v := Resolved(c), TargetSpeed(c.packetTargetStepLen, c.tickSeconds);
            && d.targetMotionFlags == Gait(FilteredTarget(c), v, c.receiverInferRunSpeed)
            && d.motionSeconds == c.movementHoldSeconds
  {
    PlainStepIsConfirmedExactly(c);
    StepSetsTheGait(c);
    hide Resolved, TargetSpeed, StepIsClear;
  }

  // ---- Reported legs -------------------------------------------------------------------------

  /** An authority's action on its whole body holds an enemy that otherwise only stands. */
  predicate IsHeldStill(c: Context) {
    && c.heldAuthorityMannequin && c.mannequinSequence != 0 && c.mannequinFragmentId >= 0
    && c.locomotionFlags * {MannequinDriven, Turning, InCombat} != {}
    && c.locomotionFlags * {Attacking, HitReacting, Stunned, Cowering, Glooed, Dashing, Shifting, Morphing, Lunging} ==
       {}
  }

  /** Walking or running that the authority reports, with a clear step that can be seen, comes out as the moving legs,
      exactly and for the whole hold, unless the enemy is held still or glooed. */
  lemma ReportedLegsMove(c: Context)
    requires c.mode != LocalTargetRemoteOwner && !c.authorityGlooed && !IsHeldStill(c)
    requires c.locomotionFlags * {Walking, Running} != {} && c.authorityPacketLocomotionFlags * {Walking, Running} != {}
    requires StepIsClear(c.packetTargetStepLen, c.packetDeltaLen, c.minStep)
    requires StepIsSeen(c.packetTargetStepLen, c.minStep)
    ensures var d := Resolved(c);
            && d.locomotionFlags == c.locomotionFlags && d.inferredMovementFlags == {}
            && d.targetMotionFlags == c.locomotionFlags * {Walking, Running}
            && d.motionSeconds == c.movementHoldSeconds
  {
    ClearAndSeen(c);
    ReportIsKept(c);
    ReportAnimates(c);
    hide c.Stripped, c.Animates, c.Blocked, c.PassiveMoves, c.StepConfirms, c.WouldHold, c.Speed, c.StepSpeed;
    assert c.Stripped() * Continuous() != {} && Continuous() <= Movement();
    assert !c.MayInfer();
    assert c.Inferred() == {} && c.Moving() == c.locomotionFlags;
  }

  lemma ReportIsKept(c: Context)
    requires !IsHeldStill(c) && c.StepConfirms() && c.authorityPacketLocomotionFlags * {Walking, Running} != {}
    ensures c.Stripped() == c.locomotionFlags && c.Reported() == c.locomotionFlags
  {
    assert c.authorityPacketLocomotionFlags * Continuous() != {} && Continuous() <= Movement();
    assert c.ExplicitMovement();
    hide c.StepConfirms;
  }

  lemma ReportAnimates(c: Context)
    requires c.StepAnimates() && c.authorityPacketLocomotionFlags * {Walking, Running} != {}
    ensures c.Animates()
  {
    assert c.authorityPacketLocomotionFlags * Continuous() != {} && Continuous() <= Movement();
    assert c.ExplicitMovement();
    hide c.StepAnimates, c.TargetMoved;
  }

  // ---- The filter ----------------------------------------------------------------------------

  /** While plain packets report walking or running, the filtered speed follows the target: of its distance to the step
      speed 55 percent are left when the target moves, and it falls to about half when it stands. */
  lemma FilterFollowsTarget(c: Context)
    requires IsPlain(c) && !c.authorityGlooed && c.locomotionFlags * {Walking, Running} != {}
    requires TargetSpeed(c.packetTargetStepLen, c.tickSeconds) <= 12.0
    ensures var d, v := Resolved(c), TargetSpeed(c.packetTargetStepLen, c.tickSeconds);
            var previous := Remembered(c.previousFilteredTargetSpeed);
            && (c.packetTargetStepLen > 0.006 ==> v - d.filteredTargetSpeed == 0.55 * (v - previous))
            && (c.packetTargetStepLen <= 0.0001 ==> d.filteredTargetSpeed == 0.533 * previous)
  {
    StepSpeedIs(c);
    PlainFilter(c);
    PlainIsNotBlocked(c);
    assert c.Stripped() * Continuous() != {};
    MovesOn(c);
    hide c.Smoothed, c.Filtered, c.StepSpeed, c.Stripped, c.Animates, c.Blocked, c.PassiveMoves, c.Moving, c.WouldHold;
  }

  lemma MovesOn(c: Context)
    requires c.Stripped() * Continuous() != {}
    ensures Has(c.Moving(), Continuous())
  {
    hide c.Stripped, c.Inferred;
    assert c.Stripped() * Continuous() <= c.Moving() * Continuous();
  }

  // ---- Going on without a step ---------------------------------------------------------------

  function PreviousLegs(c: Context): Flags {
    c.previousLocomotionFlags * {Walking, Running}
  }

  /** What is left to be made up of a movement: a step that is long enough, or a distance at some speed. */
  predicate IsCatchingUp(c: Context) {
    || (c.packetTargetStepLen >= 1.6 * c.minStep && c.packetTargetStepLen >= 0.08)
    || (c.packetTargetStepLen >= c.minStep && c.packetDeltaLen > 0.5 * c.catchupIntentDistance)
    || (c.packetDeltaLen > 0.5 * c.catchupIntentDistance && FilteredTarget(c) > 0.45 * c.minSpeed)
  }

  function TimeLeft(c: Context): real {
    c.previousMotionSeconds - if c.tickSeconds < 0.001 then 0.001 else c.tickSeconds
  }

  lemma PlainEvidence(c: Context)
    requires IsPlain(c)
    ensures c.ResidualEvidence() <==> IsCatchingUp(c)
    ensures c.Remaining() == (if TimeLeft(c) > 0.0 then TimeLeft(c) else 0.0)
    ensures c.PreviousContinuous() == PreviousLegs(c)
  {
    PlainFilter(c);
    hide c.Filtered, FilteredTarget;
  }

  /** A plain packet that reports no movement and infers none: the previous legs go on for the time that is left, if
      there is any and something is left to be made up; otherwise no leg moves, and the time runs out all the same. */
  lemma PlainLegsGoOnExactly(c: Context)
    requires IsPlain(c) && !c.authorityGlooed && c.locomotionFlags * {Walking, Running} == {}
    requires Resolved(c).inferredMovementFlags == {}
    ensures var d, left := Resolved(c), TimeLeft(c);
            && d.motionSeconds == (if left > 0.0 then left else 0.0)
            && d.targetMotionFlags == (if left > 0.0 && IsCatchingUp(c) then PreviousLegs(c) else {})
            && (left > 0.0 && IsCatchingUp(c) && PreviousLegs(c) != {} ==> d.heldPreviousMovement)
  {
    PlainEvidence(c);
    PlainIsNotBlocked(c);
    SettlingKeepsEvidence(false, HoldOf(c), Gathered(c));
    var g := Gathered(c);
    assert g.inferredMovementFlags == c.Inferred() && g.locomotionFlags == c.Stripped() + c.Inferred();
    assert !g.inferenceBlocked;
    hide c.Stripped, c.Inferred, c.Blocked, c.ResidualEvidence, c.Remaining, c.PreviousContinuous, Gathered,
      IsCatchingUp;
    assert !Has(g.locomotionFlags, Continuous());
    CoastsExactly(HoldOf(c), g);
    assert g.targetMotionFlags == {};
  }

  lemma HeldLegs(h: Hold, d: Decision)
    requires h.would && !d.inferenceBlocked
    ensures var t := Coasted(h, d);
            t.motionSeconds == h.remaining && t.targetMotionFlags == h.legs && t.heldPreviousMovement
  {
  }

  lemma StoppedLegs(h: Hold, d: Decision)
    requires !h.would
    ensures var t := Coasted(h, d); t.motionSeconds == h.remaining && t.targetMotionFlags == d.targetMotionFlags
  {
  }

  lemma CoastsExactly(h: Hold, d: Decision)
    requires !Has(d.locomotionFlags, Continuous()) && !d.inferenceBlocked
    ensures var t := Settled(false, h, d);
            && t.motionSeconds == h.remaining
            && t.targetMotionFlags == (if h.would then h.legs else d.targetMotionFlags)
            && (h.would ==> t.heldPreviousMovement)
  {
    assert Settled(false, h, d) == Coasted(h, d);
    hide *;
    if h.would {
      HeldLegs(h, d);
    } else {
      StoppedLegs(h, d);
    }
  }

  /** Without a confirmed step inference only ever keeps the previous legs: on a plain packet, exactly when the enemy
      was moving, lags behind by more than the distance to catch up, and something is left to be made up. */
  lemma PlainDriftKeepsLegs(c: Context)
    requires IsPlain(c) && !Resolved(c).confirmedTargetMotion
    ensures var d := Resolved(c);
            && d.inferredMovementFlags == (if d.inferredCatchupDrift then PreviousLegs(c) else {})
            && (d.inferredCatchupDrift <==>
                  && !c.inferenceDisabled && !c.authorityGlooed && c.hasExistingState
                  && c.existingRemoteLocomotionAuthority
                  && c.locomotionFlags * {Walking, Running, Dashing, Shifting, Morphing, Lunging} == {}
                  && c.packetDeltaLen > c.catchupIntentDistance && IsCatchingUp(c)
                  && c.previousMotionSeconds > 0.0 && PreviousLegs(c) != {})
  {
    PlainEvidence(c);
    PlainIsNotBlocked(c);
    var g := Gathered(c);
    SettlingKeepsEvidence(c.authorityGlooed, HoldOf(c), g);
    assert g.confirmedTargetMotion == c.TargetMoved() && g.inferredCatchupDrift == c.DriftWalk();
    assert g.inferredMovementFlags == c.Inferred();
    assert Movement() == {Walking, Running, Dashing, Shifting, Morphing, Lunging};
    hide Settled, Gathered, c.ResidualEvidence, c.Stripped, c.Blocked, c.TargetMoved, c.PreviousContinuous,
      IsCatchingUp;
  }

  // ---- What blocks inference -----------------------------------------------------------------

  /** A mannequin that holds the body, or on a mere observer any action that reports no movement, lets nothing be
      inferred, however the target moves. */
  lemma BodyActionsBlockInference(c: Context)
    requires c.mode != LocalTargetRemoteOwner && c.mannequinSequence != 0 && c.mannequinFragmentId >= 0
    requires || c.locomotionFlags * {Glooed, Stunned, Cowering, Ragdolled, HitReacting} != {}
             || (&& c.mode == RemoteObserver && Attacking in c.locomotionFlags
                 && c.locomotionFlags * {Walking, Running, Dashing, Shifting, Morphing, Lunging} == {})
    ensures var d := Resolved(c); d.inferenceBlocked && d.inferredMovementFlags == {}
  {
    var g := Gathered(c);
    if c.locomotionFlags * {Glooed, Stunned, Cowering, Ragdolled, HitReacting} != {} {
      BlockersStay(c);
    } else {
      assert Movement() == {Walking, Running, Dashing, Shifting, Morphing, Lunging};
      assert c.Reported() == c.locomotionFlags && Attacking in c.Reported() * Actions();
      assert c.ActionStandingStill();
    }
    assert c.Blocked() by { hide c.Stripped, c.ActionStandingStill; }
    assert g.inferenceBlocked && g.inferredMovementFlags == {} by { hide c.Blocked; }
    hide Gathered, Settled, c.Blocked;
    SettlingKeepsEvidence(c.authorityGlooed, HoldOf(c), g);
  }

  lemma BlockersStay(c: Context)
    requires c.locomotionFlags * {Glooed, Stunned, Cowering, Ragdolled, HitReacting} != {}
    ensures Has(c.Stripped(), MovementBlocking())
  {
    var flag :| flag in c.locomotionFlags * {Glooed, Stunned, Cowering, Ragdolled, HitReacting};
    assert flag !in Movement() && flag in MovementBlocking();
    assert flag in c.Stripped();
    assert flag in c.Stripped() * MovementBlocking();
  }

  /** In mixed attention the speed is the faster of what the packet says and what the step shows. */
  lemma MixedSpeed(c: Context)
    requires c.mode == LocalTargetRemoteOwner
    ensures var d, v := Resolved(c), TargetSpeed(c.packetTargetStepLen, c.tickSeconds);
            var said := Remembered(c.packetSpeed);
            && d.inferredTargetSpeed == v
            && d.filteredTargetSpeed == if v > 12.0 then 12.0 else if v > said then v else said
  {
    StepSpeedIs(c);
    hide c.StepSpeed, TargetSpeed;
  }

  // ---- Standing still ------------------------------------------------------------------------

  /** A running action of the authority that reports no movement stops the enemy: no leg moves, no speed is left, and
      every movement bit is taken out, whatever was moving before. */
  lemma ForbiddenActionStandsStill(c: Context)
    requires c.mode != LocalTargetRemoteOwner && c.activeRemoteActionBlocksMotionInference && !c.authorityGlooed
    requires c.authorityPacketLocomotionFlags * {Walking, Running, Dashing, Shifting, Morphing, Lunging} == {}
    ensures var d := Resolved(c);
            && d.targetMotionFlags == {} && d.filteredTargetSpeed == 0.0 && d.inferenceBlocked
            && d.locomotionFlags == c.locomotionFlags - {Walking, Running, Dashing, Shifting, Morphing, Lunging}
  {
    assert Movement() == {Walking, Running, Dashing, Shifting, Morphing, Lunging};
    assert c.Forbids();
    NothingForbiddenMoves(c);
    var g := Gathered(c);
    assert g.locomotionFlags == c.Stripped() + c.Inferred() && g.filteredTargetSpeed == 0.0 && g.inferenceBlocked;
    assert g.targetMotionFlags == {};
    hide Gathered, c.Stripped, c.Inferred, c.Forbids, c.ResidualEvidence, c.Remaining;
    assert !Has(g.locomotionFlags, Continuous()) by { assert Continuous() <= Movement(); }
    BlockedStops(HoldOf(c), g);
  }

  lemma NothingForbiddenMoves(c: Context)
    requires c.Forbids()
    ensures c.Blocked() && c.Speed() == 0.0 && c.Inferred() == {} && c.Stripped() == c.locomotionFlags - Movement()
  {
    assert c.Reported() * Movement() == {} && Continuous() <= Movement();
    assert c.Reported() * Continuous() == {};
    assert c.Stripped() == c.Reported();
    hide c.Stripped, c.NonCarryBlocks, c.PassiveStepMoves, c.ActionMoves, c.PassiveMannequin, c.ResidualEvidence;
  }

  lemma BlockedStops(h: Hold, d: Decision)
    requires d.inferenceBlocked && !Has(d.locomotionFlags, Continuous()) && d.filteredTargetSpeed == 0.0
    ensures var t := Settled(false, h, d);
            && t.targetMotionFlags == d.targetMotionFlags && t.locomotionFlags == d.locomotionFlags
            && t.filteredTargetSpeed == 0.0 && t.inferenceBlocked
  {
    assert Settled(false, h, d) == Coasted(h, d);
    hide Settled, Has, Continuous;
  }

  /** A glooed enemy moves no leg, whatever else holds. */
  lemma GlooedStandsStill(c: Context)
    requires c.mode != LocalTargetRemoteOwner && c.authorityGlooed
    ensures var d := Resolved(c);
            d.targetMotionFlags == {} && d.motionSeconds == 0.0 && d.filteredTargetSpeed == 0.0
              && d.inferredMovementFlags == {}
  {
    assert !c.MayInfer();
    hide c.Stripped, c.Speed, c.Blocked, c.PassiveMoves, c.Animates, c.WouldHold, c.ResidualEvidence;
  }
}
