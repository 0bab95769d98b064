/** CoopEnemyAuthorityPolicy.cpp selects the one peer that simulates an enemy; CoopEnemyControlPolicy.cpp decides on
    each peer what of the enemy's own behaviour is blocked. */
module EnemyAuthority {

  const UNKNOWN_ATTENTION: nat := 0
  const KNOWN_ATTENTION: nat := 4

  datatype Candidate = Candidate(token: nat, level: nat, order: nat, blocked: bool)

  datatype Decision = Decision(owner: nat, level: nat, order: nat, fallback: bool)

  predicate IsEligible(c: Candidate) {
    c.token != 0 && !c.blocked && UNKNOWN_ATTENTION < c.level <= KNOWN_ATTENTION && c.order != 0
  }

  /** The higher level first, then the earlier claim, then the smaller token. */
  predicate Precedes(a: Decision, b: Decision) {
    a.level > b.level || (a.level == b.level && (a.order < b.order || (a.order == b.order && a.owner < b.owner)))
  }

  function Claim(c: Candidate): Decision {
    Decision(c.token, c.level, c.order, false)
  }

  /** The decision is the best eligible claim, or the area's authority when there is none. */
  ghost predicate IsSelected(area: nat, cs: seq<Candidate>, d: Decision) {
    if d.fallback then
      d == Decision(area, UNKNOWN_ATTENTION, 0, true) && forall i :: 0 <= i < |cs| ==> !IsEligible(cs[i])
    else
      && (exists i :: 0 <= i < |cs| && IsEligible(cs[i]) && Claim(cs[i]) == d)
      && forall i :: 0 <= i < |cs| && IsEligible(cs[i]) ==> !Precedes(Claim(cs[i]), d)
  }

  method Select(area: nat, candidates: seq<Candidate>) returns (decision: Decision)
    ensures IsSelected(area, candidates, decision)
    ensures decision.fallback <==> forall i :: 0 <= i < |candidates| ==> !IsEligible(candidates[i])
  {
    decision := Decision(area, UNKNOWN_ATTENTION, 0, true);
    for i := 0 to |candidates|
      invariant IsSelected(area, candidates[..i], decision)
      invariant decision.fallback ==> decision.level == UNKNOWN_ATTENTION && decision.order == 0
    {
      var c := candidates[i];
      ghost var seen := candidates[..i + 1];
      assert forall k :: 0 <= k < i ==> seen[k] == candidates[..i][k];
      assert seen[i] == c;
      if c.token == 0 || c.blocked || c.level == UNKNOWN_ATTENTION || c.level > KNOWN_ATTENTION || c.order == 0 {
        continue;
      }
      var higherLevel := c.level > decision.level;
      var earlierAtSameLevel := c.level == decision.level
        && (decision.order == 0 || c.order < decision.order || (c.order == decision.order && c.token < decision.owner));
      if !higherLevel && !earlierAtSameLevel {
        continue;
      }
      decision := Decision(c.token, c.level, c.order, false);
    }
    assert candidates[..|candidates|] == candidates;
  }

  /** The decision depends on nothing but which candidates there are: not on their order and not on repetitions. */
  lemma SelectionIsUnique(area: nat, cs: seq<Candidate>, d: Decision, ds: seq<Candidate>, e: Decision)
    requires IsSelected(area, cs, d) && IsSelected(area, ds, e) && forall c :: c in cs <==> c in ds
    ensures d == e
  {
    if !d.fallback {
      var i :| 0 <= i < |cs| && IsEligible(cs[i]) && Claim(cs[i]) == d;
      assert cs[i] in ds;
      if !e.fallback {
        var k :| 0 <= k < |ds| && IsEligible(ds[k]) && Claim(ds[k]) == e;
        assert ds[k] in cs;
      }
    }
    assert forall k :: 0 <= k < |ds| ==> ds[k] in cs;
  }

  // ---- Who moves -----------------------------------------------------------------------------

  datatype NetworkMode = Off | Host | Client

  datatype Mode = LocalOwner | LocalTargetRemoteOwner | RemoteObserver

  datatype Context = Context(
    networkMode: NetworkMode, localAuthorityBlocked: bool, localHasAttention: bool, localAttentionClaimed: bool,
    localLeaseOwner: bool, localRotationOverrideActive: bool, remoteLocomotionAuthority: bool,
    remoteAuthorityHasAttention: bool, remoteTargetsLocalPlayer: bool, hasLastPosition: bool,
    localTargetMixEnabled: bool)

  predicate IsRemoteDriven(c: Context) {
    match c.networkMode
    case Host => c.remoteLocomotionAuthority || c.remoteAuthorityHasAttention
    case Client => c.remoteLocomotionAuthority || c.hasLastPosition
    case Off => false
  }

  predicate HasVanillaAuthority(c: Context) {
    || (!c.localAuthorityBlocked && c.localLeaseOwner)
    || (!c.localAuthorityBlocked && c.localAttentionClaimed && c.localHasAttention && !c.remoteLocomotionAuthority)
    || (c.networkMode == Host && !c.remoteLocomotionAuthority && !c.remoteAuthorityHasAttention)
  }

  function ResolveMode(c: Context): Mode {
    if HasVanillaAuthority(c) || !IsRemoteDriven(c) then LocalOwner
    else if c.localTargetMixEnabled && !c.localAuthorityBlocked
            && (c.localHasAttention || c.localAttentionClaimed || c.localRotationOverrideActive
                || c.remoteTargetsLocalPlayer)
    then LocalTargetRemoteOwner
    else RemoteObserver
  }

  datatype Control = Control(
    mode: Mode, remoteDriven: bool, localVanillaAuthority: bool, localFocus: bool, localPhysicsAuthority: bool,
    blockMovement: bool, blockTurn: bool, blockLook: bool, blockFacing: bool, blockAttack: bool,
    mirrorRemoteActions: bool, preserveLocalCombat: bool)

  method Evaluate(c: Context) returns (d: Control)
    ensures d.mode == ResolveMode(c) && d.remoteDriven == IsRemoteDriven(c)
    ensures d.localVanillaAuthority == d.localPhysicsAuthority == (d.mode == LocalOwner)
            && d.localFocus == (d.mode == LocalTargetRemoteOwner)
    ensures d.blockMovement == d.mirrorRemoteActions == (d.mode != LocalOwner)
    ensures d.blockTurn == d.blockLook == d.blockFacing == d.blockAttack == (d.mode == RemoteObserver)
    ensures d.preserveLocalCombat == d.localFocus
  {
    var mode := ResolveMode(c);
    d := Control(mode, IsRemoteDriven(c), mode == LocalOwner, mode == LocalTargetRemoteOwner, mode == LocalOwner,
                 false, false, false, false, false, false, false);
    match mode
    case LocalOwner =>
    case LocalTargetRemoteOwner =>
      d := d.(blockMovement := true, mirrorRemoteActions := true, preserveLocalCombat := true);
    case RemoteObserver =>
      d := d.(blockMovement := true, blockTurn := true, blockLook := true, blockFacing := true, blockAttack := true,
              mirrorRemoteActions := true);
  }

  /** A remote peer is known to move the enemy, or has lately. */
  predicate SeesRemote(c: Context) {
    || (c.networkMode != Off && c.remoteLocomotionAuthority)
    || (c.networkMode == Host && c.remoteAuthorityHasAttention) || (c.networkMode == Client && c.hasLastPosition)
  }

  /** A peer moves the enemy exactly if it sees no remote authority, or is not blocked and holds the lease, or has
      claimed and kept its attention while nobody moves the enemy. Otherwise it fights on its own exactly if mixing is
      on, it is not blocked, and the enemy has something to do with its player; else it only mirrors. */
  lemma ModesExactly(c: Context)
    ensures ResolveMode(c) == LocalOwner <==>
              || !SeesRemote(c)
              || (!c.localAuthorityBlocked
                  && (c.localLeaseOwner
                      || (c.localAttentionClaimed && c.localHasAttention && !c.remoteLocomotionAuthority)))
    ensures ResolveMode(c) != LocalOwner ==>
              (ResolveMode(c) == LocalTargetRemoteOwner <==>
                 && c.localTargetMixEnabled && !c.localAuthorityBlocked
                 && true in {c.localHasAttention, c.localAttentionClaimed, c.localRotationOverrideActive,
                             c.remoteTargetsLocalPlayer})
  {
  }

  /** An online peer that took the decision over: it holds the lease exactly if it is the owner, and sees a remote
      authority exactly if it is not. Its perception, its history and its settings are free. */
  predicate Follows(c: Context, token: nat, owner: nat) {
    && c.networkMode != Off && !c.localAuthorityBlocked
    && c.localLeaseOwner == (token == owner) && c.remoteLocomotionAuthority == (token != owner)
  }

  /** The peers whose own copy of the enemy may move. */
  function Movers(peers: map<nat, Context>): set<nat> {
    set p | p in peers && ResolveMode(peers[p]) == LocalOwner
  }

  /** When every peer follows the decision, exactly the selected owner moves the enemy, and nobody when that peer is
      not there. */
  lemma OneMover(area: nat, cs: seq<Candidate>, d: Decision, peers: map<nat, Context>)
    requires IsSelected(area, cs, d) && forall p :: p in peers ==> Follows(peers[p], p, d.owner)
    ensures Movers(peers) == if d.owner in peers then {d.owner} else {}
    ensures |Movers(peers)| == 1 <==> d.owner in peers
  {
    assert forall p :: p in peers ==> (ResolveMode(peers[p]) == LocalOwner <==> p == d.owner);
  }
}
