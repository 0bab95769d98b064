/** CoopEnemyStateWire.cpp: the quantised enemy snapshot, over the real numbers. A float is a real or not finite;
    a square root is a parameter constrained by its defining equation. */
module EnemyStateWire {

  const PACKET_MAGIC: nat := 0x504F4F43
  const PROTOCOL_VERSION: nat := 249
  const TEST_MIMIC_STATE: nat := 0x07
  const KNOWN_ATTENTION: nat := 4
  const RAGDOLLED: nat := 0x10000

  const UNIT_SCALE: real := 32767.0
  const DEGENERATE: real := 0.000001

  datatype Option<+T> = None | Some(value: T)

  datatype Float = Finite(r: real) | NonFinite

  datatype Vec3 = Vec3(x: Float, y: Float, z: Float)

  datatype Quat = Quat(w: Float, x: Float, y: Float, z: Float)

  datatype Header = Header(magic: nat, version: nat, packetType: nat, sequence: nat)

  datatype Mannequin = Mannequin(
    fragmentId: int, sequence: nat, ordinal: nat, reserved: nat, priority: int,
    tagState: seq<nat>, tagStateValid: nat, tagStateReserved: seq<nat>)

  datatype Semantic = Semantic(contextId: nat, sequence: nat, variant: nat, reserved: seq<nat>)

  datatype Vitals = Vitals(health: Float, maxHealth: Float, lastDamage: Float)

  datatype Authority = Authority(target: nat, owner: nat, epoch: nat, attention: nat)

  /** The packet used inside the process. */
  datatype State = State(
    header: Header, archetypeId: nat, enemyNetId: nat, entityGuid: nat,
    position: Vec3, rotation: Quat, velocity: Vec3, direction: Vec3, speed: Float,
    vitals: Vitals, commitSequence: nat, sourceFlags: nat, locomotionFlags: nat, flags: nat,
    locomotionLevel: nat, attackKind: nat, mannequin: Mannequin, semantic: Semantic,
    authority: Authority, authorityReserved: seq<nat>)

  /** The packet on the wire: unit vectors as 16-bit integers, the speed in centimetres per second. */
  datatype Wire = Wire(
    header: Header, enemyNetId: nat, position: Vec3, qw: int, qx: int, qy: int, qz: int,
    mx: int, my: int, mz: int, speedCentimeters: int,
    vitals: Vitals, commitSequence: nat, sourceFlags: nat, locomotionFlags: nat, flags: nat,
    locomotionLevel: nat, attackKind: nat, mannequin: Mannequin, semantic: Semantic, authority: Authority)

  // ---- Scalars -------------------------------------------------------------------------------

  /** lround: to the nearest integer, halves away from zero. */
  function Round(r: real): int {
    if r >= 0.0 then (r + 0.5).Floor else -(-r + 0.5).Floor
  }

  function Clamp(r: real, low: real, high: real): real {
    if r < low then low else if r > high then high else r
  }

  function EncodeUnit(value: Float): int {
    match value
    case NonFinite => 0
    case Finite(r) => Round(Clamp(r, -1.0, 1.0) * UNIT_SCALE)
  }

  function DecodeUnit(value: int): real {
    value as real / UNIT_SCALE
  }

  function EncodeSpeed(speed: Float): int {
    match speed
    case NonFinite => 0
    case Finite(r) => Round(Clamp(if r < 0.0 then 0.0 else r * 100.0, 0.0, 65535.0))
  }

  function DecodeSpeed(value: int): real {
    value as real * 0.01
  }

  function Abs(r: real): real {
    if r < 0.0 then -r else r
  }

  lemma RoundIsNearest(r: real)
    ensures Abs(Round(r) as real - r) <= 0.5
  {
  }

  lemma RoundOfInteger(n: int)
    ensures Round(n as real) == n
  {
  }

  /** A component of a unit vector comes back within half a step, inside the range of int16. */
  lemma UnitError(r: real)
    requires -1.0 <= r <= 1.0
    ensures -32767 <= EncodeUnit(Finite(r)) <= 32767
    ensures Abs(DecodeUnit(EncodeUnit(Finite(r))) - r) <= 0.5 / UNIT_SCALE
  {
    RoundIsNearest(r * UNIT_SCALE);
  }

  /** A value the decoder produced is encoded to the integer it came from. */
  lemma UnitFixedPoint(n: int)
    requires -32767 <= n <= 32767
    ensures EncodeUnit(Finite(DecodeUnit(n))) == n
  {
    assert DecodeUnit(n) * UNIT_SCALE == n as real;
    RoundOfInteger(n);
  }

  /** The speed comes back within half a centimetre per second, saturated at 655.35 and never negative. */
  lemma SpeedError(r: real)
    ensures 0 <= EncodeSpeed(Finite(r)) <= 65535
    ensures 0.0 <= r <= 655.35 ==> Abs(DecodeSpeed(EncodeSpeed(Finite(r))) - r) <= 0.005
    ensures r > 655.35 ==> DecodeSpeed(EncodeSpeed(Finite(r))) == 655.35
    ensures r < 0.0 ==> DecodeSpeed(EncodeSpeed(Finite(r))) == 0.0
  {
    RoundIsNearest(r * 100.0);
  }

  // ---- Vectors of up to four components ------------------------------------------------------

  datatype Vec4 = Vec4(w: real, x: real, y: real, z: real)

  function Dot(a: Vec4, b: Vec4): real {
    a.w * b.w + a.x * b.x + a.y * b.y + a.z * b.z
  }

  function Minus(a: Vec4, b: Vec4): Vec4 {
    Vec4(a.w - b.w, a.x - b.x, a.y - b.y, a.z - b.z)
  }

  function Over(a: Vec4, n: real): Vec4
    requires n != 0.0
  {
    Vec4(a.w / n, a.x / n, a.y / n, a.z / n)
  }

  function DistanceSq(a: Vec4, b: Vec4): real {
    Dot(Minus(a, b), Minus(a, b))
  }

  ghost predicate IsRoot(n: real, sq: real) {
    n >= 0.0 && n * n == sq
  }

  lemma DistanceExpands(a: Vec4, b: Vec4)
    ensures DistanceSq(a, b) == Dot(a, a) + Dot(b, b) - 2.0 * Dot(a, b)
  {
    SquareOfDifference(a.w, b.w);
    SquareOfDifference(a.x, b.x);
    SquareOfDifference(a.y, b.y);
    SquareOfDifference(a.z, b.z);
  }

  lemma SquareOfDifference(a: real, b: real)
    ensures (a - b) * (a - b) == a * a + b * b - 2.0 * (a * b)
  {
  }

  lemma SquareIsNonNegative(a: real)
    ensures a * a >= 0.0
  {
  }

  lemma DotOver(a: Vec4, b: Vec4, n: real)
    requires n > 0.0
    ensures Dot(Over(a, n), b) == Dot(a, b) / n
  {
  }

  function Square(a: real): (r: real)
    ensures r >= 0.0
  {
    a * a
  }

  lemma DotOfSelf(a: Vec4)
    ensures Dot(a, a) == Square(a.w) + Square(a.x) + Square(a.y) + Square(a.z)
  {
  }

  lemma HalfSquare(a: real, b: real)
    ensures Square(b) >= 0.5 * Square(a) - Square(b - a)
  {
    SquareIsNonNegative(2.0 * b - a);
    assert (2.0 * b - a) * (2.0 * b - a) == 4.0 * (b * b) + a * a - 4.0 * (a * b);
    assert (b - a) * (b - a) == b * b + a * a - 2.0 * (a * b);
  }

  /** A vector near a unit vector is not short. */
  lemma NotShort(u: Vec4, w: Vec4)
    requires Dot(u, u) == 1.0
    ensures Dot(w, w) >= 0.5 - DistanceSq(w, u)
  {
    DotOfSelf(u);
    DotOfSelf(w);
    DotOfSelf(Minus(w, u));
    HalfSquare(u.w, w.w);
    HalfSquare(u.x, w.x);
    HalfSquare(u.y, w.y);
    HalfSquare(u.z, w.z);
    hide Dot, Square;
  }

  lemma DistanceIsNonNegative(a: Vec4, b: Vec4)
    ensures DistanceSq(a, b) >= 0.0
  {
    var d := Minus(a, b);
    SquareIsNonNegative(d.w);
    SquareIsNonNegative(d.x);
    SquareIsNonNegative(d.y);
    SquareIsNonNegative(d.z);
  }

  lemma DotSymmetric(a: Vec4, b: Vec4)
    ensures Dot(a, b) == Dot(b, a)
  {
  }

  lemma LengthOver(w: Vec4, n: real)
    requires n > 0.0 && IsRoot(n, Dot(w, w))
    ensures Dot(Over(w, n), Over(w, n)) == 1.0
  {
    DotOver(w, w, n);
    DotSymmetric(w, Over(w, n));
    DotOver(w, Over(w, n), n);
    hide Dot, Over;
    assert n * n / n == n;
  }

  lemma ScaledBound(n: real, d: real, k: real)
    requires n > 0.0 && n * n + 1.0 - 2.0 * d <= k
    ensures n * (2.0 - 2.0 * (d / n)) <= k - (n - 1.0) * (n - 1.0)
  {
    assert n * (d / n) == d;
    assert n * (2.0 - 2.0 * (d / n)) == 2.0 * n - 2.0 * (n * (d / n));
    assert (n - 1.0) * (n - 1.0) == n * n - 2.0 * n + 1.0;
  }

  /** Rescaling a vector near a unit vector keeps it near: the error in length is gone, the rest is hardly more. */
  lemma Renormalised(u: Vec4, w: Vec4, n: real, k: real)
    requires Dot(u, u) == 1.0 && DistanceSq(w, u) <= k
    requires n > 0.0 && IsRoot(n, Dot(w, w))
    ensures Dot(Over(w, n), Over(w, n)) == 1.0
    ensures n * DistanceSq(Over(w, n), u) <= k - (n - 1.0) * (n - 1.0)
  {
    var r := Over(w, n);
    LengthOver(w, n);
    DotOver(w, u, n);
    DistanceExpands(w, u);
    DistanceExpands(r, u);
    ScaledBound(n, Dot(w, u), k);
    hide Dot, Over, DistanceSq;
  }

  /** A unit vector no further from the unit vector `u` than `k`, up to a factor of 1 - k on the square. */
  ghost predicate IsNear(r: Vec4, u: Vec4, k: real) {
    Dot(r, r) == 1.0 && (1.0 - k) * DistanceSq(r, u) <= k * k
  }

  /** The bound on the error of a rescaled vector, the length of which was near one. */
  lemma RenormalisedBound(u: Vec4, w: Vec4, n: real, k: real)
    requires Dot(u, u) == 1.0 && DistanceSq(w, u) <= k * k && 0.0 <= k <= 0.5
    requires n > 0.0 && IsRoot(n, Dot(w, w))
    ensures 1.0 - k <= n <= 1.0 + k
    ensures IsNear(Over(w, n), u, k)
  {
    Renormalised(u, w, n, k * k);
    DistanceIsNonNegative(Over(w, n), u);
    hide Dot, Over, DistanceSq;
    LengthNearOne(n, k, DistanceSq(Over(w, n), u));
  }

  lemma LengthNearOne(n: real, k: real, error: real)
    requires n > 0.0 && 0.0 <= k <= 0.5 && error >= 0.0 && n * error <= k * k - (n - 1.0) * (n - 1.0)
    ensures 1.0 - k <= n <= 1.0 + k && (1.0 - k) * error <= k * k
  {
    SquareIsNonNegative(n - 1.0);
    Product(n, error);
    SmallerSquare(1.0 - n, k);
    SmallerSquare(n - 1.0, k);
    assert (1.0 - n) * (1.0 - n) == (n - 1.0) * (n - 1.0);
    Scaled(1.0 - k, n, error);
  }

  lemma Product(a: real, b: real)
    ensures a >= 0.0 && b >= 0.0 ==> a * b >= 0.0
  {
  }

  lemma SmallerSquare(a: real, b: real)
    ensures a > b >= 0.0 ==> a * a > b * b
  {
    if a > b >= 0.0 {
      Product(a - b, a + b);
      assert a * a - b * b == (a - b) * (a + b);
    }
  }

  lemma Scaled(a: real, b: real, e: real)
    ensures a <= b && e >= 0.0 ==> a * e <= b * e
  {
    if a <= b && e >= 0.0 {
      Product(b - a, e);
      assert (b - a) * e == b * e - a * e;
    }
  }

  // ---- Encode and Decode ---------------------------------------------------------------------

  const IDENTITY: Vec4 := Vec4(1.0, 0.0, 0.0, 0.0)
  const FORWARD: Vec4 := Vec4(0.0, 0.0, 1.0, 0.0)
  const STEP: real := 1.0 / UNIT_SCALE

  /** A direction is handled as a quaternion without a real part. */
  function Lifted(v: Vec3): Quat {
    Quat(Finite(0.0), v.x, v.y, v.z)
  }

  function LengthSq(q: Quat): Float {
    if q.w.Finite? && q.x.Finite? && q.y.Finite? && q.z.Finite? then
      var v := Vec4(q.w.r, q.x.r, q.y.r, q.z.r);
      Finite(Dot(v, v))
    else NonFinite
  }

  function IsDegenerate(q: Quat): bool {
    LengthSq(q).NonFinite? || LengthSq(q).r < DEGENERATE
  }

  /** `n` is what std::sqrt returns where the code calls it. */
  ghost predicate RootFor(n: real, q: Quat) {
    !IsDegenerate(q) ==> n > 0.0 && IsRoot(n, LengthSq(q).r)
  }

  function Unit(q: Quat, n: real, fallback: Vec4): Vec4
    requires !IsDegenerate(q) ==> n != 0.0
  {
    if IsDegenerate(q) then fallback else Over(Vec4(q.w.r, q.x.r, q.y.r, q.z.r), n)
  }

  predicate AllFinite(p: Vec3, v: Vitals) {
    p.x.Finite? && p.y.Finite? && p.z.Finite? && v.health.Finite? && v.maxHealth.Finite? && v.lastDamage.Finite?
  }

  predicate CanEncode(s: State) {
    && s.enemyNetId != 0 && s.authority.owner != 0 && s.authority.epoch != 0
    && s.sourceFlags <= 0xffff && s.locomotionFlags <= 0xffff && s.flags <= 0xffff && s.locomotionLevel <= 0xff
    && s.authority.attention <= KNOWN_ATTENTION && s.mannequin.tagStateValid <= 1 && s.semantic.variant <= 3
    && AllFinite(s.position, s.vitals)
  }

  /** The packet in terms of the unit vectors it quantises. */
  function Quantised(s: State, rotation: Vec4, direction: Vec4): Wire {
    Wire(s.header, s.enemyNetId, s.position,
         EncodeUnit(Finite(rotation.w)), EncodeUnit(Finite(rotation.x)), EncodeUnit(Finite(rotation.y)),
         EncodeUnit(Finite(rotation.z)),
         EncodeUnit(Finite(direction.x)), EncodeUnit(Finite(direction.y)), EncodeUnit(Finite(direction.z)),
         EncodeSpeed(s.speed), s.vitals, s.commitSequence, s.sourceFlags, s.locomotionFlags, s.flags,
         s.locomotionLevel, s.attackKind, s.mannequin, s.semantic, s.authority)
  }

  function WireRotation(w: Wire): Quat {
    Quat(Finite(DecodeUnit(w.qw)), Finite(DecodeUnit(w.qx)), Finite(DecodeUnit(w.qy)), Finite(DecodeUnit(w.qz)))
  }

  function WireDirection(w: Wire): Vec3 {
    Vec3(Finite(DecodeUnit(w.mx)), Finite(DecodeUnit(w.my)), Finite(DecodeUnit(w.mz)))
  }

  predicate HeaderOk(h: Header) {
    h.magic == PACKET_MAGIC && h.version == PROTOCOL_VERSION && h.packetType == TEST_MIMIC_STATE
  }

  predicate CanDecode(w: Wire, archetypeId: nat, stableEnemyId: nat) {
    && HeaderOk(w.header)
    && w.enemyNetId != 0 && archetypeId != 0 && stableEnemyId != 0 && w.authority.owner != 0 && w.authority.epoch != 0
    && w.authority.attention <= KNOWN_ATTENTION && w.mannequin.tagStateValid <= 1 && w.semantic.variant <= 3
    && AllFinite(w.position, w.vitals)
  }

  /** The packet in terms of the unit vectors it restores; the velocity is not carried. */
  function Restored(w: Wire, archetypeId: nat, stableEnemyId: nat, rotation: Vec4, direction: Vec4): State {
    var zero := Finite(0.0);
    State(w.header, archetypeId, w.enemyNetId, stableEnemyId, w.position,
          Quat(Finite(rotation.w), Finite(rotation.x), Finite(rotation.y), Finite(rotation.z)),
          Vec3(zero, zero, zero), Vec3(Finite(direction.x), Finite(direction.y), Finite(direction.z)),
          Finite(DecodeSpeed(w.speedCentimeters)), w.vitals, w.commitSequence, w.sourceFlags, w.locomotionFlags,
          w.flags, w.locomotionLevel, w.attackKind, w.mannequin, w.semantic, w.authority, [0, 0, 0])
  }

  method Encode(source: State, rotationLength: real, directionLength: real) returns (target: Option<Wire>)
    requires RootFor(rotationLength, source.rotation) && RootFor(directionLength, Lifted(source.direction))
    ensures target == if CanEncode(source) then
                        Some(Quantised(source, Unit(source.rotation, rotationLength, IDENTITY),
                                       Unit(Lifted(source.direction), directionLength, FORWARD)))
                      else None
  {
    if source.enemyNetId == 0 || source.authority.owner == 0 || source.authority.epoch == 0
       || source.sourceFlags > 0xffff || source.locomotionFlags > 0xffff || source.flags > 0xffff
       || source.locomotionLevel > 0xff || source.authority.attention > KNOWN_ATTENTION
       || source.mannequin.tagStateValid > 1 || source.semantic.variant > 3
          || !AllFinite(source.position, source.vitals) {
      return None;
    }
    var qw, qx, qy, qz := Rescale(source.rotation, rotationLength, IDENTITY);
    var zero, mx, my, mz := Rescale(Lifted(source.direction), directionLength, FORWARD);
    return Some(Wire(
      header := source.header, enemyNetId := source.enemyNetId, position := source.position,
      qw := EncodeUnit(Finite(qw)), qx := EncodeUnit(Finite(qx)), qy := EncodeUnit(Finite(qy)),
      qz := EncodeUnit(Finite(qz)),
      mx := EncodeUnit(Finite(mx)), my := EncodeUnit(Finite(my)), mz := EncodeUnit(Finite(mz)),
      speedCentimeters := EncodeSpeed(source.speed), vitals := source.vitals, commitSequence := source.commitSequence,
      sourceFlags := source.sourceFlags, locomotionFlags := source.locomotionFlags, flags := source.flags,
      locomotionLevel := source.locomotionLevel, attackKind := source.attackKind, mannequin := source.mannequin,
      semantic := source.semantic, authority := source.authority));
  }

  method Rescale(q: Quat, length: real, fallback: Vec4) returns (w: real, x: real, y: real, z: real)
    requires RootFor(length, q)
    ensures Vec4(w, x, y, z) == Unit(q, length, fallback)
  {
    var lengthSq := LengthSq(q);
    if lengthSq.NonFinite? || lengthSq.r < DEGENERATE {
      w, x, y, z := fallback.w, fallback.x, fallback.y, fallback.z;
    } else {
      var inverseLength := 1.0 / length;
      w, x, y, z := q.w.r * inverseLength, q.x.r * inverseLength, q.y.r * inverseLength, q.z.r * inverseLength;
    }
  }

  method Decode(source: Wire, archetypeId: nat, stableEnemyId: nat, rotationLength: real, directionLength: real)
    returns (target: Option<State>)
    requires RootFor(rotationLength, WireRotation(source)) && RootFor(directionLength, Lifted(WireDirection(source)))
    ensures target == if CanDecode(source, archetypeId, stableEnemyId) then
                        Some(Restored(source, archetypeId, stableEnemyId,
                                      Unit(WireRotation(source), rotationLength, IDENTITY),
                                      Unit(Lifted(WireDirection(source)), directionLength, FORWARD)))
                      else None
  {
    if !HeaderOk(source.header) || source.enemyNetId == 0 || archetypeId == 0 || stableEnemyId == 0
       || source.authority.owner == 0 || source.authority.epoch == 0 || source.authority.attention > KNOWN_ATTENTION
       || source.mannequin.tagStateValid > 1 || source.semantic.variant > 3
          || !AllFinite(source.position, source.vitals) {
      return None;
    }
    var qw, qx, qy, qz := Rescale(WireRotation(source), rotationLength, IDENTITY);
    var zero, mx, my, mz := Rescale(Lifted(WireDirection(source)), directionLength, FORWARD);
    var still := Vec3(Finite(0.0), Finite(0.0), Finite(0.0));
    return Some(State(
      header := source.header, archetypeId := archetypeId, enemyNetId := source.enemyNetId, entityGuid := stableEnemyId,
      position := source.position, rotation := Quat(Finite(qw), Finite(qx), Finite(qy), Finite(qz)), velocity := still,
      direction := Vec3(Finite(mx), Finite(my), Finite(mz)), speed := Finite(DecodeSpeed(source.speedCentimeters)),
      vitals := source.vitals, commitSequence := source.commitSequence, sourceFlags := source.sourceFlags,
      locomotionFlags := source.locomotionFlags, flags := source.flags, locomotionLevel := source.locomotionLevel,
      attackKind := source.attackKind, mannequin := source.mannequin, semantic := source.semantic,
      authority := source.authority, authorityReserved := [0, 0, 0]));
  }

  // ---- The round trip ------------------------------------------------------------------------

  lemma UnitHasLengthOne(q: Quat, n: real, fallback: Vec4)
    requires RootFor(n, q) && Dot(fallback, fallback) == 1.0
    ensures Dot(Unit(q, n, fallback), Unit(q, n, fallback)) == 1.0
  {
    if !IsDegenerate(q) {
      LengthOver(Vec4(q.w.r, q.x.r, q.y.r, q.z.r), n);
    }
    hide Dot, Over;
  }

  function Coarse(u: Vec4): Vec4 {
    Vec4(DecodeUnit(EncodeUnit(Finite(u.w))), DecodeUnit(EncodeUnit(Finite(u.x))),
         DecodeUnit(EncodeUnit(Finite(u.y))), DecodeUnit(EncodeUnit(Finite(u.z))))
  }

  lemma ComponentsOfUnit(u: Vec4)
    requires Dot(u, u) == 1.0
    ensures -1.0 <= u.w <= 1.0 && -1.0 <= u.x <= 1.0 && -1.0 <= u.y <= 1.0 && -1.0 <= u.z <= 1.0
  {
    DotOfSelf(u);
    SquareBelowOne(u.w);
    SquareBelowOne(u.x);
    SquareBelowOne(u.y);
    SquareBelowOne(u.z);
    hide Square, Dot;
  }

  lemma SquareBelowOne(a: real)
    ensures Square(a) <= 1.0 ==> -1.0 <= a <= 1.0
  {
    SmallerSquare(a, 1.0);
    SmallerSquare(-a, 1.0);
  }

  lemma SquareOfError(a: real, b: real)
    requires Abs(a - b) <= 0.5 / UNIT_SCALE
    ensures 4.0 * Square(a - b) <= STEP * STEP
  {
    var d, h := Abs(a - b), 0.5 / UNIT_SCALE;
    assert Square(a - b) == d * d;
    SmallerSquare(d, h);
    SmallerSquare(h, d);
  }

  /** Quantising the four components moves a unit vector by at most one step. */
  lemma CoarseError(u: Vec4)
    requires Dot(u, u) == 1.0
    ensures DistanceSq(Coarse(u), u) <= STEP * STEP
  {
    ComponentsOfUnit(u);
    UnitError(u.w);
    UnitError(u.x);
    UnitError(u.y);
    UnitError(u.z);
    var c := Coarse(u);
    SquareOfError(c.w, u.w);
    SquareOfError(c.x, u.x);
    SquareOfError(c.y, u.y);
    SquareOfError(c.z, u.z);
    DotOfSelf(Minus(c, u));
    hide Dot, Square, EncodeUnit, DecodeUnit, Abs;
  }

  function AsQuat(v: Vec4): Quat {
    Quat(Finite(v.w), Finite(v.x), Finite(v.y), Finite(v.z))
  }

  lemma LengthOfQuat(v: Vec4)
    ensures LengthSq(AsQuat(v)) == Finite(Dot(v, v))
  {
  }

  lemma CoarseIsNotDegenerate(u: Vec4)
    requires Dot(u, u) == 1.0
    ensures Dot(Coarse(u), Coarse(u)) >= 0.4
    ensures !IsDegenerate(AsQuat(Coarse(u)))
  {
    CoarseError(u);
    NotShort(u, Coarse(u));
    StepIsSmall();
    LongIsNotDegenerate(Coarse(u));
    hide *;
  }

  lemma StepIsSmall()
    ensures STEP * STEP <= 0.1
  {
  }

  lemma LongIsNotDegenerate(v: Vec4)
    ensures Dot(v, v) >= 0.4 ==> !IsDegenerate(AsQuat(v))
  {
    LengthOfQuat(v);
    hide Dot;
  }

  /** What the receiver makes of the quantised vector: a unit vector within one step of the sent one, hardly more;
      the fallback for short vectors is never taken. */
  lemma UnitComesBack(u: Vec4, n: real, fallback: Vec4)
    requires Dot(u, u) == 1.0 && RootFor(n, AsQuat(Coarse(u)))
    ensures !IsDegenerate(AsQuat(Coarse(u)))
    ensures IsNear(Unit(AsQuat(Coarse(u)), n, fallback), u, STEP)
  {
    CoarseIsNotDegenerate(u);
    CoarseError(u);
    UnitOfVector(Coarse(u), n, fallback);
    hide *;
    RenormalisedBound(u, Coarse(u), n, STEP);
  }

  lemma UnitOfVector(w: Vec4, n: real, fallback: Vec4)
    requires RootFor(n, AsQuat(w)) && !IsDegenerate(AsQuat(w))
    ensures n > 0.0 && IsRoot(n, Dot(w, w)) && Unit(AsQuat(w), n, fallback) == Over(w, n)
  {
    LengthOfQuat(w);
    hide Dot;
  }

  /** The bound as a distance: within two steps, and the square within one step squared up to one part in 32766. */
  lemma NearIsWithinTwoSteps(r: Vec4, u: Vec4, distance: real)
    requires IsNear(r, u, STEP) && IsRoot(distance, DistanceSq(r, u))
    ensures distance <= 2.0 / UNIT_SCALE
  {
    var sq := DistanceSq(r, u);
    hide DistanceSq, Dot;
    assert sq <= 4.0 * (STEP * STEP) == (2.0 * STEP) * (2.0 * STEP);
    SmallerSquare(distance, 2.0 * STEP);
  }

  lemma DiscreteFieldsSurvive(s: State, u: Vec4, d: Vec4, archetypeId: nat, stableEnemyId: nat, q: Vec4, m: Vec4)
    requires CanEncode(s)
    ensures var w := Quantised(s, u, d);
            && (CanDecode(w, archetypeId, stableEnemyId)
                <==> HeaderOk(s.header) && archetypeId != 0 && stableEnemyId != 0)
            && var t := Restored(w, archetypeId, stableEnemyId, q, m);
            && t.(rotation := s.rotation, velocity := s.velocity, direction := s.direction, speed := s.speed,
                  authorityReserved := s.authorityReserved)
               == s.(archetypeId := archetypeId, entityGuid := stableEnemyId)
            && t.velocity == Vec3(Finite(0.0), Finite(0.0), Finite(0.0)) && t.authorityReserved == [0, 0, 0]
            && t.rotation == AsQuat(q) && t.direction == Vec3(Finite(m.x), Finite(m.y), Finite(m.z))
            && t.speed == Finite(DecodeSpeed(EncodeSpeed(s.speed)))
  {
    hide EncodeUnit, EncodeSpeed, DecodeSpeed;
  }

  /** A vector of a length the code can divide by is sent in its own direction, every component of it; a shorter one,
      or one that is not finite, as no rotation at all and as the second axis. */
  lemma DirectionIsKept(q: Quat, n: real, fallback: Vec4)
    requires RootFor(n, q)
    ensures var finite := q.w.Finite? && q.x.Finite? && q.y.Finite? && q.z.Finite?;
            var u := Unit(q, n, fallback);
            if finite && q.w.r * q.w.r + q.x.r * q.x.r + q.y.r * q.y.r + q.z.r * q.z.r >= 0.000001 then
              n > 0.0 && n * u.w == q.w.r && n * u.x == q.x.r && n * u.y == q.y.r && n * u.z == q.z.r
            else u == fallback
  {
  }

  /** On the wire no rotation is a full real part, and no direction the full second axis. */
  lemma ShortVectorsOnTheWire(s: State)
    ensures var w := Quantised(s, IDENTITY, FORWARD);
            && (w.qw, w.qx, w.qy, w.qz) == (32767, 0, 0, 0)
            && (w.mx, w.my, w.mz) == (0, 32767, 0)
  {
    RoundOfInteger(0);
    RoundOfInteger(32767);
  }

  /** What the narrow fields of the wire packet hold. */
  predicate FitsTheWire(s: State) {
    && s.sourceFlags % 0x10000 == s.sourceFlags && s.locomotionFlags % 0x10000 == s.locomotionFlags
    && s.flags % 0x10000 == s.flags && s.locomotionLevel % 0x100 == s.locomotionLevel
  }

  /** Encode takes exactly the packets that narrowing does not change and that Decode would take under a good header. */
  lemma EncodesExactlyWhatDecodes(s: State, u: Vec4, d: Vec4)
    ensures var good := Header(PACKET_MAGIC, PROTOCOL_VERSION, TEST_MIMIC_STATE, s.header.sequence);
            CanEncode(s) <==> FitsTheWire(s) && CanDecode(Quantised(s.(header := good), u, d), 1, 1)
  {
    FitsByRange(s);
    hide EncodeUnit, EncodeSpeed, FitsTheWire;
  }

  lemma FitsByRange(s: State)
    ensures FitsTheWire(s) <==>
              s.sourceFlags <= 0xffff && s.locomotionFlags <= 0xffff && s.flags <= 0xffff && s.locomotionLevel <= 0xff
  {
  }

  /** Only packets of this protocol's enemy states are decoded, and the receiver's ids are its own. */
  lemma DecodesOnlyItsOwnPackets(w: Wire, archetypeId: nat, stableEnemyId: nat)
    requires CanDecode(w, archetypeId, stableEnemyId)
    ensures w.header.magic == 0x504F4F43 && w.header.version == 249 && w.header.packetType == 7
    ensures 0 !in {w.enemyNetId, archetypeId, stableEnemyId, w.authority.owner, w.authority.epoch}
  {
  }

  /** The unit vector the sender quantises. */
  ghost function Sent(q: Quat, n: real, fallback: Vec4): Vec4
    requires RootFor(n, q)
  {
    Unit(q, n, fallback)
  }

  /** Decode takes every packet that Encode produced under a valid header and nonzero ids; the discrete fields
      and the position come back exactly, the two unit vectors and the speed within the quantisation. */
  lemma WireRoundTrip(s: State, rotationLength: real, directionLength: real, archetypeId: nat, stableEnemyId: nat,
                      wireRotationLength: real, wireDirectionLength: real)
    requires CanEncode(s) && RootFor(rotationLength, s.rotation) && RootFor(directionLength, Lifted(s.direction))
    requires var w := Quantised(s, Sent(s.rotation, rotationLength, IDENTITY),
                                Sent(Lifted(s.direction), directionLength, FORWARD));
             RootFor(wireRotationLength, WireRotation(w)) && RootFor(wireDirectionLength, Lifted(WireDirection(w)))
    ensures var u, d := Sent(s.rotation, rotationLength, IDENTITY), Sent(Lifted(s.direction), directionLength, FORWARD);
            var w := Quantised(s, u, d);
            && !IsDegenerate(WireRotation(w)) && !IsDegenerate(Lifted(WireDirection(w)))
            && (CanDecode(w, archetypeId, stableEnemyId)
                <==> HeaderOk(s.header) && archetypeId != 0 && stableEnemyId != 0)
            && var q, m := Unit(WireRotation(w), wireRotationLength, IDENTITY),
               Unit(Lifted(WireDirection(w)), wireDirectionLength, FORWARD);
            && IsNear(q, u, STEP) && IsNear(m, d, STEP)
            && var t := Restored(w, archetypeId, stableEnemyId, q, m);
            && t.(rotation := s.rotation, velocity := s.velocity, direction := s.direction, speed := s.speed,
                  authorityReserved := s.authorityReserved)
               == s.(archetypeId := archetypeId, entityGuid := stableEnemyId)
            && t.speed == Finite(DecodeSpeed(EncodeSpeed(s.speed)))
            && t.rotation == AsQuat(q) && t.direction == Vec3(Finite(m.x), Finite(m.y), Finite(m.z))
            && t.velocity == Vec3(Finite(0.0), Finite(0.0), Finite(0.0))
  {
    var u, d := Sent(s.rotation, rotationLength, IDENTITY), Sent(Lifted(s.direction), directionLength, FORWARD);
    var w := Quantised(s, u, d);
    hide *;
    SentIsUnit(s.rotation, rotationLength, IDENTITY);
    SentIsUnit(Lifted(s.direction), directionLength, FORWARD);
    DirectionHasNoRealPart(s.direction, directionLength);
    WireVectors(s, u, d);
    CoarseIsNotDegenerate(u);
    CoarseIsNotDegenerate(d);
    UnitComesBack(u, wireRotationLength, IDENTITY);
    UnitComesBack(d, wireDirectionLength, FORWARD);
    DiscreteFieldsSurvive(s, u, d, archetypeId, stableEnemyId,
                          Unit(WireRotation(w), wireRotationLength, IDENTITY),
                          Unit(Lifted(WireDirection(w)), wireDirectionLength, FORWARD));
  }

  lemma WireVectors(s: State, u: Vec4, d: Vec4)
    requires DecodeUnit(EncodeUnit(Finite(d.w))) == 0.0
    ensures WireRotation(Quantised(s, u, d)) == AsQuat(Coarse(u))
    ensures Lifted(WireDirection(Quantised(s, u, d))) == AsQuat(Coarse(d))
  {
    hide EncodeUnit, DecodeUnit;
  }

  lemma SentIsUnit(q: Quat, n: real, fallback: Vec4)
    requires RootFor(n, q) && (fallback == IDENTITY || fallback == FORWARD)
    ensures Dot(Sent(q, n, fallback), Sent(q, n, fallback)) == 1.0
  {
    UnitHasLengthOne(q, n, fallback);
  }

  lemma DirectionHasNoRealPart(v: Vec3, n: real)
    requires RootFor(n, Lifted(v))
    ensures var d := Sent(Lifted(v), n, FORWARD); d.w == 0.0 && DecodeUnit(EncodeUnit(Finite(d.w))) == 0.0
  {
    RoundOfInteger(0);
  }

  /** The flag word is narrowed to 16 bits: a state with a higher flag, such as the ragdoll flag, is never sent. */
  lemma RagdolledIsNeverEncoded(s: State)
    requires s.locomotionFlags / RAGDOLLED % 2 == 1
    ensures !CanEncode(s)
  {
  }
}
