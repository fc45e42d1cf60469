/** The Ausy0201Tank unit: throttle and turn-rate smoothing, shortest-arc turret slewing,
    obstacle-blocked movement, the fire cooldown and the hull hit test. */
module Units {
  import opened Geometry
  import opened Core

  // The tuning constants of the tank.
  const AccelerateTimeConstant: real := 0.5
  const DecelerateTimeConstant: real := 1.0
  const AngularAccelerateTimeConstant: real := 0.5
  const AngularDecelerateTimeConstant: real := 0.5
  const TurretRotationTimeConstant: real := 0.3
  const MaxSpeed: real := 5.0

  /** The throttle targets for W and for S. */
  const ForwardTarget: real := 1.0
  const ReverseTarget: real := -0.4

  /** The cursor must be farther than 1e-4 from the tank for the turret to aim at it;
      compared here on squared lengths. */
  const MinAimDistanceSq: real := 0.00000001

  /** The maximum angular speed, glm::radians(180.0f) per second. */
  function MaxAngularSpeed(trig: Trig): real { trig.Radians(180.0) }

  /** A tick no longer than the smallest time constant, so that every smoothing factor
      dt / tc lies in (0, 1]. */
  predicate ValidTick(dt: real) { 0.0 < dt <= TurretRotationTimeConstant }

  /** m lies between a and b, whichever of them is larger. */
  predicate Between(a: real, m: real, b: real) { (a <= m <= b) || (b <= m <= a) }

  // ---------------------------------------------------------------------------------------
  // First-order exponential approach

  /** One step of x toward target with smoothing factor k. */
  function Smooth(x: real, target: real, k: real): real { x + (target - x) * k }

  lemma MulNonneg(a: real, b: real)
    requires a >= 0.0 && b >= 0.0
    ensures a * b >= 0.0
  {
  }

  lemma MulPos(a: real, b: real)
    requires a > 0.0 && b > 0.0
    ensures a * b > 0.0
  {
  }

  /** A smoothing step with 0 < k <= 1 shrinks the distance to the target by the factor
      1 - k and so never overshoots it. */
  lemma SmoothApproaches(x: real, target: real, k: real)
    requires 0.0 < k <= 1.0
    ensures target - Smooth(x, target, k) == (1.0 - k) * (target - x)
    ensures Between(x, Smooth(x, target, k), target)
  {
    var d := target - x;
    if d >= 0.0 {
      MulNonneg(d, k);
      MulNonneg(d, 1.0 - k);
    } else {
      MulNonneg(-d, k);
      MulNonneg(-d, 1.0 - k);
    }
  }

  /** Each time constant is positive, so each smoothing factor is in (0, 1] for a valid tick. */
  lemma SmoothingFactors(dt: real)
    requires ValidTick(dt)
    ensures 0.0 < dt / AccelerateTimeConstant <= 1.0
    ensures 0.0 < dt / DecelerateTimeConstant < 1.0
    ensures 0.0 < dt / AngularAccelerateTimeConstant <= 1.0
    ensures 0.0 < dt / AngularDecelerateTimeConstant <= 1.0
    ensures 0.0 < dt / TurretRotationTimeConstant <= 1.0
  {
  }

  // ---------------------------------------------------------------------------------------
  // Throttle

  /** The key sum of TankMove: +1 for the forward (or left) key, -1 for the backward
      (or right) key. */
  function Acceleration(plus: bool, minus: bool): (a: int)
    ensures -1 <= a <= 1
    ensures a == 0 <==> plus == minus
    ensures a == 1 <==> plus && !minus
  {
    (if plus then 1 else 0) - (if minus then 1 else 0)
  }

  /** UpdateSpeedScale on values. */
  function NextSpeedScale(s: real, acceleration: int, dt: real): real {
    if acceleration == 0 then s - s * dt / DecelerateTimeConstant
    else if acceleration == 1 then s + (ForwardTarget - s) * dt / AccelerateTimeConstant
    else s + (ReverseTarget - s) * dt / AccelerateTimeConstant
  }

  predicate InThrottleRange(s: real) { ReverseTarget <= s <= ForwardTarget }

  /** With neutral input the throttle decays to s * (1 - k): toward 0, never past it, and
      never reaching it from a non-zero value, since k < 1. */
  lemma NeutralThrottleDecay(s: real, dt: real)
    requires ValidTick(dt)
    ensures NextSpeedScale(s, 0, dt) == s * (1.0 - dt / DecelerateTimeConstant)
    ensures Between(0.0, NextSpeedScale(s, 0, dt), s)
    ensures s > 0.0 ==> NextSpeedScale(s, 0, dt) > 0.0
    ensures s < 0.0 ==> NextSpeedScale(s, 0, dt) < 0.0
  {
    var k := dt / DecelerateTimeConstant;
    var n := NextSpeedScale(s, 0, dt);
    assert n == Smooth(s, 0.0, k);
    SmoothApproaches(s, 0.0, k);
    assert k < 1.0;
    assert n == s * (1.0 - k);
    if s > 0.0 {
      var q := 1.0 - k;
      MulPos(s, q);
      assert s * q > 0.0;
      assert n == s * q;
      assert n > 0.0;
    } else if s < 0.0 {
      var q := 1.0 - k;
      MulPos(-s, q);
      assert -s * q > 0.0;
      assert -s * q == -n;
      assert n < 0.0;
    }
  }

  /** With W the throttle moves toward 1, with S toward -0.4, never overshooting. */
  lemma ThrottleApproach(s: real, acceleration: int, dt: real)
    requires ValidTick(dt)
    requires acceleration != 0
    ensures acceleration == 1 ==> Between(s, NextSpeedScale(s, acceleration, dt), ForwardTarget)
    ensures acceleration != 1 ==> Between(s, NextSpeedScale(s, acceleration, dt), ReverseTarget)
  {
    var k := dt / AccelerateTimeConstant;
    if acceleration == 1 {
      assert NextSpeedScale(s, acceleration, dt) == Smooth(s, ForwardTarget, k);
      SmoothApproaches(s, ForwardTarget, k);
    } else {
      assert NextSpeedScale(s, acceleration, dt) == Smooth(s, ReverseTarget, k);
      SmoothApproaches(s, ReverseTarget, k);
    }
  }

  /** A throttle in [-0.4, 1] stays in [-0.4, 1], whatever the input. */
  lemma ThrottleStaysInRange(s: real, acceleration: int, dt: real)
    requires ValidTick(dt)
    requires InThrottleRange(s)
    ensures InThrottleRange(NextSpeedScale(s, acceleration, dt))
  {
    if acceleration == 0 {
      NeutralThrottleDecay(s, dt);
    } else {
      ThrottleApproach(s, acceleration, dt);
    }
  }

  /** The throttle target and smoothing factor selected by an acceleration. */
  function ThrottleTarget(acceleration: int): real {
    if acceleration == 0 then 0.0 else if acceleration == 1 then ForwardTarget else ReverseTarget
  }

  function ThrottleFactor(acceleration: int, dt: real): real {
    if acceleration == 0 then dt / DecelerateTimeConstant else dt / AccelerateTimeConstant
  }

  /** The throttle after n ticks of the same input. */
  function ThrottleAfter(s: real, acceleration: int, dt: real, n: nat): real {
    if n == 0 then s else NextSpeedScale(ThrottleAfter(s, acceleration, dt, n - 1), acceleration, dt)
  }

  /** Holding an input, the throttle moves monotonically toward its target: every tick lands
      between the previous value and the target, so no tick ever overshoots it. */
  lemma {:induction false} ThrottleMonotone(s: real, acceleration: int, dt: real, n: nat)
    requires ValidTick(dt)
    ensures Between(s, ThrottleAfter(s, acceleration, dt, n), ThrottleTarget(acceleration))
    ensures Between(ThrottleAfter(s, acceleration, dt, n), ThrottleAfter(s, acceleration, dt, n + 1),
                    ThrottleTarget(acceleration))
  {
    var x := ThrottleAfter(s, acceleration, dt, n);
    var target, k := ThrottleTarget(acceleration), ThrottleFactor(acceleration, dt);
    assert ThrottleAfter(s, acceleration, dt, n + 1) == NextSpeedScale(x, acceleration, dt);
    assert NextSpeedScale(x, acceleration, dt) == Smooth(x, target, k);
    SmoothApproaches(x, target, k);
    if n > 0 {
      ThrottleMonotone(s, acceleration, dt, n - 1);
    }
  }

  /** Under neutral input a moving tank keeps the sign of its throttle for ever: the decay
      toward 0 never reaches it. */
  lemma {:induction false} NeutralNeverStops(s: real, dt: real, n: nat)
    requires ValidTick(dt)
    ensures s > 0.0 ==> ThrottleAfter(s, 0, dt, n) > 0.0
    ensures s < 0.0 ==> ThrottleAfter(s, 0, dt, n) < 0.0
  {
    if n > 0 {
      NeutralNeverStops(s, dt, n - 1);
      NeutralThrottleDecay(ThrottleAfter(s, 0, dt, n - 1), dt);
    }
  }

  // ---------------------------------------------------------------------------------------
  // Turn rate

  /** UpdateAngularSpeedScale on values. */
  function NextAngularSpeedScale(a: real, angularAcceleration: int, dt: real): real {
    if angularAcceleration == 0 then a - a * dt / AngularDecelerateTimeConstant
    else a + (angularAcceleration as real - a) * dt / AngularAccelerateTimeConstant
  }

  predicate InAngularRange(a: real) { -1.0 <= a <= 1.0 }

  /** The turn rate moves toward +1 (A), -1 (D) or 0 (neither or both) without overshoot,
      so it stays in [-1, 1]. */
  lemma AngularScaleApproach(a: real, angularAcceleration: int, dt: real)
    requires ValidTick(dt)
    requires -1 <= angularAcceleration <= 1
    ensures Between(a, NextAngularSpeedScale(a, angularAcceleration, dt), angularAcceleration as real)
    ensures InAngularRange(a) ==> InAngularRange(NextAngularSpeedScale(a, angularAcceleration, dt))
  {
    if angularAcceleration == 0 {
      var k := dt / AngularDecelerateTimeConstant;
      assert NextAngularSpeedScale(a, angularAcceleration, dt) == Smooth(a, 0.0, k);
      SmoothApproaches(a, 0.0, k);
    } else {
      var k := dt / AngularAccelerateTimeConstant;
      assert NextAngularSpeedScale(a, angularAcceleration, dt)
          == Smooth(a, angularAcceleration as real, k);
      SmoothApproaches(a, angularAcceleration as real, k);
    }
  }

  // ---------------------------------------------------------------------------------------
  // Turret

  /** The shortest-arc adjustment of the target by a full turn. */
  function AdjustTarget(r: real, target: real, pi: real): real {
    if target - r > pi then target - 2.0 * pi
    else if r - target > pi then target + 2.0 * pi
    else target
  }

  /** The smoothing step of the turret toward an (adjusted) target. */
  function SlewTurret(r: real, target: real, dt: real): real {
    r + (target - r) * dt / TurretRotationTimeConstant
  }

  /** The re-normalisation into [-270 degrees, 90 degrees]. */
  function WrapTurret(r: real, pi: real): real {
    if r < -3.0 * pi / 2.0 then r + 2.0 * pi
    else if r > pi / 2.0 then r - 2.0 * pi
    else r
  }

  /** UpdateTurretRotation on values. */
  function NextTurretRotation(r: real, target: real, dt: real, pi: real): real {
    WrapTurret(SlewTurret(r, AdjustTarget(r, target, pi), dt), pi)
  }

  predicate InTurretRange(r: real, pi: real) { -3.0 * pi / 2.0 <= r <= pi / 2.0 }

  /** After the adjustment the target is the same direction (up to a full turn) and within a
      half turn of the turret, provided it started less than one and a half turns away; a
      target already within a half turn is left alone. */
  lemma ShortestArc(r: real, target: real, pi: real)
    requires pi > 0.0
    requires -3.0 * pi < target - r < 3.0 * pi
    ensures -pi <= AdjustTarget(r, target, pi) - r <= pi
    ensures AdjustTarget(r, target, pi) - target in {-2.0 * pi, 0.0, 2.0 * pi}
    ensures -pi <= target - r <= pi ==> AdjustTarget(r, target, pi) == target
  {
  }

  /** The turret steps toward the adjusted target without passing it. */
  lemma TurretSlewNoOvershoot(r: real, target: real, dt: real, pi: real)
    requires ValidTick(dt)
    ensures Between(r, SlewTurret(r, AdjustTarget(r, target, pi), dt), AdjustTarget(r, target, pi))
  {
    var t := AdjustTarget(r, target, pi);
    var k := dt / TurretRotationTimeConstant;
    assert SlewTurret(r, t, dt) == Smooth(r, t, k);
    SmoothApproaches(r, t, k);
  }

  /** Re-normalisation moves the rotation by a whole turn or not at all, and brings any
      rotation in [-450 degrees, 270 degrees] into [-270 degrees, 90 degrees]. */
  lemma TurretWrap(r: real, pi: real)
    requires pi > 0.0
    ensures WrapTurret(r, pi) - r in {-2.0 * pi, 0.0, 2.0 * pi}
    ensures -5.0 * pi / 2.0 <= r <= 3.0 * pi / 2.0 ==> InTurretRange(WrapTurret(r, pi), pi)
  {
  }

  /** A turret in [-270 degrees, 90 degrees] aiming at a target in the range of atan2 minus
      90 degrees stays in [-270 degrees, 90 degrees]. */
  lemma TurretRangePreserved(r: real, target: real, dt: real, pi: real)
    requires ValidTick(dt) && pi > 0.0
    requires InTurretRange(r, pi)
    requires -3.0 * pi / 2.0 < target <= pi / 2.0
    ensures InTurretRange(NextTurretRotation(r, target, dt, pi), pi)
  {
    ShortestArc(r, target, pi);
    TurretSlewNoOvershoot(r, target, dt, pi);
    TurretWrap(SlewTurret(r, AdjustTarget(r, target, pi), dt), pi);
  }

  /** The target of TurretRotate: the direction of the cursor, measured from the tank's
      forward axis, or the body rotation when the cursor is on the tank. */
  function TurretTarget(cursor: Vec, position: Vec, rotation: real, trig: Trig): real {
    var diff := Sub(cursor, position);
    if NormSq(diff) > MinAimDistanceSq then trig.atan2(diff.y, diff.x) - trig.Radians(90.0)
    else rotation
  }

  /** An aim at a cursor off the tank lies in (-270 degrees, 90 degrees], so the turret
      stays in range. */
  lemma TurretAimKeepsRange(r: real, cursor: Vec, position: Vec, rotation: real, dt: real, trig: Trig)
    requires trig.Valid() && ValidTick(dt)
    requires InTurretRange(r, trig.pi)
    requires NormSq(Sub(cursor, position)) > MinAimDistanceSq
    ensures -3.0 * trig.pi / 2.0 < TurretTarget(cursor, position, rotation, trig) <= trig.pi / 2.0
    ensures InTurretRange(NextTurretRotation(r, TurretTarget(cursor, position, rotation, trig), dt, trig.pi), trig.pi)
  {
    var diff := Sub(cursor, position);
    assert -trig.pi < trig.atan2(diff.y, diff.x) <= trig.pi;
    TurretRangePreserved(r, TurretTarget(cursor, position, rotation, trig), dt, trig.pi);
  }

  // ---------------------------------------------------------------------------------------
  // Fire

  datatype FireOutcome = FireOutcome(countDown: nat, shot: Option<BulletType>)

  /** Fire on values: the bullet spawned, if any, and the new countdown. */
  function NextFire(countDown: nat, input: Option<InputData>, tickPerSecond: nat): FireOutcome {
    var shot :=
      if countDown == 0 && input.Some? then
        if input.value.mouseLeft then Some(CannonBallType)
        else if input.value.mouseRight then Some(SuperballType)
        else None
      else None;
    var reloaded :=
      if shot == Some(CannonBallType) then tickPerSecond
      else if shot == Some(SuperballType) then 2 * tickPerSecond
      else countDown;
    FireOutcome(if reloaded > 0 then reloaded - 1 else 0, shot)
  }

  /** A bullet is spawned only when the countdown is 0 on entry, the left button winning over
      the right; a left shot leaves kTickPerSecond - 1 ticks to wait, a right shot
      2 * kTickPerSecond - 1; otherwise the countdown decreases to 0 and stays there. */
  lemma FireCooldown(countDown: nat, input: Option<InputData>, tickPerSecond: nat)
    requires tickPerSecond >= 1
    ensures var f := NextFire(countDown, input, tickPerSecond);
      && (f.shot.Some? ==> countDown == 0 && input.Some?)
      && (f.shot == Some(CannonBallType) <==> countDown == 0 && input.Some? && input.value.mouseLeft)
      && (f.shot == Some(SuperballType) <==>
            countDown == 0 && input.Some? && !input.value.mouseLeft && input.value.mouseRight)
      && (f.shot == Some(CannonBallType) ==> f.countDown == tickPerSecond - 1)
      && (f.shot == Some(SuperballType) ==> f.countDown == 2 * tickPerSecond - 1)
      && (f.shot.None? ==> f.countDown == if countDown > 0 then countDown - 1 else 0)
  {
  }

  /** The GenerateBullet event of a shot: the bullet starts 1.2 ahead of the tank along the
      turret and flies along it at speed 20. */
  function ShotEvent(bulletType: BulletType, id: nat, playerId: nat, position: Vec,
                     turretRotation: real, damageScale: real, trig: Trig): Event {
    var frame := trig.cosSin(turretRotation);
    GenerateBullet(bulletType, id, playerId, Add(position, Rotate(frame, Vec(0.0, 1.2))),
                   turretRotation, damageScale, Rotate(frame, Vec(0.0, 20.0)))
  }

  function ShotEvents(shot: Option<BulletType>, id: nat, playerId: nat, position: Vec,
                      turretRotation: real, damageScale: real, trig: Trig): seq<Event> {
    if shot.Some? then [ShotEvent(shot.value, id, playerId, position, turretRotation, damageScale, trig)]
    else []
  }

  /** A spawned bullet always flies at speed 20 from the muzzle 1.2 ahead of the tank. */
  lemma ShotGeometry(bulletType: BulletType, id: nat, playerId: nat, position: Vec,
                     turretRotation: real, damageScale: real, trig: Trig)
    ensures var e := ShotEvent(bulletType, id, playerId, position, turretRotation, damageScale, trig);
      && NormSq(e.velocity) == 400.0
      && NormSq(Sub(e.position, position)) == 1.44
  {
    var frame := trig.cosSin(turretRotation);
    RotatePreservesNorm(frame, Vec(0.0, 20.0));
    RotatePreservesNorm(frame, Vec(0.0, 1.2));
  }

  // ---------------------------------------------------------------------------------------
  // Hull hit test

  /** IsHit on a point already in the tank's local frame: the body rectangle
      (-0.8, 0.8) x (-1, 1) with the two front corners cut off. */
  predicate IsHit(p: Vec) {
    p.x > -0.8 && p.x < 0.8 && p.y > -1.0 && p.y < 1.0 && p.x + p.y < 1.6 && p.y - p.x < 1.6
  }

  /** The centre is inside, (2, 2) is outside, and the side walls x = -0.8 and x = 0.8 are
      outside (the inequalities are strict). */
  lemma HullHitExamples(y: real)
    ensures IsHit(Vec(0.0, 0.0))
    ensures !IsHit(Vec(2.0, 2.0))
    ensures !IsHit(Vec(0.8, y)) && !IsHit(Vec(-0.8, y))
  {
  }

  /** The hull is symmetric under x -> -x. */
  lemma HullSymmetric(p: Vec)
    ensures IsHit(p) <==> IsHit(Vec(-p.x, p.y))
  {
  }

  // ---------------------------------------------------------------------------------------
  // Movement

  predicate IsMove(e: Event) { e.MoveUnit? }

  predicate IsRotate(e: Event) { e.RotateUnit? }

  datatype MoveOutcome = MoveOutcome(speedScale: real, angularSpeedScale: real,
                                     newPosition: Vec, events: seq<Event>)

  /** Where a tank at position, heading rotation, would be after one tick at throttle s. */
  function TentativePosition(position: Vec, rotation: real, moveSpeed: real, s: real,
                             dt: real, trig: Trig): Vec {
    Add(position, Rotate(trig.cosSin(rotation), Scale(Vec(0.0, 1.0), dt * (moveSpeed * s))))
  }

  /** The events of one TankMove: the MoveUnit of a free move, then the RotateUnit. */
  function MoveEvents(blocked: bool, move: Event, turn: Event): seq<Event> {
    if blocked then [turn] else [move, turn]
  }

  /** The heading after one tick of turning at turn rate a. */
  function Turned(rotation: real, dt: real, rotateAngularSpeed: real, a: real): real {
    rotation + dt * rotateAngularSpeed * a
  }

  /** TankMove on values, for a tank whose player exists. */
  function MoveStep(speedScale: real, angularSpeedScale: real, id: nat, position: Vec,
                    rotation: real, input: InputData, world: World, moveSpeed: real,
                    rotateAngularSpeed: real, clock: Clock, trig: Trig): MoveOutcome {
    var dt := clock.secondPerTick;
    var s := NextSpeedScale(speedScale, Acceleration(input.keyW, input.keyS), dt);
    var newPosition := TentativePosition(position, rotation, moveSpeed, s, dt, trig);
    var blocked := world.isBlockedByObstacles(newPosition);
    var a := NextAngularSpeedScale(angularSpeedScale, Acceleration(input.keyA, input.keyD), dt);
    MoveOutcome(if blocked then 0.0 else s, a, newPosition,
                MoveEvents(blocked, MoveUnit(id, newPosition),
                           RotateUnit(id, Turned(rotation, dt, rotateAngularSpeed, a))))
  }

  /** The tentative position of a move lies dt * speed ahead of the tank, whatever its
      heading. */
  lemma MoveDistance(speedScale: real, angularSpeedScale: real, id: nat, position: Vec,
                     rotation: real, input: InputData, world: World, moveSpeed: real,
                     rotateAngularSpeed: real, clock: Clock, trig: Trig)
    ensures var m := MoveStep(speedScale, angularSpeedScale, id, position, rotation, input,
                              world, moveSpeed, rotateAngularSpeed, clock, trig);
      var dt := clock.secondPerTick;
      var s := NextSpeedScale(speedScale, Acceleration(input.keyW, input.keyS), dt);
      NormSq(Sub(m.newPosition, position)) == (dt * moveSpeed * s) * (dt * moveSpeed * s)
  {
    var dt := clock.secondPerTick;
    var s := NextSpeedScale(speedScale, Acceleration(input.keyW, input.keyS), dt);
    var offset := Scale(Vec(0.0, 1.0), dt * (moveSpeed * s));
    RotatePreservesNorm(trig.cosSin(rotation), offset);
    assert offset == Vec(0.0, dt * (moveSpeed * s));
    assert dt * (moveSpeed * s) == dt * moveSpeed * s;
  }

  /** A blocked move pushes no MoveUnit; a free one pushes exactly the given one. Either way
      exactly one RotateUnit, the given one, is pushed. */
  lemma MoveEventsCounts(blocked: bool, id: nat, newPosition: Vec, turn: Event)
    requires turn.RotateUnit?
    ensures var es := MoveEvents(blocked, MoveUnit(id, newPosition), turn);
      && CountWhere(es, IsMove) == (if blocked then 0 else 1)
      && (!blocked ==> MoveUnit(id, newPosition) in es)
      && CountWhere(es, IsRotate) == 1
      && turn in es
  {
    var es := MoveEvents(blocked, MoveUnit(id, newPosition), turn);
    if blocked {
      assert es[..0] == [];
    } else {
      assert es[..1] == [MoveUnit(id, newPosition)];
      assert es[..1][..0] == [];
    }
  }

  /** A move into a blocked cell zeroes the throttle and pushes no MoveUnit event; a free one
      keeps the smoothed throttle and pushes exactly one MoveUnit, to the tentative position.
      Either way exactly one RotateUnit is pushed, turning the tank by
      dt * maxAngular * turnRate. */
  lemma BlockedMove(speedScale: real, angularSpeedScale: real, id: nat, position: Vec,
                    rotation: real, input: InputData, world: World, moveSpeed: real,
                    rotateAngularSpeed: real, clock: Clock, trig: Trig)
    ensures var m := MoveStep(speedScale, angularSpeedScale, id, position, rotation, input, world, moveSpeed, rotateAngularSpeed, clock, trig);
      world.isBlockedByObstacles(m.newPosition) ==>
        m.speedScale == 0.0 && CountWhere(m.events, IsMove) == 0
    ensures var m := MoveStep(speedScale, angularSpeedScale, id, position, rotation, input, world, moveSpeed, rotateAngularSpeed, clock, trig);
      !world.isBlockedByObstacles(m.newPosition) ==>
        m.speedScale == NextSpeedScale(speedScale, Acceleration(input.keyW, input.keyS), clock.secondPerTick) &&
        CountWhere(m.events, IsMove) == 1 && MoveUnit(id, m.newPosition) in m.events
    ensures var m := MoveStep(speedScale, angularSpeedScale, id, position, rotation, input, world, moveSpeed, rotateAngularSpeed, clock, trig);
      CountWhere(m.events, IsRotate) == 1 &&
      RotateUnit(id, Turned(rotation, clock.secondPerTick, rotateAngularSpeed, m.angularSpeedScale)) in m.events
  {
    var m := MoveStep(speedScale, angularSpeedScale, id, position, rotation, input,
                      world, moveSpeed, rotateAngularSpeed, clock, trig);
    var dt := clock.secondPerTick;
    var turn := RotateUnit(id, Turned(rotation, dt, rotateAngularSpeed, m.angularSpeedScale));
    var blocked := world.isBlockedByObstacles(m.newPosition);
    var mv := MoveUnit(id, m.newPosition);
    assert |m.events| == if blocked then 1 else 2;
    assert m.events[|m.events| - 1] == turn;
    if blocked {
      assert m.events == [turn] == MoveEvents(blocked, mv, turn);
    } else {
      assert m.events[0] == mv;
      assert m.events == [mv, turn] == MoveEvents(blocked, mv, turn);
    }
    MoveEventsCounts(blocked, id, m.newPosition, turn);
    assert blocked ==> CountWhere(m.events, IsMove) == 0;
    assert !blocked ==> CountWhere(m.events, IsMove) == 1;
    assert !blocked ==> mv in m.events;
    assert CountWhere(m.events, IsRotate) == 1;
    assert turn in m.events;
    var s := NextSpeedScale(speedScale, Acceleration(input.keyW, input.keyS), dt);
    assert blocked ==> m.speedScale == 0.0;
    assert !blocked ==> m.speedScale == s;
  }

  /** TankMove keeps the throttle in [-0.4, 1] and the turn rate in [-1, 1]. */
  lemma MoveKeepsScalesInRange(speedScale: real, angularSpeedScale: real, id: nat, position: Vec,
                               rotation: real, input: InputData, world: World, moveSpeed: real,
                               rotateAngularSpeed: real, clock: Clock, trig: Trig)
    requires ValidTick(clock.secondPerTick)
    requires InThrottleRange(speedScale) && InAngularRange(angularSpeedScale)
    ensures var m := MoveStep(speedScale, angularSpeedScale, id, position, rotation, input,
                              world, moveSpeed, rotateAngularSpeed, clock, trig);
      InThrottleRange(m.speedScale) && InAngularRange(m.angularSpeedScale)
  {
    var dt := clock.secondPerTick;
    ThrottleStaysInRange(speedScale, Acceleration(input.keyW, input.keyS), dt);
    AngularScaleApproach(angularSpeedScale, Acceleration(input.keyA, input.keyD), dt);
  }

  // ---------------------------------------------------------------------------------------
  // The tank

  class Ausy0201Tank {
    // Fields of the Unit base class. The tank never writes position and rotation: they
    // change when the game core applies the MoveUnit and RotateUnit events.
    const id: nat
    const playerId: nat
    const damageScale: real
    var position: Vec
    var rotation: real

    var turretRotation: real
    var fireCountDown: nat
    var speedScale: real
    var angularSpeedScale: real

    /** The ranges the smoothing keeps. */
    ghost predicate Valid()
      reads this
    {
      InThrottleRange(speedScale) && InAngularRange(angularSpeedScale)
    }

    constructor (id: nat, playerId: nat, position: Vec, rotation: real, damageScale: real)
      ensures this.id == id && this.playerId == playerId && this.damageScale == damageScale
      ensures this.position == position && this.rotation == rotation
      ensures turretRotation == 0.0 && fireCountDown == 0
      ensures speedScale == 0.0 && angularSpeedScale == 0.0
      ensures Valid()
    {
      this.id := id;
      this.playerId := playerId;
      this.damageScale := damageScale;
      this.position := position;
      this.rotation := rotation;
      turretRotation := 0.0;
      fireCountDown := 0;
      speedScale := 0.0;
      angularSpeedScale := 0.0;
    }

    function GetSpeedScale(): real
      reads this
    {
      speedScale
    }

    function GetAngularSpeedScale(): real
      reads this
    {
      angularSpeedScale
    }

    method SetSpeedScale(speedScale: real)
      modifies this`speedScale
      ensures this.speedScale == speedScale
      ensures InThrottleRange(speedScale) && old(InAngularRange(angularSpeedScale)) ==> Valid()
    {
      this.speedScale := speedScale;
    }

    method UpdateSpeedScale(acceleration: int, clock: Clock)
      modifies this`speedScale
      ensures speedScale == NextSpeedScale(old(speedScale), acceleration, clock.secondPerTick)
      ensures ValidTick(clock.secondPerTick) && old(InThrottleRange(speedScale)) ==> InThrottleRange(speedScale)
    {
      ghost var s0 := speedScale;
      if acceleration == 0 {
        speedScale := speedScale - speedScale * clock.secondPerTick / DecelerateTimeConstant;
      } else if acceleration == 1 {
        speedScale := speedScale + (ForwardTarget - speedScale) * clock.secondPerTick / AccelerateTimeConstant;
      } else {
        speedScale := speedScale + (ReverseTarget - speedScale) * clock.secondPerTick / AccelerateTimeConstant;
      }
      assert speedScale == NextSpeedScale(s0, acceleration, clock.secondPerTick);
      if ValidTick(clock.secondPerTick) && InThrottleRange(s0) {
        ThrottleStaysInRange(s0, acceleration, clock.secondPerTick);
      }
    }

    method UpdateAngularSpeedScale(angularAcceleration: int, clock: Clock)
      modifies this`angularSpeedScale
      ensures angularSpeedScale
           == NextAngularSpeedScale(old(angularSpeedScale), angularAcceleration, clock.secondPerTick)
      ensures ValidTick(clock.secondPerTick) && -1 <= angularAcceleration <= 1 && old(InAngularRange(angularSpeedScale))
              ==> InAngularRange(angularSpeedScale)
    {
      if angularAcceleration == 0 {
        angularSpeedScale := angularSpeedScale
          - angularSpeedScale * clock.secondPerTick / AngularDecelerateTimeConstant;
      } else {
        angularSpeedScale := angularSpeedScale
          + (angularAcceleration as real - angularSpeedScale) * clock.secondPerTick / AngularAccelerateTimeConstant;
      }
      if ValidTick(clock.secondPerTick) && -1 <= angularAcceleration <= 1 {
        AngularScaleApproach(old(angularSpeedScale), angularAcceleration, clock.secondPerTick);
      }
    }

    method UpdateTurretRotation(targetTurretRotation: real, clock: Clock, trig: Trig)
      modifies this`turretRotation
      ensures turretRotation
           == NextTurretRotation(old(turretRotation), targetTurretRotation, clock.secondPerTick, trig.pi)
      ensures ValidTick(clock.secondPerTick) && trig.pi > 0.0 && old(InTurretRange(turretRotation, trig.pi))
              && -3.0 * trig.pi / 2.0 < targetTurretRotation <= trig.pi / 2.0
              ==> InTurretRange(turretRotation, trig.pi)
    {
      var halfTurn, fullTurn := trig.Radians(180.0), trig.Radians(360.0);
      assert halfTurn == trig.pi && fullTurn == 2.0 * trig.pi;
      assert trig.Radians(-270.0) == -3.0 * trig.pi / 2.0 && trig.Radians(90.0) == trig.pi / 2.0;
      var target := targetTurretRotation;
      if target - turretRotation > halfTurn {
        target := target - fullTurn;
      } else if turretRotation - target > halfTurn {
        target := target + fullTurn;
      }
      assert target == AdjustTarget(old(turretRotation), targetTurretRotation, trig.pi);
      turretRotation := turretRotation
        + (target - turretRotation) * clock.secondPerTick / TurretRotationTimeConstant;
      assert turretRotation == SlewTurret(old(turretRotation), target, clock.secondPerTick);
      if turretRotation < trig.Radians(-270.0) {
        turretRotation := turretRotation + fullTurn;
      } else if turretRotation > trig.Radians(90.0) {
        turretRotation := turretRotation - fullTurn;
      }
      if ValidTick(clock.secondPerTick) && trig.pi > 0.0 && old(InTurretRange(turretRotation, trig.pi))
         && -3.0 * trig.pi / 2.0 < targetTurretRotation <= trig.pi / 2.0 {
        TurretRangePreserved(old(turretRotation), targetTurretRotation, clock.secondPerTick, trig.pi);
      }
    }

    /** input is the player's sampled input, None when GetPlayer finds no player. */
    method TankMove(moveSpeed: real, rotateAngularSpeed: real, core: GameCore,
                    input: Option<InputData>, world: World, clock: Clock, trig: Trig)
      modifies this`speedScale, this`angularSpeedScale, core
      ensures input.None? ==>
        speedScale == old(speedScale) && angularSpeedScale == old(angularSpeedScale) &&
        core.events == old(core.events)
      ensures input.Some? ==>
        var m := MoveStep(old(speedScale), old(angularSpeedScale), id, position, rotation,
                          input.value, world, moveSpeed, rotateAngularSpeed, clock, trig);
        speedScale == m.speedScale && angularSpeedScale == m.angularSpeedScale &&
        core.events == old(core.events) + m.events
      ensures ValidTick(clock.secondPerTick) && old(Valid()) ==> Valid()
    {
      if input.Some? {
        ghost var m := MoveStep(speedScale, angularSpeedScale, id, position, rotation,
                                input.value, world, moveSpeed, rotateAngularSpeed, clock, trig);
        ghost var events0 := core.events;
        var newPosition := Advance(moveSpeed, core, input.value, world, clock, trig);
        ghost var events1 := core.events;
        Turn(rotateAngularSpeed, core, input.value, clock);
        ghost var blocked := world.isBlockedByObstacles(newPosition);
        ghost var turn := RotateUnit(id, Turned(rotation, clock.secondPerTick, rotateAngularSpeed, angularSpeedScale));
        assert core.events == events0 + (if blocked then [] else [MoveUnit(id, newPosition)]) + [turn];
        assert |m.events| == if blocked then 1 else 2;
        assert m.events[|m.events| - 1] == turn;
        if !blocked {
          assert m.events[0] == MoveUnit(id, newPosition);
          assert m.events == [MoveUnit(id, newPosition), turn];
        } else {
          assert m.events == [turn];
        }
      }
    }

    /** The movement half of TankMove: smooth the throttle, then push a MoveUnit to the
        tentative position if it is free, or zero the throttle if it is blocked. */
    method Advance(moveSpeed: real, core: GameCore, inputData: InputData, world: World,
                   clock: Clock, trig: Trig) returns (newPosition: Vec)
      modifies this`speedScale, core
      ensures var s := NextSpeedScale(old(speedScale), Acceleration(inputData.keyW, inputData.keyS),
                                      clock.secondPerTick);
        && newPosition == TentativePosition(position, rotation, moveSpeed, s, clock.secondPerTick, trig)
        && speedScale == (if world.isBlockedByObstacles(newPosition) then 0.0 else s)
        && core.events == old(core.events)
             + (if world.isBlockedByObstacles(newPosition) then [] else [MoveUnit(id, newPosition)])
      ensures ValidTick(clock.secondPerTick) && old(InThrottleRange(speedScale)) ==> InThrottleRange(speedScale)
    {
      var offset := Vec(0.0, 1.0);
      var acceleration := 0;
      if inputData.keyW {
        acceleration := acceleration + 1;
      }
      if inputData.keyS {
        acceleration := acceleration - 1;
      }
      UpdateSpeedScale(acceleration, clock);
      assert acceleration == Acceleration(inputData.keyW, inputData.keyS);
      var speed := moveSpeed * GetSpeedScale();
      offset := Scale(offset, clock.secondPerTick * speed);
      newPosition := Add(position, Rotate(trig.cosSin(rotation), offset));
      if !world.isBlockedByObstacles(newPosition) {
        core.PushEvent(MoveUnit(id, newPosition));
      } else {
        SetSpeedScale(0.0);
      }
    }

    /** The turning half of TankMove: smooth the turn rate and push the RotateUnit. */
    method Turn(rotateAngularSpeed: real, core: GameCore, inputData: InputData, clock: Clock)
      modifies this`angularSpeedScale, core
      ensures angularSpeedScale == NextAngularSpeedScale(old(angularSpeedScale),
                                                         Acceleration(inputData.keyA, inputData.keyD),
                                                         clock.secondPerTick)
      ensures core.events == old(core.events)
        + [RotateUnit(id, Turned(rotation, clock.secondPerTick, rotateAngularSpeed, angularSpeedScale))]
      ensures ValidTick(clock.secondPerTick) && old(InAngularRange(angularSpeedScale)) ==> InAngularRange(angularSpeedScale)
    {
      var rotationOffset := 1.0;
      var angularAcceleration := 0;
      if inputData.keyA {
        angularAcceleration := angularAcceleration + 1;
      }
      if inputData.keyD {
        angularAcceleration := angularAcceleration - 1;
      }
      UpdateAngularSpeedScale(angularAcceleration, clock);
      assert angularAcceleration == Acceleration(inputData.keyA, inputData.keyD);
      ghost var turnBy := clock.secondPerTick * rotateAngularSpeed * angularSpeedScale;
      assert rotation + turnBy == Turned(rotation, clock.secondPerTick, rotateAngularSpeed, angularSpeedScale);
      rotationOffset := rotationOffset * (clock.secondPerTick * rotateAngularSpeed * GetAngularSpeedScale());
      assert rotationOffset == 1.0 * turnBy;
      core.PushEvent(RotateUnit(id, rotation + rotationOffset));
    }

    method TurretRotate(input: Option<InputData>, clock: Clock, trig: Trig)
      modifies this`turretRotation
      ensures input.None? ==> turretRotation == old(turretRotation)
      ensures input.Some? ==>
        turretRotation == NextTurretRotation(old(turretRotation),
                                             TurretTarget(input.value.cursor, position, rotation, trig),
                                             clock.secondPerTick, trig.pi)
    {
      if input.Some? {
        var inputData := input.value;
        var diff := Sub(inputData.cursor, position);
        var targetTurretRotation := rotation;
        if NormSq(diff) > MinAimDistanceSq {
          targetTurretRotation := trig.atan2(diff.y, diff.x) - trig.Radians(90.0);
        }
        UpdateTurretRotation(targetTurretRotation, clock, trig);
      }
    }

    method Fire(core: GameCore, input: Option<InputData>, clock: Clock, trig: Trig)
      modifies this`fireCountDown, core
      ensures var f := NextFire(old(fireCountDown), input, clock.tickPerSecond);
        fireCountDown == f.countDown &&
        core.events == old(core.events)
                       + ShotEvents(f.shot, id, playerId, position, turretRotation, damageScale, trig)
    {
      if fireCountDown == 0 {
        if input.Some? {
          var inputData := input.value;
          if inputData.mouseLeft {
            var velocity := Rotate(trig.cosSin(turretRotation), Vec(0.0, 20.0));
            core.PushEvent(GenerateBullet(CannonBallType, id, playerId,
                                          Add(position, Rotate(trig.cosSin(turretRotation), Vec(0.0, 1.2))),
                                          turretRotation, damageScale, velocity));
            fireCountDown := clock.tickPerSecond;
          } else if inputData.mouseRight {
            var velocity := Rotate(trig.cosSin(turretRotation), Vec(0.0, 20.0));
            core.PushEvent(GenerateBullet(SuperballType, id, playerId,
                                          Add(position, Rotate(trig.cosSin(turretRotation), Vec(0.0, 1.2))),
                                          turretRotation, damageScale, velocity));
            fireCountDown := 2 * clock.tickPerSecond;
          }
        }
      }
      if fireCountDown > 0 {
        fireCountDown := fireCountDown - 1;
      }
    }

    /** One tick of the tank: move, aim, fire. */
    method Update(core: GameCore, input: Option<InputData>, world: World, clock: Clock, trig: Trig)
      modifies this`speedScale, this`angularSpeedScale, this`turretRotation, this`fireCountDown, core
      ensures input.None? ==>
        speedScale == old(speedScale) && angularSpeedScale == old(angularSpeedScale) &&
        turretRotation == old(turretRotation)
      ensures input.Some? ==>
        var m := MoveStep(old(speedScale), old(angularSpeedScale), id, position, rotation,
                          input.value, world, MaxSpeed, MaxAngularSpeed(trig), clock, trig);
        speedScale == m.speedScale && angularSpeedScale == m.angularSpeedScale &&
        turretRotation == NextTurretRotation(old(turretRotation),
                                             TurretTarget(input.value.cursor, position, rotation, trig),
                                             clock.secondPerTick, trig.pi)
      ensures var f := NextFire(old(fireCountDown), input, clock.tickPerSecond);
        fireCountDown == f.countDown &&
        core.events == old(core.events)
          + (if input.Some? then
               MoveStep(old(speedScale), old(angularSpeedScale), id, position, rotation,
                        input.value, world, MaxSpeed, MaxAngularSpeed(trig), clock, trig).events
             else [])
          + ShotEvents(f.shot, id, playerId, position, turretRotation, damageScale, trig)
      ensures ValidTick(clock.secondPerTick) && old(Valid()) ==> Valid()
    {
      TankMove(MaxSpeed, MaxAngularSpeed(trig), core, input, world, clock, trig);
      TurretRotate(input, clock, trig);
      Fire(core, input, clock, trig);
    }
  }
}
