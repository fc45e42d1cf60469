/** The Superball bullet: a spinning solid ball that bounces off the boundary and off obstacles
    with a rolling-contact impulse, damages every unit it touches and is removed when it runs
    out of life, out of bounces, hits a unit or meets an obstacle that absorbs it. */
module Bullets {
  import opened Geometry
  import opened Core

  /** The ball is a uniform solid sphere of radius 0.5. */
  const Radius: real := 0.5

  /** 5 seconds at 60 ticks per second. */
  const InitialLifeCountDown: int := 5 * 60

  const InitialBounceCountDown: int := 5

  const DamageFactor: real := 15.0

  function Abs(x: real): real { if x < 0.0 then -x else x }

  // ---------------------------------------------------------------------------------------
  // The bounce map

  /** Velocity and spin (radians per second) of the ball. */
  datatype Motion = Motion(velocity: Vec, angularVelocity: real)

  /** The impulse of a bounce, in the frame of the surface (x along it, y along the normal):
      the normal velocity is reflected and the tangential velocity and the spin are mixed,
      both from their values before the bounce. */
  function SurfaceBounce(m: Motion): Motion {
    var vx := m.velocity.x;
    var w := m.angularVelocity;
    Motion(Vec(vx * 3.0 / 7.0 - w * Radius * 4.0 / 7.0, m.velocity.y * -1.0),
           w * (-3.0) / 7.0 - vx * 10.0 / 7.0 / Radius)
  }

  /** DealCollision on values: rotate the velocity into the surface frame (by minus the normal
      rotation), bounce, and rotate back. */
  function Collide(normalRotation: real, m: Motion, trig: Trig): Motion {
    var frame := trig.cosSin(normalRotation);
    var b := SurfaceBounce(Motion(RotateBack(frame, m.velocity), m.angularVelocity));
    Motion(Rotate(frame, b.velocity), b.angularVelocity)
  }

  /** Twice the kinetic energy per unit mass of a solid ball: v² + (2/5) r² w². */
  function Energy(m: Motion): real {
    NormSq(m.velocity) + 2.0 / 5.0 * Radius * Radius * m.angularVelocity * m.angularVelocity
  }

  /** The normal velocity is reflected; a head-on hit without spin bounces straight back
      without picking up spin or tangential velocity. */
  lemma HeadOnBounce(m: Motion)
    ensures SurfaceBounce(m).velocity.y == -m.velocity.y
    ensures m.velocity.x == 0.0 && m.angularVelocity == 0.0 ==>
      SurfaceBounce(m) == Motion(Vec(0.0, -m.velocity.y), 0.0)
  {
  }

  /** Bouncing twice off the same surface restores velocity and spin. */
  lemma SurfaceBounceInvolution(m: Motion)
    ensures SurfaceBounce(SurfaceBounce(m)) == m
  {
    var vx, w := m.velocity.x, m.angularVelocity;
    var b := SurfaceBounce(m);
    assert b.velocity.x == 3.0 / 7.0 * vx - 2.0 / 7.0 * w;
    assert b.angularVelocity == -3.0 / 7.0 * w - 20.0 / 7.0 * vx;
    var bb := SurfaceBounce(b);
    assert bb.velocity.x == 3.0 / 7.0 * b.velocity.x - 2.0 / 7.0 * b.angularVelocity;
    assert bb.angularVelocity == -3.0 / 7.0 * b.angularVelocity - 20.0 / 7.0 * b.velocity.x;
  }

  /** The bounce conserves the kinetic energy of a solid ball. */
  lemma SurfaceBounceConservesEnergy(m: Motion)
    ensures Energy(SurfaceBounce(m)) == Energy(m)
  {
    var vx, vy, w := m.velocity.x, m.velocity.y, m.angularVelocity;
    var b := SurfaceBounce(m);
    var bx, bw := 3.0 / 7.0 * vx - 2.0 / 7.0 * w, -3.0 / 7.0 * w - 20.0 / 7.0 * vx;
    assert b.velocity.x == bx && b.angularVelocity == bw;
    assert bx * bx + 0.1 * (bw * bw) == vx * vx + 0.1 * (w * w);
    assert Energy(b) == bx * bx + vy * vy + 0.1 * (bw * bw);
    assert Energy(m) == vx * vx + vy * vy + 0.1 * (w * w);
  }

  /** The tangential velocity is left unchanged exactly when the ball is rolling along the
      surface (vx = -r w); otherwise the spin is transferred into it. */
  lemma SpinTransfer(m: Motion)
    ensures SurfaceBounce(m).velocity.x == m.velocity.x <==> m.velocity.x == -Radius * m.angularVelocity
  {
  }

  /** A collision undone by a collision with the same surface. */
  lemma CollideInvolution(normalRotation: real, m: Motion, trig: Trig)
    ensures Collide(normalRotation, Collide(normalRotation, m, trig), trig) == m
  {
    var frame := trig.cosSin(normalRotation);
    var local := Motion(RotateBack(frame, m.velocity), m.angularVelocity);
    var b := SurfaceBounce(local);
    RotateRoundTrip(frame, b.velocity);
    SurfaceBounceInvolution(local);
    RotateRoundTrip(frame, m.velocity);
  }

  /** A collision with any surface conserves the kinetic energy of the ball. */
  lemma CollideConservesEnergy(normalRotation: real, m: Motion, trig: Trig)
    ensures Energy(Collide(normalRotation, m, trig)) == Energy(m)
  {
    var frame := trig.cosSin(normalRotation);
    var local := Motion(RotateBack(frame, m.velocity), m.angularVelocity);
    var b := SurfaceBounce(local);
    RotatePreservesNorm(frame, m.velocity);
    RotatePreservesNorm(frame, b.velocity);
    SurfaceBounceConservesEnergy(local);
  }

  // ---------------------------------------------------------------------------------------
  // One tick on values

  /** The mutable state of a superball. */
  datatype Ball = Ball(position: Vec, rotation: real, velocity: Vec, angularVelocity: real,
                       lifeCountDown: int, bounceCountDown: int)

  /** Which of the collision branches of Update ran. */
  datatype Branch = OutOfRange | Absorbed | Bounced | Free

  predicate IsBounce(branch: Branch) { branch == OutOfRange || branch == Bounced }

  datatype Resolution = Resolution(ball: Ball, branch: Branch)

  /** The ball after DealCollision with a surface whose normal has the given rotation. */
  function AfterCollision(b: Ball, normalRotation: real, trig: Trig): Ball {
    var m := Collide(normalRotation, Motion(b.velocity, b.angularVelocity), trig);
    b.(velocity := m.velocity, angularVelocity := m.angularVelocity,
       bounceCountDown := b.bounceCountDown - 1)
  }

  /** Where the ball would be after one tick of free flight. */
  function Target(b: Ball, dt: real): Vec { Add(b.position, Scale(b.velocity, dt)) }

  /** The collision branches of Update, in their priority order. */
  function Resolve(b: Ball, world: World, dt: real, trig: Trig): Resolution {
    var target := Target(b, dt);
    if world.isOutOfRange(target) then
      Resolution(AfterCollision(b, world.boundaryNormalDirection(target), trig), OutOfRange)
    else if world.isBlockedByObstacles(target) then
      var contact := world.blockedObstacle(target).surfaceNormal(b.position, target);
      if contact.normal.x == 0.0 && contact.normal.y == 0.0 then Resolution(b, Absorbed)
      else
        var normalRotation := trig.atan2(contact.normal.y, contact.normal.x) - trig.Radians(90.0);
        Resolution(AfterCollision(b.(position := contact.point), normalRotation, trig), Bounced)
    else Resolution(b.(position := target), Free)
  }

  /** Resolving the move leaves the life count and the rotation alone. */
  lemma ResolveKeepsCounters(b: Ball, world: World, dt: real, trig: Trig)
    ensures Resolve(b, world, dt, trig).ball.lifeCountDown == b.lifeCountDown
    ensures Resolve(b, world, dt, trig).ball.rotation == b.rotation
  {
  }

  /** Some unit's hit test holds at p. */
  predicate AnyHit(units: seq<UnitView>, p: Vec) {
    exists i :: 0 <= i < |units| && units[i].isHit(p)
  }

  /** The damage of a hit: spin adds to the damage scale. */
  function Damage(damageScale: real, angularVelocity: real): real {
    (damageScale + Abs(angularVelocity) / 10.0) * DamageFactor
  }

  /** The DealDamage events of the unit loop, in the order of the units. */
  function DamageEvents(units: seq<UnitView>, p: Vec, id: nat, amount: real): seq<Event> {
    if units == [] then []
    else
      var last := units[|units| - 1];
      DamageEvents(units[..|units| - 1], p, id, amount)
        + (if last.isHit(p) then [DealDamage(last.id, id, amount)] else [])
  }

  datatype StepOutcome = StepOutcome(ball: Ball, branch: Branch, events: seq<Event>)

  /** The first two statements of Update: count the life down and spin. */
  function Spin(b: Ball, dt: real): Ball {
    b.(lifeCountDown := b.lifeCountDown - 1, rotation := SpunRotation(b.rotation, b.angularVelocity, dt))
  }

  /** A rotation advanced at angular velocity w for time dt. */
  function SpunRotation(rotation: real, w: real, dt: real): real { rotation + w * dt }

  /** The end of Update: damage every unit hit at the final position, then remove the ball if
      it was absorbed, ran out of life or of bounces, or hit a unit. */
  function Finish(r: Resolution, id: nat, damageScale: real, units: seq<UnitView>): StepOutcome {
    var b := r.ball;
    var dying := r.branch == Absorbed || b.lifeCountDown <= 0 || b.bounceCountDown <= 0
                 || AnyHit(units, b.position);
    StepOutcome(b, r.branch,
                DamageEvents(units, b.position, id, Damage(damageScale, b.angularVelocity))
                  + (if dying then [RemoveBullet(id)] else []))
  }

  /** Update on values. */
  function Step(b: Ball, id: nat, damageScale: real, world: World, dt: real, trig: Trig): StepOutcome {
    Finish(Resolve(Spin(b, dt), world, dt, trig), id, damageScale, world.units)
  }

  predicate IsRemove(e: Event) { e.RemoveBullet? }

  // ---------------------------------------------------------------------------------------
  // Properties of one tick

  /** Every tick counts the life down by exactly one and turns the ball by w * dt, with the
      spin it had before the collision. */
  lemma StepCounters(b: Ball, id: nat, damageScale: real, world: World, dt: real, trig: Trig)
    ensures var o := Step(b, id, damageScale, world, dt, trig);
      o.ball.lifeCountDown == b.lifeCountDown - 1 &&
      o.ball.rotation == SpunRotation(b.rotation, b.angularVelocity, dt)
  {
    ResolveKeepsCounters(Spin(b, dt), world, dt, trig);
  }

  /** Exactly one branch runs, chosen in the order out of range, blocked, free; the ball stays
      put when out of range, snaps to the contact point on an obstacle and flies on otherwise. */
  lemma BranchPriority(b: Ball, id: nat, damageScale: real, world: World, dt: real, trig: Trig)
    ensures var o := Step(b, id, damageScale, world, dt, trig);
      var target := Target(b, dt);
      var contact := world.blockedObstacle(target).surfaceNormal(b.position, target);
      var zero := contact.normal.x == 0.0 && contact.normal.y == 0.0;
      && (o.branch == OutOfRange <==> world.isOutOfRange(target))
      && (o.branch == Absorbed <==>
            !world.isOutOfRange(target) && world.isBlockedByObstacles(target) && zero)
      && (o.branch == Bounced <==>
            !world.isOutOfRange(target) && world.isBlockedByObstacles(target) && !zero)
      && (o.branch == Free <==>
            !world.isOutOfRange(target) && !world.isBlockedByObstacles(target))
      && (o.branch == OutOfRange ==> o.ball.position == b.position)
      && (o.branch == Bounced ==> o.ball.position == contact.point)
      && (o.branch == Free ==> o.ball.position == target)
  {
    var spun := b.(lifeCountDown := b.lifeCountDown - 1,
                   rotation := b.rotation + b.angularVelocity * dt);
    assert Target(spun, dt) == Target(b, dt);
  }

  /** A zero surface normal absorbs the ball: nothing moves, nothing bounces, and the ball is
      removed. */
  lemma Absorption(b: Ball, id: nat, damageScale: real, world: World, dt: real, trig: Trig)
    ensures var o := Step(b, id, damageScale, world, dt, trig);
      o.branch == Absorbed ==>
        && o.ball.position == b.position && o.ball.velocity == b.velocity
        && o.ball.angularVelocity == b.angularVelocity
        && o.ball.bounceCountDown == b.bounceCountDown
        && RemoveBullet(id) in o.events
  {
    var o := Step(b, id, damageScale, world, dt, trig);
    if o.branch == Absorbed {
      assert o.events[|o.events| - 1] == RemoveBullet(id);
    }
  }

  /** A bounce (off the boundary or off an obstacle) applies the collision map once and costs
      exactly one bounce; the other branches leave velocity, spin and bounce count alone. */
  lemma BounceCounter(b: Ball, id: nat, damageScale: real, world: World, dt: real, trig: Trig)
    ensures var o := Step(b, id, damageScale, world, dt, trig);
      && (IsBounce(o.branch) ==> o.ball.bounceCountDown == b.bounceCountDown - 1)
      && (!IsBounce(o.branch) ==>
            o.ball.bounceCountDown == b.bounceCountDown &&
            o.ball.velocity == b.velocity && o.ball.angularVelocity == b.angularVelocity)
      && (IsBounce(o.branch) ==>
            exists normalRotation: real ::
              Motion(o.ball.velocity, o.ball.angularVelocity)
                == Collide(normalRotation, Motion(b.velocity, b.angularVelocity), trig))
  {
    var o := Step(b, id, damageScale, world, dt, trig);
    var target := Target(b, dt);
    if o.branch == OutOfRange {
      var n := world.boundaryNormalDirection(target);
      assert Motion(o.ball.velocity, o.ball.angularVelocity)
          == Collide(n, Motion(b.velocity, b.angularVelocity), trig);
    } else if o.branch == Bounced {
      var contact := world.blockedObstacle(target).surfaceNormal(b.position, target);
      var n := trig.atan2(contact.normal.y, contact.normal.x) - trig.Radians(90.0);
      assert Motion(o.ball.velocity, o.ball.angularVelocity)
          == Collide(n, Motion(b.velocity, b.angularVelocity), trig);
    }
  }

  /** A bounce does not change the kinetic energy: speed is traded against spin only. */
  lemma StepConservesEnergy(b: Ball, id: nat, damageScale: real, world: World, dt: real, trig: Trig)
    ensures var o := Step(b, id, damageScale, world, dt, trig);
      Energy(Motion(o.ball.velocity, o.ball.angularVelocity)) == Energy(Motion(b.velocity, b.angularVelocity))
  {
    var o := Step(b, id, damageScale, world, dt, trig);
    var target := Target(b, dt);
    var m := Motion(b.velocity, b.angularVelocity);
    if o.branch == OutOfRange {
      CollideConservesEnergy(world.boundaryNormalDirection(target), m, trig);
    } else if o.branch == Bounced {
      var contact := world.blockedObstacle(target).surfaceNormal(b.position, target);
      CollideConservesEnergy(trig.atan2(contact.normal.y, contact.normal.x) - trig.Radians(90.0), m, trig);
    }
  }

  /** The indices of the units hit at p, in increasing order. */
  ghost function HitIndices(units: seq<UnitView>, p: Vec): seq<nat> {
    if units == [] then []
    else HitIndices(units[..|units| - 1], p) + (if units[|units| - 1].isHit(p) then [|units| - 1] else [])
  }

  /** Every index HitIndices lists is in range and hit, and the indices strictly increase. */
  lemma {:induction false} HitIndicesSound(units: seq<UnitView>, p: Vec)
    ensures var hits := HitIndices(units, p);
      && |hits| <= |units|
      && (forall j :: 0 <= j < |hits| ==> hits[j] < |units| && units[hits[j]].isHit(p))
      && (forall j, k :: 0 <= j < k < |hits| ==> hits[j] < hits[k])
  {
    if units != [] {
      var n := |units|;
      var init := units[..n - 1];
      HitIndicesSound(init, p);
      var hits0, hits := HitIndices(init, p), HitIndices(units, p);
      assert hits == hits0 + (if units[n - 1].isHit(p) then [n - 1] else []);
      forall j | 0 <= j < |hits0| ensures hits[j] < n - 1 && units[hits[j]].isHit(p) {
        assert hits[j] == hits0[j];
        assert units[hits0[j]] == init[hits0[j]];
      }
    }
  }

  /** HitIndices lists every hit unit, so it is empty exactly when no unit is hit. */
  lemma {:induction false} HitIndicesComplete(units: seq<UnitView>, p: Vec)
    ensures var hits := HitIndices(units, p);
      && (forall i :: 0 <= i < |units| && units[i].isHit(p) ==> i in hits)
      && (hits == [] <==> !AnyHit(units, p))
  {
    HitIndicesSound(units, p);
    var hits := HitIndices(units, p);
    if units != [] {
      var n := |units|;
      var init := units[..n - 1];
      HitIndicesComplete(init, p);
      var hits0 := HitIndices(init, p);
      assert hits == hits0 + (if units[n - 1].isHit(p) then [n - 1] else []);
      forall i | 0 <= i < |units| && units[i].isHit(p) ensures i in hits {
        if i < n - 1 {
          assert init[i] == units[i];
          assert i in hits0;
        }
      }
    }
    if AnyHit(units, p) {
      var i :| 0 <= i < |units| && units[i].isHit(p);
      assert i in hits;
    }
    if hits != [] {
      assert units[hits[0]].isHit(p);
    }
  }

  /** The j-th event of the unit loop is the DealDamage of the j-th hit unit. */
  lemma {:induction false} DamageEventsMatch(units: seq<UnitView>, p: Vec, id: nat, amount: real)
    ensures var es, hits := DamageEvents(units, p, id, amount), HitIndices(units, p);
      && |es| == |hits|
      && (forall j :: 0 <= j < |hits| ==>
            hits[j] < |units| && es[j] == DealDamage(units[hits[j]].id, id, amount))
  {
    if units != [] {
      var n := |units|;
      var init := units[..n - 1];
      DamageEventsMatch(init, p, id, amount);
      var es0, hits0 := DamageEvents(init, p, id, amount), HitIndices(init, p);
      var es, hits := DamageEvents(units, p, id, amount), HitIndices(units, p);
      assert es == es0 + (if units[n - 1].isHit(p) then [DealDamage(units[n - 1].id, id, amount)] else []);
      assert hits == hits0 + (if units[n - 1].isHit(p) then [n - 1] else []);
      forall j | 0 <= j < |hits0|
        ensures hits[j] < |units| && es[j] == DealDamage(units[hits[j]].id, id, amount)
      {
        assert hits[j] == hits0[j] && es[j] == es0[j];
        assert units[hits0[j]] == init[hits0[j]];
      }
    }
  }

  /** The unit loop pushes exactly one DealDamage, from this ball and of the given amount, per
      unit hit at p, in the order of the units, and nothing else: the j-th event belongs to the
      j-th hit unit. No unit (the owner included) is skipped, and none is damaged twice. */
  lemma DamageEventsSpec(units: seq<UnitView>, p: Vec, id: nat, amount: real)
    ensures var es, hits := DamageEvents(units, p, id, amount), HitIndices(units, p);
      && |es| == |hits| <= |units|
      && (forall j :: 0 <= j < |hits| ==>
            hits[j] < |units| && units[hits[j]].isHit(p)
            && es[j] == DealDamage(units[hits[j]].id, id, amount))
      && (forall j, k :: 0 <= j < k < |hits| ==> hits[j] < hits[k])
      && (forall i :: 0 <= i < |units| && units[i].isHit(p) ==> i in hits)
      && (es == [] <==> !AnyHit(units, p))
  {
    HitIndicesSound(units, p);
    HitIndicesComplete(units, p);
    DamageEventsMatch(units, p, id, amount);
  }

  /** DamageEvents pushes nothing but DealDamage events. */
  lemma {:induction false} DamageEventsAreDamage(units: seq<UnitView>, p: Vec, id: nat, amount: real)
    ensures CountWhere(DamageEvents(units, p, id, amount), IsRemove) == 0
  {
    DamageEventsSpec(units, p, id, amount);
    var es := DamageEvents(units, p, id, amount);
    forall i | 0 <= i < |es| ensures !IsRemove(es[i]) {
      assert es[i] in es;
    }
  }

  /** At most one RemoveBullet is pushed per tick, as the last event; it is pushed exactly when
      the ball was absorbed, ran out of life or of bounces, or hit a unit. */
  lemma RemoveEvent(b: Ball, id: nat, damageScale: real, world: World, dt: real, trig: Trig)
    ensures var o := Step(b, id, damageScale, world, dt, trig);
      var dying := o.branch == Absorbed || b.lifeCountDown - 1 <= 0 || o.ball.bounceCountDown <= 0
                   || AnyHit(world.units, o.ball.position);
      && CountWhere(o.events, IsRemove) == (if dying then 1 else 0)
      && (RemoveBullet(id) in o.events <==> dying)
      && (dying ==> o.events[|o.events| - 1] == RemoveBullet(id))
  {
    var o := Step(b, id, damageScale, world, dt, trig);
    var amount := Damage(damageScale, o.ball.angularVelocity);
    var ds := DamageEvents(world.units, o.ball.position, id, amount);
    DamageEventsAreDamage(world.units, o.ball.position, id, amount);
    DamageEventsSpec(world.units, o.ball.position, id, amount);
    var dying := o.branch == Absorbed || o.ball.lifeCountDown <= 0 || o.ball.bounceCountDown <= 0
                 || AnyHit(world.units, o.ball.position);
    if dying {
      assert o.events == ds + [RemoveBullet(id)];
      assert o.events[..|o.events| - 1] == ds;
    } else {
      assert o.events == ds;
      assert RemoveBullet(id) !in ds;
    }
  }

  // ---------------------------------------------------------------------------------------
  // Many ticks

  /** The outcomes of successive updates of one ball, one world snapshot per tick. */
  function Trace(b: Ball, worlds: seq<World>, id: nat, damageScale: real, dt: real, trig: Trig): (t: seq<StepOutcome>)
    ensures |t| == |worlds|
    decreases |worlds|
  {
    if worlds == [] then []
    else
      var o := Step(b, id, damageScale, worlds[0], dt, trig);
      [o] + Trace(o.ball, worlds[1..], id, damageScale, dt, trig)
  }

  /** The number of bouncing ticks in a trace. */
  function Bounces(t: seq<StepOutcome>): (n: nat)
    ensures n <= |t|
  {
    if t == [] then 0
    else Bounces(t[..|t| - 1]) + (if IsBounce(t[|t| - 1].branch) then 1 else 0)
  }

  /** After k + 1 ticks the life has gone down by k + 1 and the bounce count by the number of
      bounces so far. */
  lemma {:induction false} TraceCounters(b: Ball, worlds: seq<World>, id: nat, damageScale: real,
                                         dt: real, trig: Trig, k: nat)
    requires k < |worlds|
    ensures var t := Trace(b, worlds, id, damageScale, dt, trig);
      && t[k].ball.lifeCountDown == b.lifeCountDown - (k + 1)
      && t[k].ball.bounceCountDown == b.bounceCountDown - Bounces(t[..k + 1])
    decreases k
  {
    var t := Trace(b, worlds, id, damageScale, dt, trig);
    var o := Step(b, id, damageScale, worlds[0], dt, trig);
    StepCounters(b, id, damageScale, worlds[0], dt, trig);
    BounceCounter(b, id, damageScale, worlds[0], dt, trig);
    assert t[0] == o;
    if k == 0 {
      assert t[..1] == [o];
      assert t[..1][..0] == [];
    } else {
      var rest := Trace(o.ball, worlds[1..], id, damageScale, dt, trig);
      assert t == [o] + rest;
      TraceCounters(o.ball, worlds[1..], id, damageScale, dt, trig, k - 1);
      assert t[k] == rest[k - 1];
      BouncesCons(o, rest[..k]);
      assert t[..k + 1] == [o] + rest[..k];
    }
  }

  /** Counting bounces from the front. */
  lemma {:induction false} BouncesCons(o: StepOutcome, t: seq<StepOutcome>)
    ensures Bounces([o] + t) == (if IsBounce(o.branch) then 1 else 0) + Bounces(t)
    decreases |t|
  {
    if t == [] {
      assert ([o] + t)[..0] == [];
    } else {
      var init := t[..|t| - 1];
      BouncesCons(o, init);
      assert ([o] + t)[..|[o] + t| - 1] == [o] + init;
    }
  }

  /** A ball with life L >= 1 pushes its RemoveBullet no later than its L-th update: for a
      new ball, within 300 updates. */
  lemma RemovedWithinLifetime(b: Ball, worlds: seq<World>, id: nat, damageScale: real, dt: real, trig: Trig)
    requires 1 <= b.lifeCountDown <= |worlds|
    ensures RemoveBullet(id) in Trace(b, worlds, id, damageScale, dt, trig)[b.lifeCountDown - 1].events
  {
    var k := b.lifeCountDown - 1;
    var t := Trace(b, worlds, id, damageScale, dt, trig);
    TraceCounters(b, worlds, id, damageScale, dt, trig, k);
    assert k == 0 ==> t[k] == Step(b, id, damageScale, worlds[0], dt, trig);
    PreviousBall(b, worlds, id, damageScale, dt, trig, k);
    var prev := if k == 0 then b else t[k - 1].ball;
    RemoveEvent(prev, id, damageScale, worlds[k], dt, trig);
    StepCounters(prev, id, damageScale, worlds[k], dt, trig);
  }

  /** The k-th outcome of a trace is one Step from the ball the (k-1)-th left. */
  lemma {:induction false} PreviousBall(b: Ball, worlds: seq<World>, id: nat, damageScale: real,
                                        dt: real, trig: Trig, k: nat)
    requires k < |worlds|
    ensures var t := Trace(b, worlds, id, damageScale, dt, trig);
      t[k] == Step(if k == 0 then b else t[k - 1].ball, id, damageScale, worlds[k], dt, trig)
    decreases k
  {
    var t := Trace(b, worlds, id, damageScale, dt, trig);
    var o := Step(b, id, damageScale, worlds[0], dt, trig);
    var rest := Trace(o.ball, worlds[1..], id, damageScale, dt, trig);
    assert t == [o] + rest;
    if k > 0 {
      PreviousBall(o.ball, worlds[1..], id, damageScale, dt, trig, k - 1);
      assert worlds[1..][k - 1] == worlds[k];
      if k > 1 {
        assert t[k - 1] == rest[k - 2];
      }
    }
  }

  /** The tick that resolves the bounce that uses up the bounce count (the fifth, for a new
      ball) pushes a RemoveBullet. */
  lemma LastBounceRemoves(b: Ball, worlds: seq<World>, id: nat, damageScale: real, dt: real,
                          trig: Trig, k: nat)
    requires k < |worlds|
    requires var t := Trace(b, worlds, id, damageScale, dt, trig);
      IsBounce(t[k].branch) && Bounces(t[..k + 1]) == b.bounceCountDown
    ensures RemoveBullet(id) in Trace(b, worlds, id, damageScale, dt, trig)[k].events
  {
    var t := Trace(b, worlds, id, damageScale, dt, trig);
    TraceCounters(b, worlds, id, damageScale, dt, trig, k);
    PreviousBall(b, worlds, id, damageScale, dt, trig, k);
    var prev := if k == 0 then b else t[k - 1].ball;
    RemoveEvent(prev, id, damageScale, worlds[k], dt, trig);
  }

  // ---------------------------------------------------------------------------------------
  // The bullet

  class Superball {
    // Fields of the Bullet base class.
    const id: nat
    const unitId: nat
    const playerId: nat
    const damageScale: real
    var position: Vec
    var rotation: real

    var velocity: Vec
    var angularVelocity: real
    var lifeCountDown: int
    var bounceCountDown: int

    function State(): Ball
      reads this
    {
      Ball(position, rotation, velocity, angularVelocity, lifeCountDown, bounceCountDown)
    }

    /** A ball without spin. */
    constructor (id: nat, unitId: nat, playerId: nat, position: Vec, rotation: real,
                 damageScale: real, velocity: Vec)
      ensures this.id == id && this.unitId == unitId && this.playerId == playerId
      ensures this.damageScale == damageScale
      ensures State() == Ball(position, rotation, velocity, 0.0, InitialLifeCountDown, InitialBounceCountDown)
    {
      this.id := id;
      this.unitId := unitId;
      this.playerId := playerId;
      this.damageScale := damageScale;
      this.position := position;
      this.rotation := rotation;
      this.velocity := velocity;
      angularVelocity := 0.0;
      lifeCountDown := InitialLifeCountDown;
      bounceCountDown := InitialBounceCountDown;
    }

    /** A ball launched with the given spin. */
    constructor WithAngularVelocity(id: nat, unitId: nat, playerId: nat, position: Vec, rotation: real,
                                    damageScale: real, velocity: Vec, angularVelocity: real)
      ensures this.id == id && this.unitId == unitId && this.playerId == playerId
      ensures this.damageScale == damageScale
      ensures State() == Ball(position, rotation, velocity, angularVelocity,
                              InitialLifeCountDown, InitialBounceCountDown)
    {
      this.id := id;
      this.unitId := unitId;
      this.playerId := playerId;
      this.damageScale := damageScale;
      this.position := position;
      this.rotation := rotation;
      this.velocity := velocity;
      this.angularVelocity := angularVelocity;
      lifeCountDown := InitialLifeCountDown;
      bounceCountDown := InitialBounceCountDown;
    }

    /** Bounce off a surface whose normal has rotation normalRotation. */
    method DealCollision(normalRotation: real, trig: Trig)
      modifies this`velocity, this`angularVelocity, this`bounceCountDown
      ensures Motion(velocity, angularVelocity)
           == Collide(normalRotation, old(Motion(velocity, angularVelocity)), trig)
      ensures bounceCountDown == old(bounceCountDown) - 1
    {
      var frame := trig.cosSin(normalRotation);
      velocity := RotateBack(frame, velocity);
      velocity := velocity.(y := velocity.y * -1.0);
      var xVelocity := velocity.x * 3.0 / 7.0 - angularVelocity * Radius * 4.0 / 7.0;
      var newAngularVelocity := angularVelocity * (-3.0) / 7.0 - velocity.x * 10.0 / 7.0 / Radius;
      velocity := velocity.(x := xVelocity);
      angularVelocity := newAngularVelocity;
      velocity := Rotate(frame, velocity);
      bounceCountDown := bounceCountDown - 1;
    }

    /** One tick of the ball. */
    method Update(core: GameCore, world: World, clock: Clock, trig: Trig)
      modifies this`position, this`rotation, this`velocity, this`angularVelocity,
               this`lifeCountDown, this`bounceCountDown, core
      ensures var o := Step(old(State()), id, damageScale, world, clock.secondPerTick, trig);
        State() == o.ball && core.events == old(core.events) + o.events
    {
      ghost var b := State();
      lifeCountDown := lifeCountDown - 1;
      rotation := rotation + angularVelocity * clock.secondPerTick;
      assert State() == Spin(b, clock.secondPerTick);
      var shouldDie := ResolveMove(world, clock, trig);
      ghost var r := Resolve(Spin(b, clock.secondPerTick), world, clock.secondPerTick, trig);

      if lifeCountDown <= 0 || bounceCountDown <= 0 {
        shouldDie := true;
      }

      var amount := (damageScale + Abs(angularVelocity) / 10.0) * DamageFactor;
      var hit := DamageUnits(core, world.units, amount);
      if hit {
        shouldDie := true;
      }

      if shouldDie {
        core.PushEvent(RemoveBullet(id));
      }
      assert Finish(r, id, damageScale, world.units).events
          == DamageEvents(world.units, position, id, amount) + (if shouldDie then [RemoveBullet(id)] else []);
    }

    /** The collision branches of Update; true when an obstacle absorbed the ball. */
    method ResolveMove(world: World, clock: Clock, trig: Trig) returns (absorbed: bool)
      modifies this`position, this`velocity, this`angularVelocity, this`bounceCountDown
      ensures var r := Resolve(old(State()), world, clock.secondPerTick, trig);
        State() == r.ball && (absorbed <==> r.branch == Absorbed)
    {
      absorbed := false;
      var targetPosition := Add(position, Scale(velocity, clock.secondPerTick));
      if world.isOutOfRange(targetPosition) {
        DealCollision(world.boundaryNormalDirection(targetPosition), trig);
      } else if world.isBlockedByObstacles(targetPosition) {
        var obstacle := world.blockedObstacle(targetPosition);
        var collision := obstacle.surfaceNormal(position, targetPosition);
        if collision.normal.x == 0.0 && collision.normal.y == 0.0 {
          absorbed := true;
        } else {
          position := collision.point;
          var normalVec := collision.normal;
          var normalRotation := trig.atan2(normalVec.y, normalVec.x) - trig.Radians(90.0);
          DealCollision(normalRotation, trig);
        }
      } else {
        position := Add(position, Scale(velocity, clock.secondPerTick));
      }
    }

    /** The unit loop of Update: one DealDamage per unit hit at the ball's position; true when
        some unit was hit. */
    method DamageUnits(core: GameCore, units: seq<UnitView>, amount: real) returns (hit: bool)
      modifies core
      ensures core.events == old(core.events) + DamageEvents(units, position, id, amount)
      ensures hit <==> AnyHit(units, position)
    {
      ghost var events0 := core.events;
      hit := false;
      var i := 0;
      while i < |units|
        invariant 0 <= i <= |units|
        invariant core.events == events0 + DamageEvents(units[..i], position, id, amount)
        invariant hit <==> AnyHit(units[..i], position)
      {
        assert units[..i + 1][..i] == units[..i];
        if units[i].isHit(position) {
          core.PushEvent(DealDamage(units[i].id, id, amount));
          hit := true;
        }
        assert AnyHit(units[..i + 1], position) <==> AnyHit(units[..i], position) || units[i].isHit(position) by {
          if units[i].isHit(position) {
            assert units[..i + 1][i] == units[i];
          }
          if AnyHit(units[..i + 1], position) && !units[i].isHit(position) {
            var j :| 0 <= j < i + 1 && units[..i + 1][j].isHit(position);
            assert units[..i][j] == units[j];
          }
          if AnyHit(units[..i], position) {
            var j :| 0 <= j < i && units[..i][j].isHit(position);
            assert units[..i + 1][j] == units[j];
          }
        }
        i := i + 1;
      }
      assert units[..|units|] == units;
    }
  }
}
