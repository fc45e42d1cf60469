# Ausy0201Tank and Superball, modelled in Dafny

This project models two per-tick entities of the battle game core: the `Ausy0201Tank` unit and
the `Superball` bullet it fires with the right mouse button. Each tick, an entity reads its own
state and the world, changes its own fields, and appends deferred events (move, rotate, damage,
remove, spawn) to the game core's queue. The core applies that queue later.

- `geometry.dfy` (module `Geometry`): plane vectors and rotations. A rotation by theta is the pair
  (cos theta, sin theta), with the constraint c² + s² = 1. `RotateBack` is the rotation by -theta,
  which is the transpose of the rotation by theta.
- `core.dfy` (module `Core`): what the entities see of the game core.
  - The event datatype and the input snapshot.
  - The tick length and the tick rate (`kSecondPerTick`, `kTickPerSecond`), passed as a `Clock`.
  - The trigonometry, passed as a `Trig`: pi, cos/sin of an angle, and atan2 with values in (-pi, pi].
  - The world queries, passed as a `World` of function values.
  - A `GameCore` class whose ghost `events` sequence only ever grows, through `PushEvent`.
- `tank.dfy` (module `Units`): the tank.
  - Throttle and turn-rate smoothing (a first-order exponential approach).
  - Shortest-arc turret slewing with re-normalisation into [-270°, 90°].
  - Movement that an obstacle can block, the fire cooldown and the hull hit test.
  - The class `Ausy0201Tank` keeps the source's fields and methods. Each method is proved against
    a function on values (`NextSpeedScale`, `NextTurretRotation`, `MoveStep`, `NextFire`, …).
    The properties are lemmas about those functions.
- `superball.dfy` (module `Bullets`): the superball.
  - The bounce map in the surface frame (`SurfaceBounce`) and the full collision (`Collide`).
  - One tick on values (`Step` = `Spin`, then `Resolve`, then `Finish`) and a trace of ticks
    (`Trace`).
  - The class `Superball`, whose `Update` and `DealCollision` are proved against those functions.

All quantities are `real`. Angles are symbolic: `glm::radians(d)` is `d * pi / 180`.

## Model

| member | source | states |
|---|---|---|
| Geometry.RotatePreservesNorm | src/battle_game/core/units/tank_ausy0201.cpp:102-105 | rotating a vector by theta or by -theta keeps its length |
| Geometry.RotateRoundTrip | src/battle_game/core/bullets/superball.cpp:97-109 | rotating by -theta and then by theta (or the other way round) gives back the vector |
| Units.SmoothingFactors | src/battle_game/core/units/tank_ausy0201.h:35-39 | with 0 < dt <= 0.3 every factor dt / time-constant lies in (0, 1], and the deceleration one lies in (0, 1) |
| Units.SmoothApproaches | src/battle_game/core/units/tank_ausy0201.cpp:179-199 | one smoothing step with factor k in (0, 1] multiplies the distance to the target by 1 - k and lands between the old value and the target |
| Units.Acceleration | src/battle_game/core/units/tank_ausy0201.cpp:92-98 | the key sum is in {-1, 0, 1}; it is 0 exactly when both keys or neither are held, and 1 exactly when only the first key is held |
| Units.NeutralThrottleDecay | src/battle_game/core/units/tank_ausy0201.cpp:179-181 | with neutral input the throttle becomes s·(1 - dt/1.0); it lies between 0 and s and keeps the strict sign of s |
| Units.ThrottleApproach | src/battle_game/core/units/tank_ausy0201.cpp:182-188 | with W the new throttle lies between the old one and 1; with S it lies between the old one and -0.4 |
| Units.ThrottleStaysInRange | src/battle_game/core/units/tank_ausy0201.cpp:179-189 | a throttle in [-0.4, 1] stays in [-0.4, 1] whatever the input |
| Units.ThrottleMonotone | src/battle_game/core/units/tank_ausy0201.cpp:179-189 | while one input is held, after every number of ticks the throttle lies between its start and the target, and each further tick lands between the current value and the target |
| Units.NeutralNeverStops | src/battle_game/core/units/tank_ausy0201.cpp:180-181 | under neutral input a non-zero throttle keeps its sign for any number of ticks, so it never reaches 0 |
| Units.AngularScaleApproach | src/battle_game/core/units/tank_ausy0201.cpp:191-199 | the turn rate moves toward +1, -1 or 0 (the key sum) without overshoot, so a rate in [-1, 1] stays in [-1, 1] |
| Units.ShortestArc | src/battle_game/core/units/tank_ausy0201.cpp:202-206 | if the target starts less than 540° away, the adjusted target differs from it by -360°, 0 or 360° and lies within 180° of the turret; a target already within 180° is left alone |
| Units.TurretSlewNoOvershoot | src/battle_game/core/units/tank_ausy0201.cpp:207-208 | the smoothing step lands between the turret rotation and the adjusted target |
| Units.TurretWrap | src/battle_game/core/units/tank_ausy0201.cpp:209-213 | re-normalisation shifts by -360°, 0 or 360°, and brings any value in [-450°, 270°] into [-270°, 90°] |
| Units.TurretRangePreserved | src/battle_game/core/units/tank_ausy0201.cpp:201-214 | a turret in [-270°, 90°] aiming at a target in (-270°, 90°] stays in [-270°, 90°] |
| Units.TurretAimKeepsRange | src/battle_game/core/units/tank_ausy0201.cpp:133-138 | when the cursor is farther than 1e-4 from the tank, the aim atan2 - 90° lies in (-270°, 90°], so the turret stays in range |
| Units.FireCooldown | src/battle_game/core/units/tank_ausy0201.cpp:147-170 | a bullet is spawned only when the countdown is 0 on entry and a player exists; the left button wins over the right; after a left shot the countdown is kTickPerSecond - 1, after a right shot 2·kTickPerSecond - 1; otherwise it decreases by one if positive and stays 0 at 0 |
| Units.ShotGeometry | src/battle_game/core/units/tank_ausy0201.cpp:152-163 | the spawned bullet starts at distance 1.2 from the tank and flies at speed 20 |
| Units.HullHitExamples | src/battle_game/core/units/tank_ausy0201.cpp:172-177 | the hit test (on local coordinates) holds at (0, 0) but not at (2, 2), nor anywhere on the side walls x = ±0.8 |
| Units.HullSymmetric | src/battle_game/core/units/tank_ausy0201.cpp:172-177 | the hit test is symmetric under x -> -x |
| Units.MoveDistance | src/battle_game/core/units/tank_ausy0201.cpp:91-105 | the tentative position is dt·moveSpeed·throttle away from the tank, whatever its heading |
| Units.MoveEventsCounts | src/battle_game/core/units/tank_ausy0201.cpp:106-124 | a blocked move pushes no MoveUnit and a free one pushes exactly the MoveUnit to the new position; either way exactly one RotateUnit is pushed |
| Units.BlockedMove | src/battle_game/core/units/tank_ausy0201.cpp:88-126 | if the tentative position is blocked, the throttle becomes 0 and no MoveUnit is pushed; otherwise the smoothed throttle is kept and exactly one MoveUnit, to that position, is pushed; in both cases exactly one RotateUnit is pushed, with rotation + dt·maxAngular·turnRate |
| Units.MoveKeepsScalesInRange | src/battle_game/core/units/tank_ausy0201.cpp:87-127 | a move keeps the throttle in [-0.4, 1] and the turn rate in [-1, 1] |
| Units.Ausy0201Tank.constructor | src/battle_game/core/units/tank_ausy0201.h:31-42 | a new tank has turret rotation 0, fire countdown 0, throttle 0 and turn rate 0, which lie inside the ranges that the smoothing preserves |
| Units.Ausy0201Tank.SetSpeedScale | src/battle_game/core/units/tank_ausy0201.h:17-19 | overwrites the throttle and nothing else |
| Units.Ausy0201Tank.UpdateSpeedScale | src/battle_game/core/units/tank_ausy0201.cpp:179-189 | the new throttle is `NextSpeedScale` of the old one, and [-0.4, 1] is preserved |
| Units.Ausy0201Tank.UpdateAngularSpeedScale | src/battle_game/core/units/tank_ausy0201.cpp:191-199 | the new turn rate is `NextAngularSpeedScale` of the old one, and [-1, 1] is preserved |
| Units.Ausy0201Tank.UpdateTurretRotation | src/battle_game/core/units/tank_ausy0201.cpp:201-214 | the new turret rotation is `NextTurretRotation` of the old one, and [-270°, 90°] is preserved for targets in (-270°, 90°] |
| Units.Ausy0201Tank.TankMove | src/battle_game/core/units/tank_ausy0201.cpp:87-127 | without a player nothing changes; with one, the scales and the appended events are those of `MoveStep`; the ranges are preserved |
| Units.Ausy0201Tank.Advance | src/battle_game/core/units/tank_ausy0201.cpp:91-110 | smooths the throttle, returns the tentative position, and either pushes the MoveUnit or zeroes the throttle |
| Units.Ausy0201Tank.Turn | src/battle_game/core/units/tank_ausy0201.cpp:113-124 | smooths the turn rate and pushes the one RotateUnit |
| Units.Ausy0201Tank.TurretRotate | src/battle_game/core/units/tank_ausy0201.cpp:129-145 | without a player the turret is unchanged; with one, it slews toward the cursor direction, or toward the body rotation when the cursor is within 1e-4 |
| Units.Ausy0201Tank.Fire | src/battle_game/core/units/tank_ausy0201.cpp:147-170 | the countdown and the spawned GenerateBullet event are those of `NextFire` |
| Units.Ausy0201Tank.Update | src/battle_game/core/units/tank_ausy0201.cpp:81-85 | move at speed 5 and turn rate 180°/s, then aim, then fire; the events are the move events followed by the shot |
| Bullets.HeadOnBounce | src/battle_game/core/bullets/superball.cpp:100-106 | the normal velocity is reflected; a hit with no tangential velocity and no spin leaves with (0, -vy) and no spin |
| Bullets.SurfaceBounceInvolution | src/battle_game/core/bullets/superball.cpp:100-106 | applying the surface-frame map twice gives back the velocity and the spin |
| Bullets.SurfaceBounceConservesEnergy | src/battle_game/core/bullets/superball.cpp:100-106 | the surface-frame map conserves vx² + vy² + (2/5)·r²·w², the energy of a uniform solid ball |
| Bullets.SpinTransfer | src/battle_game/core/bullets/superball.cpp:101-105 | the tangential velocity is unchanged exactly when the ball rolls (vx = -r·w) |
| Bullets.CollideInvolution | src/battle_game/core/bullets/superball.cpp:97-109 | a second collision with the same surface undoes the first |
| Bullets.CollideConservesEnergy | src/battle_game/core/bullets/superball.cpp:97-109 | a collision with a surface of any orientation conserves vx² + vy² + (2/5)·r²·w² |
| Bullets.ResolveKeepsCounters | src/battle_game/core/bullets/superball.cpp:45-69 | the collision branches leave the life count and the rotation alone |
| Bullets.StepCounters | src/battle_game/core/bullets/superball.cpp:41-42 | every tick decrements the life count by exactly 1 and adds w·dt to the rotation, using the spin from before the collision |
| Bullets.BranchPriority | src/battle_game/core/bullets/superball.cpp:45-69 | exactly one branch runs: out of range first, then a blocked target (absorbed on a zero normal, bounced otherwise), then a free move; the position is unchanged out of range, becomes the contact point on a bounce, and becomes position + v·dt on a free move |
| Bullets.Absorption | src/battle_game/core/bullets/superball.cpp:52-59 | a zero surface normal leaves position, velocity, spin and bounce count unchanged, and the ball is removed |
| Bullets.BounceCounter | src/battle_game/core/bullets/superball.cpp:46-66 | a bouncing branch applies the collision map once and costs exactly one bounce; the other branches leave velocity, spin and bounce count unchanged |
| Bullets.StepConservesEnergy | src/battle_game/core/bullets/superball.cpp:45-69 | no tick changes vx² + vy² + (2/5)·r²·w² |
| Bullets.HitIndicesSound | src/battle_game/core/bullets/superball.cpp:75-89 | every index listed as hit is in range, its unit's hit test holds, and the indices strictly increase |
| Bullets.HitIndicesComplete | src/battle_game/core/bullets/superball.cpp:75-89 | every unit whose hit test holds is listed, so the list is empty exactly when no unit is hit |
| Bullets.DamageEventsMatch | src/battle_game/core/bullets/superball.cpp:75-89 | the unit loop pushes as many events as there are hit units, and the j-th event is the DealDamage of the j-th hit unit |
| Bullets.DamageEventsSpec | src/battle_game/core/bullets/superball.cpp:75-89 | the unit loop pushes exactly one DealDamage from this ball, with the given amount, per unit hit at the final position (the owner included), in the order of the units; no unit is skipped or damaged twice, and nothing else is pushed; it pushes nothing exactly when no unit is hit |
| Bullets.DamageEventsAreDamage | src/battle_game/core/bullets/superball.cpp:82-88 | the unit loop never pushes a RemoveBullet |
| Bullets.RemoveEvent | src/battle_game/core/bullets/superball.cpp:71-93 | a tick pushes at most one RemoveBullet, as its last event; it pushes one exactly when the ball was absorbed, its life count reached ≤ 0, its bounce count reached ≤ 0, or a unit was hit |
| Bullets.TraceCounters | src/battle_game/core/bullets/superball.cpp:41-110 | after k + 1 ticks the life count is down by k + 1 and the bounce count is down by the number of bouncing ticks so far |
| Bullets.RemovedWithinLifetime | src/battle_game/core/bullets/superball.h:35 | a ball with life count L >= 1 pushes a RemoveBullet at its L-th update at the latest; for a new ball, L = 300 |
| Bullets.LastBounceRemoves | src/battle_game/core/bullets/superball.h:36 | the tick that resolves the bounce that uses up the bounce count (the 5th, for a new ball) pushes a RemoveBullet |
| Bullets.Superball.constructor | src/battle_game/core/bullets/superball.cpp:7-17 | a new ball takes the given position, rotation, damage scale and velocity, with spin 0, life count 300 and bounce count 5 |
| Bullets.Superball.WithAngularVelocity | src/battle_game/core/bullets/superball.cpp:19-31 | as the constructor, but the spin is the given one |
| Bullets.Superball.DealCollision | src/battle_game/core/bullets/superball.cpp:96-111 | the new velocity and spin are `Collide` of the old ones (the statements in source order), and the bounce count goes down by one |
| Bullets.Superball.ResolveMove | src/battle_game/core/bullets/superball.cpp:45-69 | the state after the branches is `Resolve` of the state before; the result is true exactly when the ball was absorbed |
| Bullets.Superball.DamageUnits | src/battle_game/core/bullets/superball.cpp:75-89 | appends `DamageEvents` for the units, and the result is true exactly when some unit is hit |
| Bullets.Superball.Update | src/battle_game/core/bullets/superball.cpp:40-94 | the new state and the appended events are those of `Step` |

`GetSpeedScale` and `GetAngularSpeedScale` (src/battle_game/core/units/tank_ausy0201.h:11-16) are
functions that read the tank and return the field. The tank never writes its own position or
rotation: those change only when the game core applies the MoveUnit and RotateUnit events.

## Left out

- Rendering: `Render` in both classes, the model registration at src/battle_game/core/units/tank_ausy0201.cpp:15-79 and the textures are graphics plumbing.
- Input polling: the player's input is a snapshot of W/S/A/D, the two mouse buttons and the cursor, given as `Some(input)`. It is `None` when the game core finds no player.
- The world queries (`IsOutOfRange`, `GetBoundaryNormalDirection`, `IsBlockedByObstacles`, `GetBlockedObstacle`, `GetSurfaceNormal`, `GetUnits`) are function values in `World`. The game core and the obstacles are not part of this model.
- Units.IsHit: it is stated on coordinates already in the tank's local frame, because `WorldToLocal` belongs to the Unit base class, which is not part of this model.
- Trigonometry: `glm::rotate`, `sin`/`cos`, `atan2` and pi are abstract (`Trig`). The rotation by -theta in `DealCollision` is written as the transpose of the rotation by theta. This assumes that cos is even and sin is odd.
- Floating point: everything is `real`, so there is no rounding. The test `glm::length(diff) > 1e-4` is written on squared lengths as `> 1e-8`.
- Units.ThrottleMonotone: the claim that the throttle comes within 1% of its target after ten time constants is not proved. Only monotone approach without overshoot is proved, plus that neutral decay never reaches 0 (`Units.NeutralNeverStops`).
- Units.TurretRangePreserved: the range [-270°, 90°] is proved only for targets in (-270°, 90°]. When the cursor is within 1e-4 of the tank, the target is the body rotation. That rotation is never normalised, so it may lie outside that interval.
- Units.Ausy0201Tank.Fire: `fire_count_down_` is a `uint32_t`. It is modelled as a `nat` without wrap-around, so 2·kTickPerSecond is assumed to fit.
- Bullets.Superball.Update: `life_count_down_` and `bounce_count_down_` are 32-bit `int`s. They are modelled without overflow, because they only ever go down by one per tick from 300 and from 5.
- Bullets.Trace: the trace keeps updating a ball after its RemoveBullet, because the removal is applied by the game core. Only the first removal is claimed.
- The apply phase of the event queue and `Unit::GenerateBullet`: only the appended events are modelled. `GetDamageScale()` is the tank's constant `damageScale`.
- `~Superball` spawns smoke particles with `RandomInCircle`. This is cosmetic and random.
- `UnitName`, `Author` and the unused `mine_count_down_` have no behaviour.
- Energy: the bounce map conserves the energy of a uniform solid ball, with factor 2/5, as the comment at src/battle_game/core/bullets/superball.h:32 says. It does not conserve the energy of a disc, with factor 1/2. The model follows the code.
- Bullets.SpinTransfer: spin does not change the tangential velocity in every case. The tangential velocity is left unchanged exactly when the ball rolls (vx = -r·w), and the lemma states both directions of that.
