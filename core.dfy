/** What the tank and the superball see of the game core: the deferred event queue they append
    to, the player input snapshot, the tick length and the world queries. The core itself (the
    driver, the apply phase, obstacles and other units) is abstract: its queries are values of
    function type handed to each update. */
module Core {
  import opened Geometry

  datatype Option<T> = None | Some(value: T)

  datatype BulletType = CannonBallType | SuperballType

  /** The deferred events a unit or bullet may push during its update. */
  datatype Event =
    | MoveUnit(unitId: nat, position: Vec)
    | RotateUnit(unitId: nat, rotation: real)
    | DealDamage(targetId: nat, sourceId: nat, amount: real)
    | RemoveBullet(bulletId: nat)
    | GenerateBullet(bulletType: BulletType, unitId: nat, playerId: nat, position: Vec,
                     rotation: real, damageScale: real, velocity: Vec)

  /** How many events of es satisfy p. */
  function CountWhere(es: seq<Event>, p: Event -> bool): (n: nat)
    ensures n <= |es|
    ensures n == 0 <==> forall i :: 0 <= i < |es| ==> !p(es[i])
  {
    if es == [] then 0
    else CountWhere(es[..|es| - 1], p) + (if p(es[|es| - 1]) then 1 else 0)
  }

  /** The sampled input of one player for the current tick: the four movement keys, the
      two mouse buttons and the cursor position in world coordinates. */
  datatype InputData = InputData(keyW: bool, keyS: bool, keyA: bool, keyD: bool,
                                 mouseLeft: bool, mouseRight: bool, cursor: Vec)

  /** kSecondPerTick and kTickPerSecond, defined outside the modelled files. */
  datatype Clock = Clock(secondPerTick: real, tickPerSecond: nat)

  /** The trigonometry the code calls: pi (the half turn), the rotation of an angle as
      (cos, sin), and atan2(y, x), whose value lies in (-pi, pi]. */
  datatype Trig = Trig(pi: real, cosSin: real -> Rot, atan2: (real, real) -> real) {
    ghost predicate Valid() {
      pi > 0.0 && forall y: real, x: real :: -pi < atan2(y, x) <= pi
    }

    /** glm::radians */
    function Radians(degrees: real): real { degrees * pi / 180.0 }
  }

  /** What Obstacle::GetSurfaceNormal returns: a contact point and a surface normal,
      the zero vector when the obstacle does not compute one. */
  datatype Contact = Contact(point: Vec, normal: Vec)

  datatype Obstacle = Obstacle(surfaceNormal: (Vec, Vec) -> Contact)

  /** A live unit as a bullet sees it: its identity and its hit test on world points. */
  datatype UnitView = UnitView(id: nat, isHit: Vec -> bool)

  /** The world queries of the game core, fixed for the duration of one update. */
  datatype World = World(isOutOfRange: Vec -> bool,
                         boundaryNormalDirection: Vec -> real,
                         isBlockedByObstacles: Vec -> bool,
                         blockedObstacle: Vec -> Obstacle,
                         units: seq<UnitView>)

  /** The part of the game core the entities mutate: its event queue. Events are only ever
      appended during the update pass. */
  class GameCore {
    ghost var events: seq<Event>

    constructor ()
      ensures events == []
    {
      events := [];
    }

    method PushEvent(e: Event)
      modifies this
      ensures events == old(events) + [e]
    {
      events := events + [e];
    }
  }
}
