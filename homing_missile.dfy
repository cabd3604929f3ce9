/** The homing missile (src/game/HomingMissile.ts): it re-acquires the nearest living enemy
    when its target is gone, turns its unit direction toward the target at `turnSpeed`,
    flies straight along it and leaves a fading trail. */
module HomingMissiles {
  import opened Wrappers
  import opened Geometry
  import opened Trails
  import opened Enemies
  import opened Targeting

  const DefaultTurnSpeed: real := 5.0

  /** The direction after the turn, before normalisation: each component moves toward the
      target's unit direction by the fraction `turnSpeed * dt`. */
  function Steered(m: MathLib, dirX: real, dirY: real, tdx: real, tdy: real, turnSpeed: real, dt: real): (real, real)
    requires m.Valid() && 0.0 < m.Dist(tdx, tdy)
  {
    (dirX + (tdx / m.Dist(tdx, tdy) - dirX) * turnSpeed * dt,
     dirY + (tdy / m.Dist(tdx, tdy) - dirY) * turnSpeed * dt)
  }

  /** A vector divided by its length when that is positive, else unchanged. */
  function Normalised(m: MathLib, vx: real, vy: real): (real, real)
    requires m.Valid()
  {
    if m.Dist(vx, vy) > 0.0 then (vx / m.Dist(vx, vy), vy / m.Dist(vx, vy)) else (vx, vy)
  }

  /** The direction after one update toward a target at `(tx, ty)`, seen from `(x, y)`. */
  function Turned(m: MathLib, dirX: real, dirY: real, x: real, y: real, tx: real, ty: real, turnSpeed: real, dt: real): (real, real)
    requires m.Valid()
  {
    if m.Dist(tx - x, ty - y) > 0.0 then
      var s := Steered(m, dirX, dirY, tx - x, ty - y, turnSpeed, dt);
      Normalised(m, s.0, s.1)
    else (dirX, dirY)
  }

  /** Normalising a vector of positive length gives one of length 1. */
  lemma {:induction false} NormalisedUnit(m: MathLib, vx: real, vy: real)
    requires m.Valid() && 0.0 < m.Dist(vx, vy)
    ensures m.Dist(Normalised(m, vx, vy).0, Normalised(m, vx, vy).1) == 1.0
  {
    UnitVector(m, vx, vy);
    var d := m.Dist(vx, vy);
    var ux := vx / d;
    var uy := vy / d;
    DistOfSquare(m, ux, uy, 1.0);
    DistCongruent(m, ux, uy, Normalised(m, vx, vy).0, Normalised(m, vx, vy).1);
  }

  /** The turn keeps the direction a unit vector whenever it normalises; a target at the
      missile's own position leaves the direction alone; and a turn with
      `turnSpeed * dt == 1` points the missile straight at the target. */
  lemma {:induction false} TurnedDirection(m: MathLib, dirX: real, dirY: real, x: real, y: real, tx: real, ty: real, turnSpeed: real, dt: real)
    requires m.Valid()
    ensures m.Dist(tx - x, ty - y) == 0.0 ==> Turned(m, dirX, dirY, x, y, tx, ty, turnSpeed, dt) == (dirX, dirY)
    ensures 0.0 < m.Dist(tx - x, ty - y) &&
            0.0 < m.Dist(Steered(m, dirX, dirY, tx - x, ty - y, turnSpeed, dt).0, Steered(m, dirX, dirY, tx - x, ty - y, turnSpeed, dt).1) ==>
            m.Dist(Turned(m, dirX, dirY, x, y, tx, ty, turnSpeed, dt).0, Turned(m, dirX, dirY, x, y, tx, ty, turnSpeed, dt).1) == 1.0
    ensures 0.0 < m.Dist(tx - x, ty - y) && turnSpeed * dt == 1.0 ==>
            Turned(m, dirX, dirY, x, y, tx, ty, turnSpeed, dt) == ((tx - x) / m.Dist(tx - x, ty - y), (ty - y) / m.Dist(tx - x, ty - y))
  {
    var dx := tx - x;
    var dy := ty - y;
    if 0.0 < m.Dist(dx, dy) {
      var s := Steered(m, dirX, dirY, dx, dy, turnSpeed, dt);
      if 0.0 < m.Dist(s.0, s.1) {
        NormalisedUnit(m, s.0, s.1);
      }
      if turnSpeed * dt == 1.0 {
        var d := m.Dist(dx, dy);
        var ux := dx / d;
        var uy := dy / d;
        assert s.0 == dirX + (ux - dirX) * turnSpeed * dt;
        assert s.1 == dirY + (uy - dirY) * turnSpeed * dt;
        assert ((ux - dirX) * turnSpeed) * dt == (ux - dirX) * (turnSpeed * dt);
        assert ((uy - dirY) * turnSpeed) * dt == (uy - dirY) * (turnSpeed * dt);
        UnitVector(m, dx, dy);
        DistOfSquare(m, ux, uy, 1.0);
        DistCongruent(m, ux, uy, s.0, s.1);
      }
    }
  }

  /** The target an update flies at: the current one while it lives, else the nearest
      living enemy, if any. */
  function Reacquired(m: MathLib, target: Option<Enemy>, x: real, y: real, enemies: seq<Enemy>): Option<Enemy>
    requires m.Valid()
    reads enemies, if target.Some? then {target.value} else {}
  {
    if target.None? || !target.value.IsAlive() then Select(enemies, Closest(m, x, y, Views(enemies), None)) else target
  }

  /** The state of a missile. */
  datatype MissileView = MissileView(x: real, y: real, radius: real, speed: real, damage: real, target: Option<Enemy>,
                                     directionX: real, directionY: real, lifetime: real, currentLifetime: real,
                                     turnSpeed: real, trail: seq<Particle>)

  /** What one update of `dt` makes of a missile in state `v0`, its new target `v.target`
      standing at `(tx, ty)`: it ages by `dt`, turns toward the target (keeping its direction
      without one), flies along the new direction at its speed and fades its trail; its
      parameters stay. */
  predicate Flown(m: MathLib, dt: real, v0: MissileView, v: MissileView, tx: real, ty: real)
    requires m.Valid()
  {
    && v.radius == v0.radius && v.speed == v0.speed && v.damage == v0.damage
    && v.lifetime == v0.lifetime && v.turnSpeed == v0.turnSpeed
    && v.currentLifetime == v0.currentLifetime + dt
    && (v.target.None? ==> v.directionX == v0.directionX && v.directionY == v0.directionY)
    && (v.target.Some? ==>
          v.directionX == Turned(m, v0.directionX, v0.directionY, v0.x, v0.y, tx, ty, v0.turnSpeed, dt).0 &&
          v.directionY == Turned(m, v0.directionX, v0.directionY, v0.x, v0.y, tx, ty, v0.turnSpeed, dt).1)
    && v.x == Travelled(v0.x, v.directionX, v.speed, dt) && v.y == Travelled(v0.y, v.directionY, v.speed, dt)
    && v.trail == TrailStep(v0.trail, v.x, v.y, v.radius, dt)
  }

  class HomingMissile {
    var x: real
    var y: real
    const radius: real
    const speed: real
    const damage: real
    var target: Option<Enemy>
    var directionX: real
    var directionY: real
    const lifetime: real
    var currentLifetime: real
    const turnSpeed: real
    var trail: seq<Particle>

    /** `new HomingMissile(x, y, radius, speed, damage, target, lifetime, sprite, turnSpeed)`:
        pointing at the target when there is one, else straight up. */
    constructor (m: MathLib, x: real, y: real, radius: real, speed: real, damage: real, target: Option<Enemy>,
                 lifetime: real, turnSpeed: real)
      requires m.Valid()
      ensures this.x == x && this.y == y && this.radius == radius && this.speed == speed && this.damage == damage
      ensures this.target == target && this.lifetime == lifetime && currentLifetime == 0.0
      ensures this.turnSpeed == turnSpeed && trail == []
      ensures target.None? ==> directionX == 0.0 && directionY == -1.0
      ensures target.Some? && 0.0 < m.Dist(target.value.x - x, target.value.y - y) ==>
              m.Dist(directionX, directionY) == 1.0
      ensures target.Some? && 0.0 < m.Dist(target.value.x - x, target.value.y - y) ==>
              directionX == (target.value.x - x) / m.Dist(target.value.x - x, target.value.y - y) &&
              directionY == (target.value.y - y) / m.Dist(target.value.x - x, target.value.y - y)
    {
      this.x := x;
      this.y := y;
      this.radius := radius;
      this.speed := speed;
      this.damage := damage;
      this.target := target;
      this.lifetime := lifetime;
      currentLifetime := 0.0;
      this.turnSpeed := turnSpeed;
      trail := [];
      var dirX, dirY := 0.0, -1.0;
      if target.Some? {
        var dx := target.value.x - x;
        var dy := target.value.y - y;
        var distance := m.Dist(dx, dy);
        if distance > 0.0 {
          dirX, dirY := dx / distance, dy / distance;
          NormalisedUnit(m, dx, dy);
        }
      }
      directionX := dirX;
      directionY := dirY;
    }

    /** `update(dt, enemies)`: ages, re-acquires a target when it has none or it died, turns
        toward the target, flies and fades its trail; reports whether it is still alive. */
    method Update(m: MathLib, dt: real, enemies: seq<Enemy>) returns (alive: bool)
      requires m.Valid()
      modifies this`x, this`y, this`target, this`directionX, this`directionY, this`currentLifetime, this`trail
      ensures currentLifetime == old(currentLifetime) + dt
      ensures target == old(Reacquired(m, target, x, y, enemies))
      ensures target.None? ==> directionX == old(directionX) && directionY == old(directionY)
      ensures target.Some? ==>
        directionX == Turned(m, old(directionX), old(directionY), old(x), old(y), target.value.x, target.value.y, turnSpeed, dt).0 &&
        directionY == Turned(m, old(directionX), old(directionY), old(x), old(y), target.value.x, target.value.y, turnSpeed, dt).1
      ensures x == Travelled(old(x), directionX, speed, dt) && y == Travelled(old(y), directionY, speed, dt)
      ensures trail == TrailStep(old(trail), x, y, radius, dt)
      ensures alive <==> currentLifetime < lifetime
    {
      var aim := Reacquire(m, target, x, y, enemies);
      var dirX, dirY := directionX, directionY;
      if aim.Some? {
        dirX, dirY := Turn(m, dirX, dirY, x, y, aim.value.x, aim.value.y, turnSpeed, dt);
      }
      var nx, ny := Fly(x, y, dirX, dirY, speed, dt);
      currentLifetime := currentLifetime + dt;
      target, directionX, directionY := aim, dirX, dirY;
      x, y := nx, ny;
      trail := FadeTrail(trail + [Particle(x, y, 1.0, radius)], dt);
      alive := currentLifetime < lifetime;
    }

    /** The target check of `update`: a missing or dead target is replaced by the nearest
        living enemy, if any. */
    static method Reacquire(m: MathLib, target: Option<Enemy>, x: real, y: real, enemies: seq<Enemy>) returns (aim: Option<Enemy>)
      requires m.Valid()
      ensures aim == Reacquired(m, target, x, y, enemies)
    {
      aim := target;
      if aim.None? || !aim.value.IsAlive() {
        aim := NearestAlive(m, x, y, enemies);
      }
    }

    /** The flight of `update`: straight along the direction at `speed`. */
    static method Fly(x: real, y: real, dirX: real, dirY: real, speed: real, dt: real) returns (nx: real, ny: real)
      ensures nx == Travelled(x, dirX, speed, dt) && ny == Travelled(y, dirY, speed, dt)
    {
      nx := x + dirX * speed * dt;
      ny := y + dirY * speed * dt;
    }

    /** The turn of `update`: steer toward the target's unit direction, then normalise. */
    static method Turn(m: MathLib, dirX: real, dirY: real, x: real, y: real, tx: real, ty: real, turnSpeed: real, dt: real)
      returns (nx: real, ny: real)
      requires m.Valid()
      ensures nx == Turned(m, dirX, dirY, x, y, tx, ty, turnSpeed, dt).0
      ensures ny == Turned(m, dirX, dirY, x, y, tx, ty, turnSpeed, dt).1
    {
      nx, ny := dirX, dirY;
      var targetDx := tx - x;
      var targetDy := ty - y;
      var targetDistance := m.Dist(targetDx, targetDy);
      if targetDistance > 0.0 {
        nx := nx + (targetDx / targetDistance - nx) * turnSpeed * dt;
        ny := ny + (targetDy / targetDistance - ny) * turnSpeed * dt;
        ghost var steered := Steered(m, dirX, dirY, targetDx, targetDy, turnSpeed, dt);
        assert nx == steered.0 && ny == steered.1;
        var magnitude := m.Dist(nx, ny);
        DistCongruent(m, nx, ny, steered.0, steered.1);
        if magnitude > 0.0 {
          nx, ny := nx / magnitude, ny / magnitude;
        }
      }
    }

    function View(): MissileView
      reads this
    {
      MissileView(x, y, radius, speed, damage, target, directionX, directionY, lifetime, currentLifetime, turnSpeed, trail)
    }

    /** `collidesWith(other)`: centre distance below the radius plus the other's half size. */
    predicate Collides(m: MathLib, ox: real, oy: real, osize: real)
      requires m.Valid()
      reads this
    {
      CirclesOverlap(m, x, y, radius, ox, oy, osize / 2.0)
    }
  }

  /** The states of the missiles `ms`, by index. */
  function MissileViews(ms: seq<HomingMissile>): (vs: seq<MissileView>)
    reads ms
    ensures |vs| == |ms| && forall i :: 0 <= i < |ms| ==> vs[i] == ms[i].View()
  {
    if ms == [] then [] else MissileViews(ms[..|ms| - 1]) + [ms[|ms| - 1].View()]
  }
}
