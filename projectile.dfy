/** The straight-flying projectile (src/game/Projectile.ts), used here for the bosses'
    projectiles the entity manager updates. */
module Projectiles {
  import opened Geometry
  import opened Trails

  /** The position and age of a projectile, the fields `update` changes besides the trail. */
  datatype ProjectileState = ProjectileState(x: real, y: real, currentLifetime: real)

  /** The states of the projectiles `ps`, by position. */
  ghost function States(ps: seq<Projectile>): (r: seq<ProjectileState>)
    reads ps
    ensures |r| == |ps| && forall k :: 0 <= k < |ps| ==> r[k] == ps[k].State()
  {
    seq(|ps|, k requires 0 <= k < |ps| reads ps => ps[k].State())
  }

  /** One `update(dt)` of the projectile `p` from the state `s`: it moves by
      `direction * speed * dt` and ages by `dt`. */
  function Step(p: Projectile, s: ProjectileState, dt: real): ProjectileState {
    ProjectileState(Travelled(s.x, p.directionX, p.speed, dt), Travelled(s.y, p.directionY, p.speed, dt), s.currentLifetime + dt)
  }

  /** The collision test of `p` placed at the state `s`. */
  predicate TouchesAt(m: MathLib, p: Projectile, s: ProjectileState, ox: real, oy: real, osize: real)
    requires m.Valid()
  {
    CirclesOverlap(m, s.x, s.y, p.radius, ox, oy, osize / 2.0)
  }

  class Projectile {
    var x: real
    var y: real
    const radius: real
    /** The culling size, the diameter. */
    const size: real
    const speed: real
    const damage: real
    const directionX: real
    const directionY: real
    const color: string
    const lifetime: real
    var currentLifetime: real
    var trail: seq<Particle>

    /** `new Projectile(x, y, radius, speed, damage, directionX, directionY, color, lifetime, sprite)`. */
    constructor (x: real, y: real, radius: real, speed: real, damage: real, directionX: real, directionY: real,
                 color: string, lifetime: real)
      ensures this.x == x && this.y == y && this.radius == radius && size == 2.0 * radius
      ensures this.speed == speed && this.damage == damage && this.directionX == directionX
      ensures this.directionY == directionY && this.color == color && this.lifetime == lifetime
      ensures currentLifetime == 0.0 && trail == []
    {
      this.x := x;
      this.y := y;
      this.radius := radius;
      size := radius * 2.0;
      this.speed := speed;
      this.damage := damage;
      this.directionX := directionX;
      this.directionY := directionY;
      this.color := color;
      this.lifetime := lifetime;
      currentLifetime := 0.0;
      trail := [];
    }

    function State(): ProjectileState
      reads this
    {
      ProjectileState(x, y, currentLifetime)
    }

    /** `update(dt)`: one `Step`, a trail particle left at the new position, reporting whether the projectile is
        still alive. */
    method Update(dt: real) returns (alive: bool)
      modifies this`x, this`y, this`currentLifetime, this`trail
      ensures State() == Step(this, old(State()), dt)
      ensures trail == TrailStep(old(trail), x, y, radius, dt)
      ensures alive <==> currentLifetime < lifetime
    {
      x := x + directionX * speed * dt;
      y := y + directionY * speed * dt;
      currentLifetime := currentLifetime + dt;
      trail := FadeTrail(trail + [Particle(x, y, 1.0, radius)], dt);
      alive := currentLifetime < lifetime;
    }

    /** `collidesWith(other)`: centre distance below the radius plus the other's half size. */
    predicate Collides(m: MathLib, ox: real, oy: real, osize: real)
      requires m.Valid()
      reads this
    {
      TouchesAt(m, this, State(), ox, oy, osize)
    }
  }
}
