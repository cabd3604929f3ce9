/** One blade of the spinning-blade weapon (src/game/SpinningBlade.ts): it orbits the player
    at a fixed distance. */
module SpinningBlades {
  import opened Geometry

  /** Everything a blade holds, as a value. */
  datatype BladeView = BladeView(x: real, y: real, radius: real, damage: real, angle: real,
                                 orbitDistance: real, rotationSpeed: real)

  /** The point at `angle` on the circle of radius `d` around `(px, py)`. */
  function OrbitPoint(m: MathLib, px: real, py: real, d: real, angle: real): (real, real) {
    (px + d * m.cos(angle), py + d * m.sin(angle))
  }

  /** `update(dt, playerX, playerY)`: the angle advances by `rotationSpeed * dt` and the
      blade moves to that angle on its orbit. */
  function BladeMoved(m: MathLib, b: BladeView, dt: real, px: real, py: real): BladeView {
    var angle := b.angle + b.rotationSpeed * dt;
    b.(angle := angle, x := OrbitPoint(m, px, py, b.orbitDistance, angle).0,
       y := OrbitPoint(m, px, py, b.orbitDistance, angle).1)
  }

  /** A point of the orbit is exactly `d` away from the centre. */
  lemma {:induction false} OrbitPointDistance(m: MathLib, px: real, py: real, d: real, angle: real)
    requires m.Valid() && 0.0 <= d
    ensures m.Dist(OrbitPoint(m, px, py, d, angle).0 - px, OrbitPoint(m, px, py, d, angle).1 - py) == d
  {
    var c := m.cos(angle);
    var s := m.sin(angle);
    Pythagoras(m, angle);
    assert (d * c) * (d * c) + (d * s) * (d * s) == (c * c + s * s) * (d * d);
    DistOfSquare(m, d * c, d * s, d);
    DistCongruent(m, d * c, d * s, OrbitPoint(m, px, py, d, angle).0 - px, OrbitPoint(m, px, py, d, angle).1 - py);
  }

  /** After an update the blade sits on its orbit, `orbitDistance` away from the player, and
      only its angle and position have changed. */
  lemma BladeMovedOnOrbit(m: MathLib, b: BladeView, dt: real, px: real, py: real)
    requires m.Valid() && 0.0 <= b.orbitDistance
    ensures BladeMoved(m, b, dt, px, py).angle == b.angle + b.rotationSpeed * dt
    ensures m.Dist(BladeMoved(m, b, dt, px, py).x - px, BladeMoved(m, b, dt, px, py).y - py) == b.orbitDistance
    ensures BladeMoved(m, b, dt, px, py) == b.(angle := BladeMoved(m, b, dt, px, py).angle,
                                             x := BladeMoved(m, b, dt, px, py).x, y := BladeMoved(m, b, dt, px, py).y)
  {
    OrbitPointDistance(m, px, py, b.orbitDistance, b.angle + b.rotationSpeed * dt);
  }

  /** `collidesWith(enemy)`: centre distance below the blade's radius plus the enemy's half
      size. */
  predicate Touches(m: MathLib, b: BladeView, ox: real, oy: real, osize: real)
    requires m.Valid()
  {
    CirclesOverlap(m, b.x, b.y, b.radius, ox, oy, osize / 2.0)
  }

  class SpinningBlade {
    var x: real
    var y: real
    const radius: real
    var damage: real
    var angle: real
    const orbitDistance: real
    const rotationSpeed: real
    const color: string

    function View(): BladeView
      reads this
    {
      BladeView(x, y, radius, damage, angle, orbitDistance, rotationSpeed)
    }

    /** `new SpinningBlade(orbitDistance, rotationSpeed, damage, radius, initialAngle, sprite)`:
        the position stays at the origin until the first update. */
    constructor (orbitDistance: real, rotationSpeed: real, damage: real, radius: real, initialAngle: real)
      ensures View() == BladeView(0.0, 0.0, radius, damage, initialAngle, orbitDistance, rotationSpeed)
      ensures color == "gray"
    {
      this.orbitDistance := orbitDistance;
      this.rotationSpeed := rotationSpeed;
      this.damage := damage;
      this.radius := radius;
      angle := initialAngle;
      color := "gray";
      x := 0.0;
      y := 0.0;
    }

    method Update(m: MathLib, dt: real, px: real, py: real)
      modifies this`angle, this`x, this`y
      ensures View() == BladeMoved(m, old(View()), dt, px, py)
    {
      angle := angle + rotationSpeed * dt;
      x := px + orbitDistance * m.cos(angle);
      y := py + orbitDistance * m.sin(angle);
    }

    predicate Collides(m: MathLib, ox: real, oy: real, osize: real)
      requires m.Valid()
      reads this
    {
      Touches(m, View(), ox, oy, osize)
    }
  }

  /** The views of a list of blades, in order. */
  function BladeViews(bs: seq<SpinningBlade>): (r: seq<BladeView>)
    reads bs
    ensures |r| == |bs| && forall i :: 0 <= i < |bs| ==> r[i] == bs[i].View()
  {
    if bs == [] then [] else BladeViews(bs[..|bs| - 1]) + [bs[|bs| - 1].View()]
  }
}
