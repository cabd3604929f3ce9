/** The magnet pickup (src/game/MagnetPowerUp.ts). */
module MagnetPowerUps {
  import opened Geometry

  const DefaultDuration: real := 5.0
  const DefaultRadius: real := 300.0
  /** The pickup's size. */
  const PickupSize: real := 20.0

  /** The radii the pickups `ms` grant, by index. */
  function MagnetRadii(ms: seq<MagnetPowerUp>): (r: seq<real>)
    ensures |r| == |ms| && forall k :: 0 <= k < |ms| ==> r[k] == ms[k].radius
  {
    seq(|ms|, k requires 0 <= k < |ms| => ms[k].radius)
  }

  /** The effect durations the pickups `ms` grant, by index. */
  function MagnetDurations(ms: seq<MagnetPowerUp>): (r: seq<real>)
    ensures |r| == |ms| && forall k :: 0 <= k < |ms| ==> r[k] == ms[k].duration
  {
    seq(|ms|, k requires 0 <= k < |ms| => ms[k].duration)
  }

  class MagnetPowerUp {
    const x: real
    const y: real
    const size: real
    /** How long the magnet effect lasts once collected. */
    const duration: real
    /** How far the collected magnet pulls gems. */
    const radius: real
    const color: string
    var currentDuration: real

    /** `new MagnetPowerUp(x, y, duration = 5, radius = 300)`. */
    constructor (x: real, y: real, duration: real, radius: real)
      ensures this.x == x && this.y == y && size == PickupSize && this.duration == duration
      ensures this.radius == radius && color == "lightblue" && currentDuration == duration
    {
      this.x := x;
      this.y := y;
      size := PickupSize;
      this.duration := duration;
      this.radius := radius;
      color := "lightblue";
      currentDuration := duration;
    }

    /** `update(dt)`: counts down and reports whether time is left; `duration` and `radius`,
        the values a collector copies, are constants. */
    method Update(dt: real) returns (active: bool)
      modifies this`currentDuration
      ensures currentDuration == old(currentDuration) - dt
      ensures active <==> currentDuration > 0.0
    {
      currentDuration := currentDuration - dt;
      active := currentDuration > 0.0;
    }

    /** `collidesWith(other)`: centre distance below the sum of the half sizes. */
    predicate Collides(m: MathLib, ox: real, oy: real, osize: real)
      requires m.Valid()
      reads this
    {
      CirclesOverlap(m, x, y, size / 2.0, ox, oy, osize / 2.0)
    }
  }
}
