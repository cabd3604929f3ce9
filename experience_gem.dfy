/** The experience gem (src/game/ExperienceGem.ts). */
module ExperienceGems {
  import opened Geometry

  /** Every gem is 10 across. */
  const GemSize: real := 10.0
  /** The speed at which a magnet pulls a gem. */
  const PullSpeed: real := 300.0

  /** Where `pullTowards(tx, ty, dt)` puts a gem at `(gx, gy)`: one step of `pullSpeed * dt`
      along the unit vector toward the target, none at distance 0. */
  function Pulled(m: MathLib, gx: real, gy: real, tx: real, ty: real, dt: real): (r: (real, real))
    requires m.Valid()
  {
    var dx := tx - gx;
    var dy := ty - gy;
    var distance := m.Dist(dx, dy);
    if distance > 0.0 then (gx + (dx / distance) * (PullSpeed * dt), gy + (dy / distance) * (PullSpeed * dt))
    else (gx, gy)
  }

  /** A pull at distance 0 leaves the gem where it is; otherwise the gem covers exactly
      `pullSpeed * dt` (for `dt >= 0`), overshooting the target if it is closer than that. */
  lemma {:induction false} PulledStep(m: MathLib, gx: real, gy: real, tx: real, ty: real, dt: real)
    requires m.Valid()
    ensures m.Dist(tx - gx, ty - gy) == 0.0 ==> Pulled(m, gx, gy, tx, ty, dt) == (gx, gy)
    ensures 0.0 < m.Dist(tx - gx, ty - gy) && 0.0 <= dt ==>
      m.Dist(Pulled(m, gx, gy, tx, ty, dt).0 - gx, Pulled(m, gx, gy, tx, ty, dt).1 - gy) == PullSpeed * dt
  {
    var dx := tx - gx;
    var dy := ty - gy;
    var k := PullSpeed * dt;
    if 0.0 < m.Dist(dx, dy) && 0.0 <= dt {
      var r := Pulled(m, gx, gy, tx, ty, dt);
      StepLength(m, dx, dy, k);
      DistCongruent(m, (dx / m.Dist(dx, dy)) * k, (dy / m.Dist(dx, dy)) * k, r.0 - gx, r.1 - gy);
    }
  }

  /** A pull whose step does not reach the target leaves the gem exactly `pullSpeed * dt`
      closer to it. */
  lemma {:induction false} PulledCloser(m: MathLib, gx: real, gy: real, tx: real, ty: real, dt: real)
    requires m.Valid() && 0.0 < m.Dist(tx - gx, ty - gy) && 0.0 <= PullSpeed * dt <= m.Dist(tx - gx, ty - gy)
    ensures m.Dist(tx - Pulled(m, gx, gy, tx, ty, dt).0, ty - Pulled(m, gx, gy, tx, ty, dt).1) == m.Dist(tx - gx, ty - gy) - PullSpeed * dt
  {
    var dx := tx - gx;
    var dy := ty - gy;
    var k := PullSpeed * dt;
    var r := Pulled(m, gx, gy, tx, ty, dt);
    StepToward(m, dx, dy, k);
    DistCongruent(m, dx - (dx / m.Dist(dx, dy)) * k, dy - (dy / m.Dist(dx, dy)) * k, tx - r.0, ty - r.1);
  }

  /** Whether a gem `g` centred at `p` touches the circle of diameter `osize` at `(ox, oy)`. */
  predicate TouchesAt(m: MathLib, g: ExperienceGem, p: (real, real), ox: real, oy: real, osize: real)
    requires m.Valid()
  {
    CirclesOverlap(m, p.0, p.1, g.size / 2.0, ox, oy, osize / 2.0)
  }

  /** The positions of the gems `gs`, by index. */
  ghost function Positions(gs: seq<ExperienceGem>): (r: seq<(real, real)>)
    reads gs
    ensures |r| == |gs| && forall k :: 0 <= k < |gs| ==> r[k] == gs[k].Position()
  {
    seq(|gs|, k requires 0 <= k < |gs| reads gs => gs[k].Position())
  }

  /** Which of the gems `gs` touch the circle of diameter `osize` at `(ox, oy)`, by index. */
  ghost function GemsTouching(m: MathLib, gs: seq<ExperienceGem>, ox: real, oy: real, osize: real): (r: seq<bool>)
    requires m.Valid()
    reads gs
    ensures |r| == |gs| && forall k :: 0 <= k < |gs| ==> r[k] == gs[k].Collides(m, ox, oy, osize)
  {
    seq(|gs|, k requires 0 <= k < |gs| reads gs => gs[k].Collides(m, ox, oy, osize))
  }

  /** The values of the gems `gs`, by index. */
  function GemValues(gs: seq<ExperienceGem>): (r: seq<int>)
    ensures |r| == |gs| && forall k :: 0 <= k < |gs| ==> r[k] == gs[k].value
  {
    seq(|gs|, k requires 0 <= k < |gs| => gs[k].value)
  }

  class ExperienceGem {
    var x: real
    var y: real
    const size: real
    const value: int
    const color: string

    /** `new ExperienceGem(x, y, value)`. */
    constructor (x: real, y: real, value: int)
      ensures this.x == x && this.y == y && size == GemSize && this.value == value && color == "yellow"
    {
      this.x := x;
      this.y := y;
      size := GemSize;
      this.value := value;
      color := "yellow";
    }

    function Position(): (real, real)
      reads this
    {
      (x, y)
    }

    /** `collidesWith(other)`: centre distance below the sum of the half sizes. */
    predicate Collides(m: MathLib, ox: real, oy: real, osize: real)
      requires m.Valid()
      reads this
    {
      TouchesAt(m, this, Position(), ox, oy, osize)
    }

    /** `pullTowards(tx, ty, dt)`. */
    method PullTowards(m: MathLib, tx: real, ty: real, dt: real)
      requires m.Valid()
      modifies this`x, this`y
      ensures x == Pulled(m, old(x), old(y), tx, ty, dt).0 && y == Pulled(m, old(x), old(y), tx, ty, dt).1
    {
      var dx := tx - x;
      var dy := ty - y;
      var distance := m.Dist(dx, dy);
      if distance > 0.0 {
        x := x + (dx / distance) * (PullSpeed * dt);
        y := y + (dy / distance) * (PullSpeed * dt);
      }
    }
  }
}
