/** Numeric helpers shared by the whole model.

    The game takes square roots and trigonometry from JavaScript's `Math` object. The
    model receives them as a `MathLib` value whose `Valid()` states the only laws the
    game relies on: `sqrt` is the non-negative square root and `cos^2 + sin^2 == 1`. */
module Geometry {

  /** A coordinate after `dt` seconds at `speed` along the direction component `direction`. */
  function Travelled(p: real, direction: real, speed: real, dt: real): real {
    p + direction * speed * dt
  }

  datatype MathLib = MathLib(sqrt: real -> real, cos: real -> real, sin: real -> real) {

    /** The laws of `Math.sqrt`, `Math.cos` and `Math.sin` the game relies on. Each law is
        stated for the values its `Probe` mentions, so that only the lemmas of this module,
        which probe the values they need, put the laws to use. */
    ghost predicate Valid() {
      && (forall s: real {:trigger Probe(s)} :: Probe(s) && 0.0 <= s ==> 0.0 <= sqrt(s) && sqrt(s) * sqrt(s) == s)
      && (forall s: real, t: real {:trigger Probe(s), Probe(t)} :: Probe(s) && Probe(t) && 0.0 <= s < t ==> sqrt(s) < sqrt(t))
      && (forall r: real {:trigger SquareProbe(r)} :: SquareProbe(r) && 0.0 <= r ==> sqrt(r * r) == r)
      && (forall a: real {:trigger AngleProbe(a)} :: AngleProbe(a) ==> cos(a) * cos(a) + sin(a) * sin(a) == 1.0)
    }

    /** `Math.sqrt(dx * dx + dy * dy)`. */
    function Dist(dx: real, dy: real): (d: real)
      requires Valid()
      ensures 0.0 <= d
    {
      SquaresNonNegative(dx, dy);
      assert Probe(dx * dx + dy * dy);
      sqrt(dx * dx + dy * dy)
    }
  }

  /** Marks a value the square-root laws are applied to. */
  predicate Probe(s: real) { true }

  /** Marks a value whose square's root is taken. */
  predicate SquareProbe(r: real) { true }

  /** Marks an angle the Pythagorean identity is applied to. */
  predicate AngleProbe(a: real) { true }

  /** `cos(a)^2 + sin(a)^2 == 1`. */
  lemma Pythagoras(m: MathLib, a: real)
    requires m.Valid()
    ensures m.cos(a) * m.cos(a) + m.sin(a) * m.sin(a) == 1.0
  {
    assert AngleProbe(a);
  }

  /** The square of a distance is the sum of squares it was taken of. */
  lemma DistSquare(m: MathLib, dx: real, dy: real)
    requires m.Valid()
    ensures m.Dist(dx, dy) * m.Dist(dx, dy) == dx * dx + dy * dy
  {
    SquaresNonNegative(dx, dy);
    assert Probe(dx * dx + dy * dy);
  }

  lemma SquaresNonNegative(dx: real, dy: real)
    ensures 0.0 <= dx * dx + dy * dy
  {
    assert 0.0 <= dx * dx;
    assert 0.0 <= dy * dy;
  }

  /** A distance compares with a non-negative bound exactly as its square does, so every
      `Math.sqrt(..) < r` test of the game is a squared comparison. */
  lemma {:induction false} DistLessIff(m: MathLib, dx: real, dy: real, r: real)
    requires m.Valid() && 0.0 <= r
    ensures m.Dist(dx, dy) < r <==> dx * dx + dy * dy < r * r
  {
    var s := dx * dx + dy * dy;
    SquaresNonNegative(dx, dy);
    SquaresNonNegative(r, 0.0);
    assert SquareProbe(r) && Probe(s) && Probe(r * r);
    if s < r * r {
      assert m.sqrt(s) < m.sqrt(r * r);
    } else if r * r < s {
      assert m.sqrt(r * r) < m.sqrt(s);
    }
  }

  /** Distances are symmetric: swapping the two points negates dx and dy. */
  lemma DistSymmetric(m: MathLib, dx: real, dy: real)
    requires m.Valid()
    ensures m.Dist(dx, dy) == m.Dist(-dx, -dy)
  {
    assert (-dx) * (-dx) == dx * dx;
    assert (-dy) * (-dy) == dy * dy;
  }

  /** A positive distance comes from a positive sum of squares. */
  lemma {:induction false} DistPositive(m: MathLib, dx: real, dy: real)
    requires m.Valid() && 0.0 < m.Dist(dx, dy)
    ensures 0.0 < dx * dx + dy * dy
  {
    SquaresNonNegative(dx, dy);
    assert SquareProbe(0.0) && Probe(dx * dx + dy * dy) && Probe(0.0 * 0.0);
  }

  /** Dividing a vector by its positive length gives a vector of length 1. */
  lemma {:induction false} UnitVector(m: MathLib, dx: real, dy: real)
    requires m.Valid() && 0.0 < m.Dist(dx, dy)
    ensures (dx / m.Dist(dx, dy)) * (dx / m.Dist(dx, dy)) + (dy / m.Dist(dx, dy)) * (dy / m.Dist(dx, dy)) == 1.0
  {
    var d := m.Dist(dx, dy);
    DistPositive(m, dx, dy);
    DistSquare(m, dx, dy);
    QuotientSquare(dx, d);
    QuotientSquare(dy, d);
    UnitSum((dx / d) * (dx / d), (dy / d) * (dy / d), d * d, dx * dx, dy * dy);
  }

  lemma QuotientSquare(a: real, d: real)
    requires d != 0.0
    ensures (a / d) * (a / d) * (d * d) == a * a
  {
  }

  lemma UnitSum(a: real, b: real, c: real, p: real, q: real)
    requires a * c == p
    requires b * c == q
    requires c == p + q
    requires 0.0 < p + q
    ensures a + b == 1.0
  {
    assert (a + b - 1.0) * c == 0.0;
  }

  /** Equal components give equal distances. The solver does not always see this through
      the arithmetic, so the lemmas below state it where they need it. */
  lemma DistCongruent(m: MathLib, a: real, b: real, c: real, d: real)
    requires m.Valid() && a == c && b == d
    ensures m.Dist(a, b) == m.Dist(c, d)
  {
  }

  /** A distance whose square is `r * r` for some `r >= 0` is `r`. */
  lemma DistOfSquare(m: MathLib, dx: real, dy: real, r: real)
    requires m.Valid() && 0.0 <= r && dx * dx + dy * dy == r * r
    ensures m.Dist(dx, dy) == r
  {
    assert SquareProbe(r);
    var s := dx * dx + dy * dy;
    assert m.sqrt(s) == m.sqrt(r * r);
  }

  /** A vector of length 1 scaled by `k` has squared length `k * k`. */
  lemma ScaledUnitLength(ux: real, uy: real, k: real)
    requires ux * ux + uy * uy == 1.0
    ensures (ux * k) * (ux * k) + (uy * k) * (uy * k) == k * k
  {
    assert (ux * k) * (ux * k) + (uy * k) * (uy * k) == (ux * ux + uy * uy) * (k * k);
  }

  /** A step of `k >= 0` along a direction of length 1 covers a distance of exactly `k`. */
  lemma {:induction false} ScaledUnitDist(m: MathLib, ux: real, uy: real, k: real)
    requires m.Valid() && ux * ux + uy * uy == 1.0 && 0.0 <= k
    ensures m.Dist(ux * k, uy * k) == k
  {
    ScaledUnitLength(ux, uy, k);
    DistOfSquare(m, ux * k, uy * k, k);
  }

  /** Moving `k >= 0` along the normalised difference vector covers exactly `k`: the rule
      every homing object (enemy, gem, missile) follows. */
  lemma {:induction false} StepLength(m: MathLib, dx: real, dy: real, k: real)
    requires m.Valid() && 0.0 < m.Dist(dx, dy) && 0.0 <= k
    ensures m.Dist((dx / m.Dist(dx, dy)) * k, (dy / m.Dist(dx, dy)) * k) == k
  {
    UnitVector(m, dx, dy);
    var d := m.Dist(dx, dy);
    var ux := dx / d;
    var uy := dy / d;
    ScaledUnitDist(m, ux, uy, k);
    DistCongruent(m, ux * k, uy * k, (dx / m.Dist(dx, dy)) * k, (dy / m.Dist(dx, dy)) * k);
  }

  /** Scaling both components by `c >= 0` scales the distance by `c`. */
  lemma {:induction false} DistScale(m: MathLib, a: real, b: real, c: real)
    requires m.Valid() && 0.0 <= c
    ensures m.Dist(a * c, b * c) == c * m.Dist(a, b)
  {
    var d := m.Dist(a, b);
    DistSquare(m, a, b);
    assert (a * c) * (a * c) + (b * c) * (b * c) == (c * c) * (a * a + b * b);
    assert (c * d) * (c * d) == (c * c) * (d * d);
    assert 0.0 <= c * d;
    DistOfSquare(m, a * c, b * c, c * d);
  }

  /** A step of length `k` toward a point `d >= k` away leaves it exactly `d - k` away. */
  lemma {:induction false} StepToward(m: MathLib, dx: real, dy: real, k: real)
    requires m.Valid() && 0.0 < m.Dist(dx, dy) && 0.0 <= k <= m.Dist(dx, dy)
    ensures m.Dist(dx - (dx / m.Dist(dx, dy)) * k, dy - (dy / m.Dist(dx, dy)) * k) == m.Dist(dx, dy) - k
  {
    var d := m.Dist(dx, dy);
    var c := 1.0 - k / d;
    assert k / d <= 1.0;
    DistScale(m, dx, dy, c);
    var a := dx * c;
    var b := dy * c;
    DistCongruent(m, a, b, dx - (dx / m.Dist(dx, dy)) * k, dy - (dy / m.Dist(dx, dy)) * k);
    assert c * d == d - k;
  }

  function Max(a: real, b: real): (r: real)
    ensures a <= r && b <= r && (r == a || r == b)
  {
    if a >= b then a else b
  }

  function Min(a: real, b: real): (r: real)
    ensures r <= a && r <= b && (r == a || r == b)
  {
    if a <= b then a else b
  }

  /** The game's `clamp(value, min, max)`, read as `Math.max(min, Math.min(value, max))`. */
  function Clamp(v: real, lo: real, hi: real): (r: real)
    ensures lo <= hi ==> lo <= r <= hi
    ensures lo <= v <= hi ==> r == v
    ensures lo <= hi && v < lo ==> r == lo
    ensures lo <= hi && hi < v ==> r == hi
  {
    Max(lo, Min(v, hi))
  }

  /** The circle test every entity uses: centre distance below the sum of the radii. */
  predicate CirclesOverlap(m: MathLib, x1: real, y1: real, r1: real, x2: real, y2: real, r2: real)
    requires m.Valid()
  {
    m.Dist(x1 - x2, y1 - y2) < r1 + r2
  }

  /** The circle test is symmetric in its two circles. */
  lemma CirclesOverlapSymmetric(m: MathLib, x1: real, y1: real, r1: real, x2: real, y2: real, r2: real)
    requires m.Valid()
    ensures CirclesOverlap(m, x1, y1, r1, x2, y2, r2) == CirclesOverlap(m, x2, y2, r2, x1, y1, r1)
  {
    DistSymmetric(m, x1 - x2, y1 - y2);
    assert x2 - x1 == -(x1 - x2) && y2 - y1 == -(y1 - y2);
  }

  /** `Math.PI` as a double. */
  const PI: real := 3.141592653589793
}
