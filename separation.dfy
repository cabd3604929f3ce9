/** The separation forces the entity manager computes at the start of its update
    (src/game/EntityManager.ts:93-129): every unordered pair of enemies closer than one and a
    half times the sum of their radii pushes the two apart with equal and opposite forces.

    `Enemy.update(dt, player)` takes no separation vector (src/game/Enemy.ts:34), so the
    forces, although computed, move no enemy. */
module Separation {
  import opened Geometry
  import opened Enemies

  datatype Vec = Vec(x: real, y: real)

  const SeparationStrength: real := 100.0

  /** One and a half times the distance at which the two circles touch. */
  function SeparationRadius(a: EnemyView, b: EnemyView): real {
    (a.size / 2.0 + b.size / 2.0) * 1.5
  }

  /** `(overlap / separationRadius) * separationStrength`. */
  function Magnitude(distance: real, radius: real): real
    requires radius != 0.0
  {
    ((radius - distance) / radius) * SeparationStrength
  }

  /** The force `a` receives from `b`; `b` receives its opposite. Two enemies on the same
      spot are pushed along the random `angle`. */
  function Push(m: MathLib, a: EnemyView, b: EnemyView, angle: real): Vec
    requires m.Valid()
  {
    var dx := a.x - b.x;
    var dy := a.y - b.y;
    var distance := m.Dist(dx, dy);
    var radius := SeparationRadius(a, b);
    if distance < radius then
      var magnitude := Magnitude(distance, radius);
      if distance == 0.0 then Vec(m.cos(angle) * magnitude, m.sin(angle) * magnitude)
      else Vec((dx / distance) * magnitude, (dy / distance) * magnitude)
    else Vec(0.0, 0.0)
  }

  /** A pair closer than its separation radius pushes with a length of exactly
      `(overlap / separationRadius) * 100`, which lies in `(0, 100]`; a farther pair does not
      push at all. */
  lemma {:induction false} PushLength(m: MathLib, a: EnemyView, b: EnemyView, angle: real)
    requires m.Valid()
    ensures var distance := m.Dist(a.x - b.x, a.y - b.y);
      var radius := SeparationRadius(a, b);
      if distance < radius then
        && 0.0 < Magnitude(distance, radius) <= SeparationStrength
        && m.Dist(Push(m, a, b, angle).x, Push(m, a, b, angle).y) == Magnitude(distance, radius)
      else Push(m, a, b, angle) == Vec(0.0, 0.0)
  {
    if m.Dist(a.x - b.x, a.y - b.y) < SeparationRadius(a, b) {
      MagnitudeBounds(m.Dist(a.x - b.x, a.y - b.y), SeparationRadius(a, b));
      if m.Dist(a.x - b.x, a.y - b.y) == 0.0 {
        CoincidentPush(m, a, b, angle);
      } else {
        ApartPush(m, a, b, angle);
      }
    }
  }

  lemma CoincidentPush(m: MathLib, a: EnemyView, b: EnemyView, angle: real)
    requires m.Valid() && m.Dist(a.x - b.x, a.y - b.y) == 0.0 < SeparationRadius(a, b)
    ensures m.Dist(Push(m, a, b, angle).x, Push(m, a, b, angle).y) == Magnitude(0.0, SeparationRadius(a, b))
  {
    var magnitude := Magnitude(0.0, SeparationRadius(a, b));
    MagnitudeBounds(0.0, SeparationRadius(a, b));
    var p := Push(m, a, b, angle);
    assert p == Vec(m.cos(angle) * magnitude, m.sin(angle) * magnitude);
    RandomPushLength(m, angle, magnitude);
  }

  lemma ApartPush(m: MathLib, a: EnemyView, b: EnemyView, angle: real)
    requires m.Valid() && 0.0 < m.Dist(a.x - b.x, a.y - b.y) < SeparationRadius(a, b)
    ensures m.Dist(Push(m, a, b, angle).x, Push(m, a, b, angle).y) == Magnitude(m.Dist(a.x - b.x, a.y - b.y), SeparationRadius(a, b))
  {
    var dx := a.x - b.x;
    var dy := a.y - b.y;
    var distance := m.Dist(dx, dy);
    var magnitude := Magnitude(distance, SeparationRadius(a, b));
    MagnitudeBounds(distance, SeparationRadius(a, b));
    NormalPushLength(m, dx, dy, magnitude);
    var p := Push(m, a, b, angle);
    assert p.x == (dx / distance) * magnitude && p.y == (dy / distance) * magnitude;
    DistCongruent(m, (dx / m.Dist(dx, dy)) * magnitude, (dy / m.Dist(dx, dy)) * magnitude, p.x, p.y);
  }

  lemma MagnitudeBounds(distance: real, radius: real)
    requires 0.0 <= distance < radius
    ensures 0.0 < Magnitude(distance, radius) <= SeparationStrength
  {
    assert 0.0 < (radius - distance) / radius <= 1.0;
  }

  lemma RandomPushLength(m: MathLib, angle: real, magnitude: real)
    requires m.Valid() && 0.0 <= magnitude
    ensures m.Dist(m.cos(angle) * magnitude, m.sin(angle) * magnitude) == magnitude
  {
    var c := m.cos(angle);
    var s := m.sin(angle);
    Pythagoras(m, angle);
    ScaledUnitDist(m, c, s, magnitude);
    DistCongruent(m, c * magnitude, s * magnitude, m.cos(angle) * magnitude, m.sin(angle) * magnitude);
  }

  lemma NormalPushLength(m: MathLib, dx: real, dy: real, magnitude: real)
    requires m.Valid() && 0.0 < m.Dist(dx, dy) && 0.0 <= magnitude
    ensures m.Dist((dx / m.Dist(dx, dy)) * magnitude, (dy / m.Dist(dx, dy)) * magnitude) == magnitude
  {
    StepLength(m, dx, dy, magnitude);
  }

  /** A push is zero exactly for the pairs beyond their separation radius. */
  lemma {:induction false} PushZeroIff(m: MathLib, a: EnemyView, b: EnemyView, angle: real)
    requires m.Valid()
    ensures Push(m, a, b, angle) == Vec(0.0, 0.0) <==> SeparationRadius(a, b) <= m.Dist(a.x - b.x, a.y - b.y)
  {
    PushLength(m, a, b, angle);
    DistOfSquare(m, 0.0, 0.0, 0.0);
  }

  /** `forces[i] += p; forces[j] -= p`. */
  function AddPair(fs: seq<Vec>, i: nat, j: nat, p: Vec): (r: seq<Vec>)
    requires i < |fs| && j < |fs|
    ensures |r| == |fs|
  {
    var fs' := fs[i := Vec(fs[i].x + p.x, fs[i].y + p.y)];
    fs'[j := Vec(fs'[j].x - p.x, fs'[j].y - p.y)]
  }

  /** The forces after the inner loop of row `i` ran for the partners `i + 1 .. j - 1`;
      `push(i, j)` is the force the pair `(i, j)` exchanges. */
  function Row(push: (int, int) -> Vec, fs: seq<Vec>, i: nat, j: nat): (r: seq<Vec>)
    requires i < j <= |fs|
    ensures |r| == |fs|
    decreases j
  {
    if j == i + 1 then fs
    else AddPair(Row(push, fs, i, j - 1), i, j - 1, push(i, j - 1))
  }

  function Zeros(n: nat): (r: seq<Vec>)
    ensures |r| == n && forall k :: 0 <= k < n ==> r[k] == Vec(0.0, 0.0)
  {
    if n == 0 then [] else Zeros(n - 1) + [Vec(0.0, 0.0)]
  }

  /** The forces of `size` enemies after the outer loop ran for the rows `0 .. n - 1`,
      starting from zero. */
  function Rows(push: (int, int) -> Vec, size: nat, n: nat): (r: seq<Vec>)
    requires n <= size
    ensures |r| == size
  {
    if n == 0 then Zeros(size) else Row(push, Rows(push, size, n - 1), n - 1, size)
  }

  /** The force each pair of a list of enemies exchanges; `angle(i, j)` is the random angle
      drawn when the pair `(i, j)` stands on one spot. */
  function Pushes(m: MathLib, vs: seq<EnemyView>, angle: (int, int) -> real): (int, int) -> Vec
    requires m.Valid()
  {
    (i: int, j: int) => if 0 <= i < |vs| && 0 <= j < |vs| then Push(m, vs[i], vs[j], angle(i, j)) else Vec(0.0, 0.0)
  }

  /** The separation forces of a list of enemies. */
  function Forces(m: MathLib, vs: seq<EnemyView>, angle: (int, int) -> real): seq<Vec>
    requires m.Valid()
  {
    Rows(Pushes(m, vs, angle), |vs|, |vs|)
  }

  /** The sum of a list of forces. */
  function Total(fs: seq<Vec>): Vec {
    if fs == [] then Vec(0.0, 0.0)
    else Vec(Total(fs[..|fs| - 1]).x + fs[|fs| - 1].x, Total(fs[..|fs| - 1]).y + fs[|fs| - 1].y)
  }

  /** Replacing one force changes the sum by the difference. */
  lemma {:induction false} TotalUpdate(fs: seq<Vec>, i: nat, v: Vec)
    requires i < |fs|
    ensures Total(fs[i := v]) == Vec(Total(fs).x - fs[i].x + v.x, Total(fs).y - fs[i].y + v.y)
    decreases |fs|
  {
    var n := |fs| - 1;
    if i < n {
      assert fs[i := v][..n] == fs[..n][i := v];
      TotalUpdate(fs[..n], i, v);
    } else {
      assert fs[i := v][..n] == fs[..n];
    }
  }

  /** Each pair adds a force to one enemy and takes it from the other. */
  lemma {:induction false} AddPairBalanced(fs: seq<Vec>, i: nat, j: nat, p: Vec)
    requires i < |fs| && j < |fs| && i != j
    ensures Total(AddPair(fs, i, j, p)) == Total(fs)
  {
    var vi := Vec(fs[i].x + p.x, fs[i].y + p.y);
    var mid := fs[i := vi];
    var vj := Vec(mid[j].x - p.x, mid[j].y - p.y);
    TotalUpdate(fs, i, vi);
    TotalUpdate(mid, j, vj);
  }

  lemma {:induction false} RowBalanced(push: (int, int) -> Vec, fs: seq<Vec>, i: nat, j: nat)
    requires i < j <= |fs|
    ensures Total(Row(push, fs, i, j)) == Total(fs)
    decreases j
  {
    if j > i + 1 {
      RowBalanced(push, fs, i, j - 1);
      AddPairBalanced(Row(push, fs, i, j - 1), i, j - 1, push(i, j - 1));
    }
  }

  lemma {:induction false} ZerosTotal(n: nat)
    ensures Total(Zeros(n)) == Vec(0.0, 0.0)
  {
    if n > 0 {
      assert Zeros(n)[..n - 1] == Zeros(n - 1);
      ZerosTotal(n - 1);
    }
  }

  lemma {:induction false} RowsBalanced(push: (int, int) -> Vec, size: nat, n: nat)
    requires n <= size
    ensures Total(Rows(push, size, n)) == Vec(0.0, 0.0)
  {
    if n == 0 {
      ZerosTotal(size);
    } else {
      RowsBalanced(push, size, n - 1);
      RowBalanced(push, Rows(push, size, n - 1), n - 1, size);
    }
  }

  /** The separation forces always sum to zero: every push one enemy receives, its
      partner receives reversed. */
  lemma {:induction false} ForcesBalanced(m: MathLib, vs: seq<EnemyView>, angle: (int, int) -> real)
    requires m.Valid()
    ensures Total(Forces(m, vs, angle)) == Vec(0.0, 0.0)
  {
    RowsBalanced(Pushes(m, vs, angle), |vs|, |vs|);
  }

  /** The nested loop of the entity manager's update, starting from a list of zero vectors. */
  method SeparationForces(m: MathLib, enemies: seq<Enemy>, angle: (int, int) -> real) returns (forces: seq<Vec>)
    requires m.Valid()
    ensures forces == Forces(m, Views(enemies), angle)
  {
    ghost var push := Pushes(m, Views(enemies), angle);
    var n := |enemies|;
    var fs := Zeros(n);
    var i := 0;
    while i < n
      invariant 0 <= i <= n && fs == Rows(push, n, i)
    {
      ghost var start := fs;
      var j := i + 1;
      while j < n
        invariant i + 1 <= j <= n && fs == Row(push, start, i, j)
      {
        var p := Push(m, enemies[i].View(), enemies[j].View(), angle(i, j));
        assert p == push(i, j);
        fs := AddPair(fs, i, j, p);
        j := j + 1;
      }
      i := i + 1;
    }
    forces := fs;
  }
}
