/** Picking the nearest living enemy: the running-minimum loops of
    `HomingMissile.findClosestEnemy`, of the volley in `HomingMissileWeapon.update` and of
    `LaserBeamWeapon.findClosestEnemy`. The first two start from `Infinity`; the laser starts
    from `range + 1` and also requires `distance <= range`. */
module Targeting {
  import opened Wrappers
  import opened Geometry
  import opened Enemies

  /** The distance the loops compute: from the searcher at `(cx, cy)` to the enemy. */
  function DistanceTo(m: MathLib, cx: real, cy: real, v: EnemyView): real
    requires m.Valid()
  {
    m.Dist(cx - v.x, cy - v.y)
  }

  /** An enemy the search may pick: alive, and within the range when there is one. */
  predicate Eligible(m: MathLib, cx: real, cy: real, v: EnemyView, range: Option<real>)
    requires m.Valid()
  {
    Alive(v) && (range.None? || DistanceTo(m, cx, cy, v) <= range.value)
  }

  /** The index the search ends on: a later enemy replaces the current pick only when it is
      strictly nearer. */
  function Closest(m: MathLib, cx: real, cy: real, vs: seq<EnemyView>, range: Option<real>): (r: Option<nat>)
    requires m.Valid()
    ensures r.Some? ==> r.value < |vs|
  {
    if vs == [] then None
    else
      var r := Closest(m, cx, cy, vs[..|vs| - 1], range);
      var v := vs[|vs| - 1];
      if Eligible(m, cx, cy, v, range) && (r.None? || DistanceTo(m, cx, cy, v) < DistanceTo(m, cx, cy, vs[r.value]))
      then Some(|vs| - 1)
      else r
  }

  /** The pick is an eligible enemy at minimum distance, the first such in list order, and
      there is no pick exactly when no enemy is eligible. */
  lemma {:induction false} ClosestIsNearest(m: MathLib, cx: real, cy: real, vs: seq<EnemyView>, range: Option<real>)
    requires m.Valid()
    ensures var r := Closest(m, cx, cy, vs, range);
      && (r.Some? ==> Eligible(m, cx, cy, vs[r.value], range))
      && (r.Some? ==> forall j :: 0 <= j < |vs| && Eligible(m, cx, cy, vs[j], range) ==>
                        DistanceTo(m, cx, cy, vs[r.value]) <= DistanceTo(m, cx, cy, vs[j]))
      && (r.Some? ==> forall j :: 0 <= j < r.value && Eligible(m, cx, cy, vs[j], range) ==>
                        DistanceTo(m, cx, cy, vs[r.value]) < DistanceTo(m, cx, cy, vs[j]))
      && (r.None? <==> forall j :: 0 <= j < |vs| ==> !Eligible(m, cx, cy, vs[j], range))
  {
    if vs != [] {
      var init := vs[..|vs| - 1];
      ClosestIsNearest(m, cx, cy, init, range);
      assert forall j :: 0 <= j < |init| ==> init[j] == vs[j];
    }
  }

  /** One more enemy examined. */
  lemma ClosestStep(m: MathLib, cx: real, cy: real, vs: seq<EnemyView>, i: nat, range: Option<real>)
    requires m.Valid() && i < |vs|
    ensures var r := Closest(m, cx, cy, vs[..i], range);
      Closest(m, cx, cy, vs[..i + 1], range) ==
        if Eligible(m, cx, cy, vs[i], range) && (r.None? || DistanceTo(m, cx, cy, vs[i]) < DistanceTo(m, cx, cy, vs[r.value]))
        then Some(i) else r
  {
    assert vs[..i + 1][..i] == vs[..i];
  }

  /** The enemy an index names. */
  function Select(enemies: seq<Enemy>, i: Option<nat>): Option<Enemy> {
    if i.Some? && i.value < |enemies| then Some(enemies[i.value]) else None
  }

  /** The search starting from `Infinity`, measured from `(cx, cy)`. */
  method NearestAlive(m: MathLib, cx: real, cy: real, enemies: seq<Enemy>) returns (closest: Option<Enemy>)
    requires m.Valid()
    ensures closest == Select(enemies, Closest(m, cx, cy, Views(enemies), None))
  {
    ghost var vs := Views(enemies);
    ghost var best: Option<nat> := None;
    closest := None;
    // Stands for `Infinity` while nothing has been picked.
    var minDistance := 0.0;
    var i := 0;
    while i < |enemies|
      invariant 0 <= i <= |enemies|
      invariant best == Closest(m, cx, cy, vs[..i], None)
      invariant closest == Select(enemies, best)
      invariant best.Some? ==> best.value < i && minDistance == DistanceTo(m, cx, cy, vs[best.value])
    {
      ClosestStep(m, cx, cy, vs, i, None);
      var enemy := enemies[i];
      assert vs[i] == enemy.View();
      if enemy.IsAlive() {
        var dx := cx - enemy.x;
        var dy := cy - enemy.y;
        var distance := m.Dist(dx, dy);
        assert distance == DistanceTo(m, cx, cy, vs[i]);
        if closest.None? || distance < minDistance {
          minDistance := distance;
          closest := Some(enemy);
          best := Some(i);
        }
      }
      i := i + 1;
    }
    assert vs[..|enemies|] == vs;
  }

  /** The laser's search: it starts from `range + 1` and only considers enemies within
      `range`. */
  method NearestAliveInRange(m: MathLib, cx: real, cy: real, enemies: seq<Enemy>, range: real) returns (closest: Option<Enemy>)
    requires m.Valid()
    ensures closest == Select(enemies, Closest(m, cx, cy, Views(enemies), Some(range)))
  {
    ghost var vs := Views(enemies);
    ghost var best: Option<nat> := None;
    closest := None;
    var minDistance := range + 1.0;
    var i := 0;
    while i < |enemies|
      invariant 0 <= i <= |enemies|
      invariant best == Closest(m, cx, cy, vs[..i], Some(range))
      invariant closest == Select(enemies, best)
      invariant best.None? ==> minDistance == range + 1.0
      invariant best.Some? ==> best.value < i && minDistance == DistanceTo(m, cx, cy, vs[best.value])
    {
      ClosestStep(m, cx, cy, vs, i, Some(range));
      var enemy := enemies[i];
      assert vs[i] == enemy.View();
      if enemy.IsAlive() {
        var dx := cx - enemy.x;
        var dy := cy - enemy.y;
        var distance := m.Dist(dx, dy);
        assert distance == DistanceTo(m, cx, cy, vs[i]);
        if distance < minDistance && distance <= range {
          minDistance := distance;
          closest := Some(enemy);
          best := Some(i);
        }
      }
      i := i + 1;
    }
    assert vs[..|enemies|] == vs;
  }
}
