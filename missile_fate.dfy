/** The filter of the homing-missile weapon's update, on values: which enemy a missile
    strikes, which missiles the filter keeps, and what each missile's fate leaves of the
    enemies (src/game/HomingMissileWeapon.ts:72-84). */
module MissileFates {
  import opened Wrappers
  import opened Geometry
  import opened Events
  import opened Seqs
  import opened Enemies
  import opened Targeting
  import opened HomingMissiles

  // ---------------------------------------------------------------------------------------
  // Striking

  /** Whether a missile at `(x, y)` of radius `radius` strikes the enemy `v`. */
  predicate StrikesAt(m: MathLib, x: real, y: real, radius: real, v: EnemyView)
    requires m.Valid()
  {
    Alive(v) && CirclesOverlap(m, x, y, radius, v.x, v.y, v.size / 2.0)
  }

  /** The index of the enemy the missile strikes: the first one it strikes, if any. */
  function FirstCollision(m: MathLib, x: real, y: real, radius: real, vs: seq<EnemyView>): (r: Option<nat>)
    requires m.Valid()
    ensures r.Some? ==> r.value < |vs|
  {
    if vs == [] then None
    else if StrikesAt(m, x, y, radius, vs[0]) then Some(0)
    else match FirstCollision(m, x, y, radius, vs[1..])
      case None => None
      case Some(j) => Some(j + 1)
  }

  /** `FirstCollision` picks an enemy the missile strikes and no earlier one, and finds none
      exactly when the missile strikes no enemy. */
  lemma {:induction false} FirstCollisionIsFirst(m: MathLib, x: real, y: real, radius: real, vs: seq<EnemyView>)
    requires m.Valid()
    ensures var r := FirstCollision(m, x, y, radius, vs);
      && (r.Some? ==> StrikesAt(m, x, y, radius, vs[r.value]) && forall k :: 0 <= k < r.value ==> !StrikesAt(m, x, y, radius, vs[k]))
      && (r.None? <==> forall k :: 0 <= k < |vs| ==> !StrikesAt(m, x, y, radius, vs[k]))
  {
    if vs != [] && !StrikesAt(m, x, y, radius, vs[0]) {
      FirstCollisionIsFirst(m, x, y, radius, vs[1..]);
      assert forall k :: 1 <= k < |vs| ==> vs[1..][k - 1] == vs[k];
    }
  }

  /** What became of a missile in an update. */
  datatype Fate = Expired | Struck(enemy: nat) | Kept

  /** The missiles the filter keeps, in order. */
  function Survivors(ms: seq<HomingMissile>, fates: seq<Fate>): (r: seq<HomingMissile>)
    requires |fates| == |ms|
    ensures |r| <= |ms|
  {
    if ms == [] then []
    else Survivors(ms[..|ms| - 1], fates[..|ms| - 1]) + if fates[|ms| - 1].Kept? then [ms[|ms| - 1]] else []
  }

  /** The survivors are exactly the kept missiles, and a list without repeats keeps none. */
  lemma {:induction false} SurvivorsKept(ms: seq<HomingMissile>, fates: seq<Fate>)
    requires |fates| == |ms|
    ensures forall x :: x in Survivors(ms, fates) <==> exists i :: 0 <= i < |ms| && fates[i].Kept? && ms[i] == x
    ensures Distinct(ms) ==> Distinct(Survivors(ms, fates))
  {
    if ms != [] {
      var n := |ms| - 1;
      SurvivorsKept(ms[..n], fates[..n]);
      assert forall i :: 0 <= i < n ==> ms[..n][i] == ms[i] && fates[..n][i] == fates[i];
      if Distinct(ms) {
        assert Distinct(ms[..n]);
        assert ms[n] !in ms[..n];
        if fates[n].Kept? {
          assert ms[n] !in Survivors(ms[..n], fates[..n]);
          DistinctAppend(Survivors(ms[..n], fates[..n]), ms[n]);
        }
      }
    }
  }

  /** One more missile's test adds it to the survivors when it was kept. */
  lemma SurvivorsSnoc(ms: seq<HomingMissile>, fates: seq<Fate>, f: Fate)
    requires |fates| < |ms|
    ensures Survivors(ms[..|fates| + 1], fates + [f]) == Survivors(ms[..|fates|], fates) + if f.Kept? then [ms[|fates|]] else []
  {
    var n := |fates|;
    assert ms[..n + 1][..n] == ms[..n] && (fates + [f])[..n] == fates;
  }

  /** The enemy a fate names, if any. */
  function Victim(f: Fate): Option<nat> {
    if f.Struck? then Some(f.enemy) else None
  }

  /** The enemies' views after a missile dealing `damage` met its fate: the struck one
      damaged, every other one as it was. */
  function AfterFate(vs: seq<EnemyView>, f: Fate, damage: real): (r: seq<EnemyView>)
    ensures |r| == |vs|
    ensures forall k :: 0 <= k < |vs| ==> r[k] == if Victim(f) == Some(k) then Damaged(vs[k], damage) else vs[k]
  {
    if f.Struck? && f.enemy < |vs| then vs[f.enemy := Damaged(vs[f.enemy], damage)] else vs
  }

  /** Where the target stands, or the origin without one. */
  function Spot(t: Option<Enemy>): (real, real)
    reads if t.Some? then {t.value} else {}
  {
    if t.Some? then (t.value.x, t.value.y) else (0.0, 0.0)
  }

  /** Every missile of `ms` is now in state `ends[i]`, its target standing at `spots[i]`. */
  ghost predicate Landed(ms: seq<HomingMissile>, ends: seq<MissileView>, spots: seq<(real, real)>)
    reads ms, set k | 0 <= k < |ms| && ms[k].target.Some? :: ms[k].target.value
  {
    && |ends| == |ms| == |spots|
    && forall i :: 0 <= i < |ms| ==> ms[i].View() == ends[i] && Spot(ms[i].target) == spots[i]
  }

  /** The missiles of `ms` from the `i`-th on are still in the states `starts` they began in. */
  ghost predicate Unflown(ms: seq<HomingMissile>, i: nat, starts: seq<MissileView>)
    reads ms
  {
    |starts| == |ms| && forall k :: i <= k < |ms| ==> ms[k].View() == starts[k]
  }

  /** Every missile of `starts` whose flag of `helds` is known and whose target is outside
      `es` kept that target exactly when it is alive; the update changes no such enemy, so
      this is how it stood when the missile flew. */
  ghost predicate HeldOutside(starts: seq<MissileView>, helds: seq<bool>, es: seq<Enemy>)
    reads set k | 0 <= k < |starts| && starts[k].target.Some? && starts[k].target.value !in es :: starts[k].target.value
  {
    forall k :: 0 <= k < |helds| && k < |starts| && starts[k].target.Some? && starts[k].target.value !in es ==>
      (helds[k] <==> starts[k].target.value.IsAlive())
  }

  /** One more missile's flag, stated for it alone, extends `HeldOutside`. */
  lemma HeldOutsideSnoc(starts: seq<MissileView>, helds: seq<bool>, es: seq<Enemy>, held: bool)
    requires HeldOutside(starts, helds, es) && |helds| < |starts|
    requires var t := starts[|helds|].target; t.Some? && t.value !in es ==> (held <==> t.value.IsAlive())
    ensures HeldOutside(starts, helds + [held], es)
  {
  }

  /** The target a missile that began the update in state `v0` flies at once `update` has
      checked it, the enemies being `es` with views `vs`: its old target while that is set
      and alive (`held`), otherwise the living enemy nearest to the missile (`Reacquired`).
      When the old target is in the list, whether it is alive is read off its view. */
  predicate Retargeted(m: MathLib, es: seq<Enemy>, vs: seq<EnemyView>, v0: MissileView, held: bool, t: Option<Enemy>)
    requires m.Valid()
  {
    && (held ==> v0.target.Some?)
    && (forall j :: 0 <= j < |es| && j < |vs| && v0.target == Some(es[j]) ==> (held <==> Alive(vs[j])))
    && t == if held then v0.target else Select(es, Closest(m, v0.x, v0.y, vs, None))
  }

  /** A missile that keeps its target flies at it; one that does not flies at the living
      enemy nearest to it, the first such in list order, and at none exactly when no enemy
      is alive. */
  lemma RetargetedNearest(m: MathLib, es: seq<Enemy>, vs: seq<EnemyView>, v0: MissileView, held: bool,
                          t: Option<Enemy>)
    requires m.Valid() && |vs| == |es| && Retargeted(m, es, vs, v0, held, t)
    ensures held ==> t.Some? && t == v0.target
    ensures !held ==> (t.None? <==> forall j :: 0 <= j < |vs| ==> !Alive(vs[j]))
    ensures !held && t.Some? ==>
      exists i :: 0 <= i < |es| && t == Some(es[i]) && Alive(vs[i])
        && (forall j :: 0 <= j < |vs| && Alive(vs[j]) ==> DistanceTo(m, v0.x, v0.y, vs[i]) <= DistanceTo(m, v0.x, v0.y, vs[j]))
        && (forall j :: 0 <= j < i && Alive(vs[j]) ==> DistanceTo(m, v0.x, v0.y, vs[i]) < DistanceTo(m, v0.x, v0.y, vs[j]))
  {
    ClosestIsNearest(m, v0.x, v0.y, vs, None);
  }

  /** What the filter made of a missile that began the update in state `v0` and met the
      enemies `es` as `vs`: it kept or re-acquired its target as `Retargeted` says, and flew
      to state `v` (`Flown`, toward that target standing at `spot`); it was dropped as
      expired exactly when its lifetime ran out; otherwise it struck the enemy
      `FirstCollision` picks from where it flew to, or struck nothing and was kept; `vs'` is
      the enemies after it. */
  predicate Fated(m: MathLib, dt: real, es: seq<Enemy>, v0: MissileView, v: MissileView, spot: (real, real),
                  held: bool, vs: seq<EnemyView>, f: Fate, vs': seq<EnemyView>)
    requires m.Valid()
  {
    && Retargeted(m, es, vs, v0, held, v.target)
    && Flown(m, dt, v0, v, spot.0, spot.1)
    && (f.Expired? <==> v.currentLifetime >= v.lifetime)
    && (!f.Expired? ==> FirstCollision(m, v.x, v.y, v.radius, vs) == Victim(f))
    && vs' == AfterFate(vs, f, v.damage)
  }

  /** The first `|fates|` missiles met their fates in order: each of them began in its state
      of `starts`, kept its target or not as `helds` has it, flew to its state of `ends`
      toward the spot of `spots`, and met the enemies `es` as `views` has them after the
      missiles before it. */
  predicate Flight(m: MathLib, dt: real, es: seq<Enemy>, starts: seq<MissileView>, ends: seq<MissileView>,
                   spots: seq<(real, real)>, helds: seq<bool>, views: seq<seq<EnemyView>>, fates: seq<Fate>)
    requires m.Valid()
    decreases |fates|
  {
    && |fates| <= |starts| && |ends| == |fates| && |spots| == |fates| && |helds| == |fates| && |views| == |fates| + 1
    && (fates != [] ==>
      var n := |fates| - 1;
      && Flight(m, dt, es, starts, ends[..n], spots[..n], helds[..n], views[..n + 1], fates[..n])
      && Fated(m, dt, es, starts[n], ends[n], spots[n], helds[n], views[n], fates[n], views[n + 1]))
  }

  /** One more missile's fate extends the flight. */
  lemma FlightExtend(m: MathLib, dt: real, es: seq<Enemy>, starts: seq<MissileView>, ends: seq<MissileView>,
                     spots: seq<(real, real)>, helds: seq<bool>, views: seq<seq<EnemyView>>, fates: seq<Fate>,
                     v: MissileView, spot: (real, real), held: bool, f: Fate, vs': seq<EnemyView>)
    requires m.Valid() && Flight(m, dt, es, starts, ends, spots, helds, views, fates) && |fates| < |starts|
    requires Fated(m, dt, es, starts[|fates|], v, spot, held, views[|fates|], f, vs')
    ensures Flight(m, dt, es, starts, ends + [v], spots + [spot], helds + [held], views + [vs'], fates + [f])
  {
    var n := |fates|;
    assert (ends + [v])[..n] == ends && (spots + [spot])[..n] == spots && (helds + [held])[..n] == helds;
    assert (views + [vs'])[..n + 1] == views && (fates + [f])[..n] == fates;
  }

  /** Every missile of a flight met its fate as `Fated` says. */
  lemma {:induction false} FlightFated(m: MathLib, dt: real, es: seq<Enemy>, starts: seq<MissileView>,
                                       ends: seq<MissileView>, spots: seq<(real, real)>, helds: seq<bool>,
                                       views: seq<seq<EnemyView>>, fates: seq<Fate>)
    requires m.Valid() && Flight(m, dt, es, starts, ends, spots, helds, views, fates)
    ensures forall k :: 0 <= k < |fates| ==>
      Fated(m, dt, es, starts[k], ends[k], spots[k], helds[k], views[k], fates[k], views[k + 1])
    decreases |fates|
  {
    if fates != [] {
      var n := |fates| - 1;
      FlightFated(m, dt, es, starts, ends[..n], spots[..n], helds[..n], views[..n + 1], fates[..n]);
      forall k | 0 <= k < n
        ensures Fated(m, dt, es, starts[k], ends[k], spots[k], helds[k], views[k], fates[k], views[k + 1])
      {
        assert ends[..n][k] == ends[k] && spots[..n][k] == spots[k] && fates[..n][k] == fates[k];
        assert helds[..n][k] == helds[k];
        assert views[..n + 1][k] == views[k] && views[..n + 1][k + 1] == views[k + 1];
      }
    }
  }

  /** How many missiles struck an enemy. */
  function StruckCount(fates: seq<Fate>): nat {
    if fates == [] then 0 else StruckCount(fates[..|fates| - 1]) + if fates[|fates| - 1].Struck? then 1 else 0
  }

  // ---------------------------------------------------------------------------------------
  // What the strikes report

  /** The `onTakeDamage` report of a missile dealing `damage` that met the fate `f` among the
      enemies `vs`: the struck enemy's position and the damage, or nothing. */
  function FateHits(vs: seq<EnemyView>, f: Fate, damage: real): seq<Hit> {
    if f.Struck? && f.enemy < |vs| then [Hit(vs[f.enemy].x, vs[f.enemy].y, damage)] else []
  }

  /** The boss defeats such a fate reports: one when the struck enemy is a boss left without
      health. */
  function FateDefeats(vs: seq<EnemyView>, f: Fate, damage: real): nat {
    if f.Struck? && f.enemy < |vs| && DefeatReported(vs[f.enemy], damage) then 1 else 0
  }

  /** The reports of a whole flight, missile by missile in list order. */
  function FlightHits(ends: seq<MissileView>, views: seq<seq<EnemyView>>, fates: seq<Fate>): seq<Hit>
    requires |ends| == |fates| && |views| == |fates| + 1
  {
    if fates == [] then []
    else
      var n := |fates| - 1;
      FlightHits(ends[..n], views[..n + 1], fates[..n]) + FateHits(views[n], fates[n], ends[n].damage)
  }

  /** The boss defeats of a whole flight. */
  function FlightDefeats(ends: seq<MissileView>, views: seq<seq<EnemyView>>, fates: seq<Fate>): nat
    requires |ends| == |fates| && |views| == |fates| + 1
  {
    if fates == [] then 0
    else
      var n := |fates| - 1;
      FlightDefeats(ends[..n], views[..n + 1], fates[..n]) + FateDefeats(views[n], fates[n], ends[n].damage)
  }

  /** One more missile's fate adds its own reports after those of the missiles before it. */
  lemma LoggedExtend(ends: seq<MissileView>, views: seq<seq<EnemyView>>, fates: seq<Fate>, v: MissileView,
                     vs': seq<EnemyView>, f: Fate)
    requires |ends| == |fates| && |views| == |fates| + 1
    ensures FlightHits(ends + [v], views + [vs'], fates + [f])
         == FlightHits(ends, views, fates) + FateHits(views[|fates|], f, v.damage)
    ensures FlightDefeats(ends + [v], views + [vs'], fates + [f])
         == FlightDefeats(ends, views, fates) + FateDefeats(views[|fates|], f, v.damage)
  {
    var n := |fates|;
    assert (ends + [v])[..n] == ends && (views + [vs'])[..n + 1] == views && (fates + [f])[..n] == fates;
  }

  /** The reports logged so far, `hits` and `defeats` from `hits0` and `defeats0`, followed by
      one more missile's reports, are those of the flight extended by that missile. */
  lemma LoggedStep(hits0: seq<Hit>, defeats0: nat, hits: seq<Hit>, defeats: nat, hits': seq<Hit>, defeats': nat,
                   ends: seq<MissileView>, views: seq<seq<EnemyView>>, fates: seq<Fate>, v: MissileView,
                   vs': seq<EnemyView>, f: Fate)
    requires |ends| == |fates| && |views| == |fates| + 1
    requires hits == hits0 + FlightHits(ends, views, fates) && defeats == defeats0 + FlightDefeats(ends, views, fates)
    requires hits' == hits + FateHits(views[|fates|], f, v.damage)
    requires defeats' == defeats + FateDefeats(views[|fates|], f, v.damage)
    ensures hits' == hits0 + FlightHits(ends + [v], views + [vs'], fates + [f])
    ensures defeats' == defeats0 + FlightDefeats(ends + [v], views + [vs'], fates + [f])
  {
    LoggedExtend(ends, views, fates, v, vs', f);
  }

  /** A flight of missiles that each strike enemies in range reports exactly one hit per
      strike, and a boss defeat only with a hit. */
  lemma {:induction false} FlightHitsPerStrike(m: MathLib, dt: real, es: seq<Enemy>, starts: seq<MissileView>,
                                               ends: seq<MissileView>, spots: seq<(real, real)>, helds: seq<bool>,
                                               views: seq<seq<EnemyView>>, fates: seq<Fate>)
    requires m.Valid() && Flight(m, dt, es, starts, ends, spots, helds, views, fates)
    ensures |FlightHits(ends, views, fates)| == StruckCount(fates)
    ensures FlightDefeats(ends, views, fates) <= StruckCount(fates)
    decreases |fates|
  {
    if fates != [] {
      var n := |fates| - 1;
      FlightHitsPerStrike(m, dt, es, starts, ends[..n], spots[..n], helds[..n], views[..n + 1], fates[..n]);
      if fates[n].Struck? {
        FirstCollisionIsFirst(m, ends[n].x, ends[n].y, ends[n].radius, views[n]);
      }
    }
  }
}
