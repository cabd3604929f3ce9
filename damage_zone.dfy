/** The circular area attack shared by the aura weapon (src/game/AuraWeapon.ts) and the
    explosion (src/game/Explosion.ts): one pass over the enemy list that calls `takeDamage`
    on every enemy whose circle reaches into the zone's radius. */
module DamageZones {
  import opened Geometry
  import opened Events
  import opened Seqs
  import opened Enemies

  /** A zone around `(cx, cy)`. The explosion skips dead enemies (`aliveOnly`); the aura does
      not check. */
  datatype Zone = Zone(cx: real, cy: real, radius: real, aliveOnly: bool)

  /** `distance < radius + enemy.size / 2`, measured from the zone's centre, after the alive
      check when the zone has one. */
  predicate InZone(m: MathLib, z: Zone, v: EnemyView)
    requires m.Valid()
  {
    (!z.aliveOnly || Alive(v)) && m.Dist(z.cx - v.x, z.cy - v.y) < z.radius + v.size / 2.0
  }

  /** An enemy after the pass. */
  function Struck(m: MathLib, z: Zone, v: EnemyView, amount: real): EnemyView
    requires m.Valid()
  {
    if InZone(m, z, v) then Damaged(v, amount) else v
  }

  /** Every enemy of a list after the pass, in order. */
  function StruckAll(m: MathLib, z: Zone, vs: seq<EnemyView>, amount: real): (r: seq<EnemyView>)
    requires m.Valid()
    ensures |r| == |vs| && forall k :: 0 <= k < |vs| ==> r[k] == Struck(m, z, vs[k], amount)
  {
    seq(|vs|, k requires 0 <= k < |vs| => Struck(m, z, vs[k], amount))
  }

  /** The hit one enemy logs: one at its position when it is in the zone. */
  function HitOf(m: MathLib, z: Zone, v: EnemyView, amount: real): seq<Hit>
    requires m.Valid()
  {
    if InZone(m, z, v) then [Hit(v.x, v.y, amount)] else []
  }

  /** Whether striking one enemy reports a boss defeat. */
  function DefeatOf(m: MathLib, z: Zone, v: EnemyView, amount: real): nat
    requires m.Valid()
  {
    if InZone(m, z, v) && DefeatReported(v, amount) then 1 else 0
  }

  /** The hits the pass logs, in list order. */
  function ZoneHits(m: MathLib, z: Zone, vs: seq<EnemyView>, amount: real): seq<Hit>
    requires m.Valid()
  {
    if vs == [] then [] else ZoneHits(m, z, vs[..|vs| - 1], amount) + HitOf(m, z, vs[|vs| - 1], amount)
  }

  /** How many boss defeats the pass reports. */
  function ZoneDefeats(m: MathLib, z: Zone, vs: seq<EnemyView>, amount: real): nat
    requires m.Valid()
  {
    if vs == [] then 0 else ZoneDefeats(m, z, vs[..|vs| - 1], amount) + DefeatOf(m, z, vs[|vs| - 1], amount)
  }

  /** The pass logs exactly one hit of `amount` per enemy in the zone, at that enemy's
      position, and nothing else; it reports at most one defeat per enemy. */
  lemma {:induction false} ZoneHitsContent(m: MathLib, z: Zone, vs: seq<EnemyView>, amount: real)
    requires m.Valid()
    ensures |ZoneHits(m, z, vs, amount)| <= |vs|
    ensures ZoneDefeats(m, z, vs, amount) <= |vs|
    ensures forall h :: h in ZoneHits(m, z, vs, amount) ==> h.amount == amount
    ensures forall h :: h in ZoneHits(m, z, vs, amount) ==> exists i :: 0 <= i < |vs| && InZone(m, z, vs[i]) && h == Hit(vs[i].x, vs[i].y, amount)
    ensures forall i :: 0 <= i < |vs| && InZone(m, z, vs[i]) ==> Hit(vs[i].x, vs[i].y, amount) in ZoneHits(m, z, vs, amount)
  {
    if vs != [] {
      var init := vs[..|vs| - 1];
      ZoneHitsContent(m, z, init, amount);
      assert forall i :: 0 <= i < |init| ==> init[i] == vs[i];
    }
  }

  /** Each enemy is struck at most once; an enemy outside the zone, or a dead one in an
      alive-only zone, is left exactly as it was; an enemy inside ends with
      `max(0, health - amount)`. */
  lemma StruckEffect(m: MathLib, z: Zone, v: EnemyView, amount: real)
    requires m.Valid()
    ensures !InZone(m, z, v) ==> Struck(m, z, v, amount) == v
    ensures z.aliveOnly && !Alive(v) ==> Struck(m, z, v, amount) == v
    ensures InZone(m, z, v) ==> Struck(m, z, v, amount).health == (if v.health - amount < 0.0 then 0.0 else v.health - amount)
    ensures Struck(m, z, v, amount) == v.(health := Struck(m, z, v, amount).health, hitTimer := Struck(m, z, v, amount).hitTimer)
  {
  }

  /** The aura has no alive check: a dead enemy still in the list is hit again, and logs one
      more damage number, whenever it is in range. */
  lemma AuraHitsDeadEnemies(m: MathLib, z: Zone, v: EnemyView, amount: real)
    requires m.Valid() && !z.aliveOnly && !Alive(v) && m.Dist(z.cx - v.x, z.cy - v.y) < z.radius + v.size / 2.0
    ensures ZoneHits(m, z, [v], amount) == [Hit(v.x, v.y, amount)]
    ensures Struck(m, z, v, amount).hitTimer == 0.1
  {
    assert [v][..0] == [];
  }

  /** The pass over a longer prefix logs what the shorter one did, then the next enemy. */
  lemma ZoneStep(m: MathLib, z: Zone, vs: seq<EnemyView>, i: nat, amount: real)
    requires m.Valid() && i < |vs|
    ensures ZoneHits(m, z, vs[..i + 1], amount) == ZoneHits(m, z, vs[..i], amount) + HitOf(m, z, vs[i], amount)
    ensures ZoneDefeats(m, z, vs[..i + 1], amount) == ZoneDefeats(m, z, vs[..i], amount) + DefeatOf(m, z, vs[i], amount)
  {
    assert vs[..i + 1][..i] == vs[..i];
  }

  /** The pass over `enemies`: every enemy in the zone takes `amount` exactly once; the hits
      and boss defeats are logged in list order. */
  method DamageZone(m: MathLib, z: Zone, amount: real, enemies: seq<Enemy>, log: EventLog)
    requires m.Valid() && Distinct(enemies)
    modifies enemies, log`hits, log`bossDefeats
    ensures forall k :: 0 <= k < |enemies| ==> enemies[k].View() == Struck(m, z, old(enemies[k].View()), amount)
    ensures log.hits == old(log.hits) + ZoneHits(m, z, old(Views(enemies)), amount)
    ensures log.bossDefeats == old(log.bossDefeats) + ZoneDefeats(m, z, old(Views(enemies)), amount)
  {
    ghost var vs := Views(enemies);
    ghost var after := StruckAll(m, z, vs, amount);
    var i := 0;
    while i < |enemies|
      invariant 0 <= i <= |enemies|
      invariant forall k :: 0 <= k < i ==> enemies[k].View() == after[k]
      invariant forall k :: i <= k < |enemies| ==> enemies[k].View() == vs[k]
      invariant log.hits == old(log.hits) + ZoneHits(m, z, vs[..i], amount)
      invariant log.bossDefeats == old(log.bossDefeats) + ZoneDefeats(m, z, vs[..i], amount)
    {
      ZoneStep(m, z, vs, i, amount);
      StrikeOne(m, z, amount, enemies[i], log);
      AppendAssoc(old(log.hits), ZoneHits(m, z, vs[..i], amount), HitOf(m, z, vs[i], amount));
      i := i + 1;
    }
    assert vs[..|enemies|] == vs;
  }

  /** The body of the pass for one enemy. */
  method StrikeOne(m: MathLib, z: Zone, amount: real, enemy: Enemy, log: EventLog)
    requires m.Valid()
    modifies enemy, log`hits, log`bossDefeats
    ensures enemy.View() == Struck(m, z, old(enemy.View()), amount)
    ensures log.hits == old(log.hits) + HitOf(m, z, old(enemy.View()), amount)
    ensures log.bossDefeats == old(log.bossDefeats) + DefeatOf(m, z, old(enemy.View()), amount)
  {
    if !z.aliveOnly || enemy.IsAlive() {
      var dx := z.cx - enemy.x;
      var dy := z.cy - enemy.y;
      var distance := m.Dist(dx, dy);
      if distance < z.radius + enemy.size / 2.0 {
        enemy.TakeDamage(amount, log);
      }
    }
  }
}
