/** The per-frame orchestration of all entities (src/game/EntityManager.ts): spawning,
    the update of every list held in the game state, and `reset`.

    The callbacks the entities fire (`onTakeDamage`, `onAddBossAttackVisual`) land in the
    shared event log; the update turns the logged hits into damage numbers and the logged
    requests into attack visuals right before it updates and filters those two lists, which
    is where the game's own pushes would have put them, since nothing between the push and
    the filter reads either list. */
module EntityManagers {
  import opened Wrappers
  import opened Geometry
  import opened Seqs
  import opened Events
  import opened Collaborators
  import opened Enemies
  import opened ExperienceGems
  import opened MagnetPowerUps
  import opened DamageNumbers
  import opened BossAttackVisuals
  import opened Projectiles
  import opened GameStates
  import opened AuraWeapons
  import HomingMissiles
  import SpinningBlades
  import opened SpinningBladeWeapons
  import opened HomingMissileWeapons
  import opened LaserBeamWeapons
  import opened TimeSlowAbilities
  import Separation

  // ---------------------------------------------------------------------------------------
  // Camera culling (used only when drawing)

  /** The margin around the camera inside which entities count as visible. */
  const CameraBuffer: real := 50.0

  /** Two open intervals overlap. */
  predicate Overlaps(lo1: real, hi1: real, lo2: real, hi2: real) {
    lo1 < hi2 && lo2 < hi1
  }

  /** `isInCameraView(entity, cameraX, cameraY, canvasWidth, canvasHeight)`. */
  predicate InCameraView(x: real, y: real, size: real, camX: real, camY: real, width: real, height: real) {
    && x + size / 2.0 > camX - CameraBuffer
    && x - size / 2.0 < camX + width + CameraBuffer
    && y + size / 2.0 > camY - CameraBuffer
    && y - size / 2.0 < camY + height + CameraBuffer
  }

  /** The culling test is a strict overlap of the entity's box with the camera rectangle
      grown by the buffer on every side: an entity whose centre is on screen is drawn, and
      one whose box lies wholly beyond the buffer on some side is not. */
  lemma InCameraViewBoxes(x: real, y: real, size: real, camX: real, camY: real, width: real, height: real)
    ensures InCameraView(x, y, size, camX, camY, width, height) <==>
      && Overlaps(x - size / 2.0, x + size / 2.0, camX - CameraBuffer, camX + width + CameraBuffer)
      && Overlaps(y - size / 2.0, y + size / 2.0, camY - CameraBuffer, camY + height + CameraBuffer)
    ensures 0.0 <= size && camX <= x <= camX + width && camY <= y <= camY + height ==>
      InCameraView(x, y, size, camX, camY, width, height)
    ensures x + size / 2.0 <= camX - CameraBuffer || x - size / 2.0 >= camX + width + CameraBuffer ==>
      !InCameraView(x, y, size, camX, camY, width, height)
  {
  }

  // ---------------------------------------------------------------------------------------
  // Enemy updates and contact damage

  /** What one touching enemy does to the player in one update, whatever the frame time. */
  const ContactDamage: real := 5.0

  /** The player's collision test against an enemy. */
  predicate Touches(m: MathLib, v: EnemyView, px: real, py: real, psize: real)
    requires m.Valid()
  {
    CirclesOverlap(m, px, py, psize / 2.0, v.x, v.y, v.size / 2.0)
  }

  /** The enemies after the update loop, the visuals they requested and every damage the
      player took, in call order. */
  datatype EnemyPass = EnemyPass(views: seq<EnemyView>, visuals: seq<VisualRequest>, damage: seq<real>)

  /** The update loop over `vs`: each enemy updates, then touches the player or not. */
  function EnemyPhase(m: MathLib, vs: seq<EnemyView>, dt: real, px: real, py: real, psize: real): (r: EnemyPass)
    requires m.Valid()
    ensures |r.views| == |vs|
  {
    if vs == [] then EnemyPass([], [], [])
    else
      var r0 := EnemyPhase(m, vs[..|vs| - 1], dt, px, py, psize);
      var o := Updated(m, vs[|vs| - 1], dt, px, py, psize);
      EnemyPass(r0.views + [o.enemy], r0.visuals + o.visuals,
                r0.damage + o.playerDamage + if Touches(m, o.enemy, px, py, psize) then [ContactDamage] else [])
  }

  /** Which updated enemies touch the player. */
  function Touching(m: MathLib, vs: seq<EnemyView>, px: real, py: real, psize: real): (r: seq<bool>)
    requires m.Valid()
    ensures |r| == |vs| && forall i :: 0 <= i < |vs| ==> (r[i] <==> Touches(m, vs[i], px, py, psize))
  {
    seq(|vs|, i requires 0 <= i < |vs| => Touches(m, vs[i], px, py, psize))
  }

  predicate NoBoss(vs: seq<EnemyView>) {
    forall i :: 0 <= i < |vs| ==> !vs[i].kind.BossKind?
  }

  /** Each enemy updates into the enemy `Updated` gives, independently of the others. */
  lemma {:induction false} EnemyPhaseViews(m: MathLib, vs: seq<EnemyView>, dt: real, px: real, py: real, psize: real)
    requires m.Valid()
    ensures var r := EnemyPhase(m, vs, dt, px, py, psize);
      forall i :: 0 <= i < |vs| ==> r.views[i] == Updated(m, vs[i], dt, px, py, psize).enemy
  {
    if vs != [] {
      var n := |vs| - 1;
      EnemyPhaseViews(m, vs[..n], dt, px, py, psize);
      assert forall i :: 0 <= i < n ==> vs[..n][i] == vs[i];
    }
  }

  /** The last enemy of a list without a boss requests no visual and deals no damage of
      its own. */
  lemma EnemyPhaseSnoc(m: MathLib, vs: seq<EnemyView>, dt: real, px: real, py: real, psize: real)
    requires m.Valid() && vs != [] && !vs[|vs| - 1].kind.BossKind?
    ensures var r0 := EnemyPhase(m, vs[..|vs| - 1], dt, px, py, psize);
      var o := Updated(m, vs[|vs| - 1], dt, px, py, psize);
      var t := Touches(m, o.enemy, px, py, psize);
      EnemyPhase(m, vs, dt, px, py, psize) ==
        EnemyPass(r0.views + [o.enemy], r0.visuals, r0.damage + if t then [ContactDamage] else [])
  {
  }

  /** Without a boss in the list, nothing requests a visual and every hit the player takes
      is the flat contact damage of 5. */
  lemma {:induction false} EnemyPhaseQuiet(m: MathLib, vs: seq<EnemyView>, dt: real, px: real, py: real, psize: real)
    requires m.Valid() && NoBoss(vs)
    ensures var r := EnemyPhase(m, vs, dt, px, py, psize);
      && r.visuals == []
      && forall k :: 0 <= k < |r.damage| ==> r.damage[k] == ContactDamage
  {
    if vs != [] {
      var n := |vs| - 1;
      assert NoBoss(vs[..n]) by {
        assert forall i :: 0 <= i < n ==> vs[..n][i] == vs[i];
      }
      EnemyPhaseQuiet(m, vs[..n], dt, px, py, psize);
      EnemyPhaseSnoc(m, vs, dt, px, py, psize);
    }
  }

  /** Without a boss in the list, the player takes exactly one hit per enemy touching it
      after its move. */
  lemma {:induction false} EnemyPhaseContact(m: MathLib, vs: seq<EnemyView>, dt: real, px: real, py: real, psize: real)
    requires m.Valid() && NoBoss(vs)
    ensures var r := EnemyPhase(m, vs, dt, px, py, psize);
      |r.damage| == Count(Touching(m, r.views, px, py, psize))
  {
    if vs != [] {
      var n := |vs| - 1;
      var r0 := EnemyPhase(m, vs[..n], dt, px, py, psize);
      var o := Updated(m, vs[n], dt, px, py, psize);
      var t := Touches(m, o.enemy, px, py, psize);
      assert NoBoss(vs[..n]) by {
        assert forall i :: 0 <= i < n ==> vs[..n][i] == vs[i];
      }
      EnemyPhaseContact(m, vs[..n], dt, px, py, psize);
      EnemyPhaseSnoc(m, vs, dt, px, py, psize);
      TouchingSnoc(m, r0.views, o.enemy, px, py, psize);
      KeepSnoc(r0.views, Touching(m, r0.views, px, py, psize), o.enemy, t);
    }
  }

  lemma TouchingSnoc(m: MathLib, vs: seq<EnemyView>, v: EnemyView, px: real, py: real, psize: real)
    requires m.Valid()
    ensures Touching(m, vs + [v], px, py, psize) == Touching(m, vs, px, py, psize) + [Touches(m, v, px, py, psize)]
  {
  }

  // ---------------------------------------------------------------------------------------
  // Defeated enemies and their drops

  /** Every defeated enemy leaves a gem worth 10. */
  const DropValue: int := 10
  /** A defeated enemy also drops a magnet when its draw is below this. */
  const MagnetChance: real := 0.1

  /** Which enemies' liveness is `living`: the flags of one of the two filters over the
      enemy list. */
  function LifeIs(vs: seq<EnemyView>, living: bool): (r: seq<bool>)
    ensures |r| == |vs| && forall i :: 0 <= i < |vs| ==> (r[i] <==> (Alive(vs[i]) == living))
  {
    seq(|vs|, i requires 0 <= i < |vs| => Alive(vs[i]) == living)
  }

  /** The defeated enemies, in list order. */
  function Defeated(vs: seq<EnemyView>): seq<EnemyView> {
    Keep(vs, LifeIs(vs, false))
  }

  function GoldDrops(vs: seq<EnemyView>): (r: seq<int>)
    ensures |r| == |vs| && forall i :: 0 <= i < |vs| ==> r[i] == vs[i].goldDrop
  {
    seq(|vs|, i requires 0 <= i < |vs| => vs[i].goldDrop)
  }

  /** Which of the defeated enemies drop a magnet: the `k`-th draw belongs to the `k`-th
      defeated enemy. */
  function Lucky(n: nat, draw: int -> real): (r: seq<bool>)
    ensures |r| == n && forall k :: 0 <= k < n ==> (r[k] <==> draw(k) < MagnetChance)
  {
    seq(n, k requires 0 <= k < n => draw(k) < MagnetChance)
  }

  /** Every enemy is alive or defeated, never both: the survivors and the defeated together
      are as many as the list, the survivors are exactly the living enemies, and the gold
      handed out is the sum of the defeated enemies' drops. */
  lemma {:induction false} DefeatedSplit(vs: seq<EnemyView>)
    ensures |Keep(vs, LifeIs(vs, true))| + |Defeated(vs)| == |vs|
    ensures forall v :: v in Keep(vs, LifeIs(vs, true)) <==> v in vs && Alive(v)
    ensures forall v :: v in Defeated(vs) <==> v in vs && !Alive(v)
    ensures IntSum(Keep(GoldDrops(vs), LifeIs(vs, false))) == IntSum(GoldDrops(Defeated(vs)))
  {
    CountSplit(LifeIs(vs, true));
    assert Not(LifeIs(vs, true)) == LifeIs(vs, false);
    forall v ensures v in Keep(vs, LifeIs(vs, true)) <==> v in vs && Alive(v) {
      KeepMember(vs, LifeIs(vs, true), v);
    }
    forall v ensures v in Defeated(vs) <==> v in vs && !Alive(v) {
      KeepMember(vs, LifeIs(vs, false), v);
    }
    KeepMap(vs, LifeIs(vs, false));
  }

  /** Set and unset flags together make up the whole list. */
  lemma {:induction false} CountSplit(keep: seq<bool>)
    ensures Count(keep) + Count(Not(keep)) == |keep|
  {
    if keep != [] {
      var n := |keep| - 1;
      CountSplit(keep[..n]);
      assert Not(keep)[..n] == Not(keep[..n]);
    }
  }

  /** Filtering commutes with reading off the gold drops. */
  lemma {:induction false} KeepMap(vs: seq<EnemyView>, keep: seq<bool>)
    requires |keep| == |vs|
    ensures Keep(GoldDrops(vs), keep) == GoldDrops(Keep(vs, keep))
  {
    if vs != [] {
      var n := |vs| - 1;
      KeepMap(vs[..n], keep[..n]);
      assert GoldDrops(vs)[..n] == GoldDrops(vs[..n]);
      var tail := if keep[n] then [vs[n]] else [];
      assert GoldDrops(Keep(vs[..n], keep[..n]) + tail) == GoldDrops(Keep(vs[..n], keep[..n])) + GoldDrops(tail);
    }
  }

  /** Filtering the enemies filters their views alike. */
  lemma {:induction false} KeepViews(es: seq<Enemy>, keep: seq<bool>)
    requires |keep| == |es|
    ensures Views(Keep(es, keep)) == Keep(Views(es), keep)
  {
    if es != [] {
      var n := |es| - 1;
      var init := Keep(es[..n], keep[..n]);
      var tail := if keep[n] then [es[n]] else [];
      KeepViews(es[..n], keep[..n]);
      assert Keep(es, keep) == init + tail;
      ViewsAppend(init, tail);
      assert Views(es[..n]) == Views(es)[..n];
      assert Keep(Views(es), keep) == Keep(Views(es)[..n], keep[..n]) + if keep[n] then [Views(es)[n]] else [];
    }
  }

  /** Reading off the views commutes with concatenation. */
  lemma ViewsAppend(a: seq<Enemy>, b: seq<Enemy>)
    ensures Views(a + b) == Views(a) + Views(b)
  {
  }

  /** Enemies whose views are, one by one, those of `ws` have `ws` as their views. */
  lemma ViewsPointwise(es: seq<Enemy>, ws: seq<EnemyView>)
    requires |es| == |ws| && forall k :: 0 <= k < |es| ==> es[k].View() == ws[k]
    ensures Views(es) == ws
  {
    assert forall k :: 0 <= k < |es| ==> Views(es)[k] == ws[k];
  }

  /** The gem list `gs` continues `g0` with one gem worth 10 at each position of `ds`. */
  ghost predicate GemsFor(gs: seq<ExperienceGem>, g0: seq<ExperienceGem>, ds: seq<EnemyView>)
    reads gs
  {
    && |gs| == |g0| + |ds| && gs[..|g0|] == g0
    && forall k :: 0 <= k < |ds| ==>
         gs[|g0| + k].x == ds[k].x && gs[|g0| + k].y == ds[k].y && gs[|g0| + k].value == DropValue
  }

  lemma GemsForSnoc(gs: seq<ExperienceGem>, g0: seq<ExperienceGem>, ds: seq<EnemyView>, g: ExperienceGem, v: EnemyView)
    requires GemsFor(gs, g0, ds) && g.x == v.x && g.y == v.y && g.value == DropValue
    ensures GemsFor(gs + [g], g0, ds + [v])
  {
    assert (gs + [g])[..|g0|] == gs[..|g0|];
    forall k | 0 <= k < |ds| + 1
      ensures (gs + [g])[|g0| + k].x == (ds + [v])[k].x && (gs + [g])[|g0| + k].y == (ds + [v])[k].y
      ensures (gs + [g])[|g0| + k].value == DropValue
    {
      if k < |ds| {
        assert (gs + [g])[|g0| + k] == gs[|g0| + k] && (ds + [v])[k] == ds[k];
      }
    }
  }

  /** The pickup list `ms` continues `m0` with one default magnet at each position of `ds`. */
  ghost predicate MagnetsFor(ms: seq<MagnetPowerUp>, m0: seq<MagnetPowerUp>, ds: seq<EnemyView>)
  {
    && |ms| == |m0| + |ds| && ms[..|m0|] == m0
    && forall k :: 0 <= k < |ds| ==>
         && ms[|m0| + k].x == ds[k].x && ms[|m0| + k].y == ds[k].y
         && ms[|m0| + k].duration == MagnetPowerUps.DefaultDuration && ms[|m0| + k].radius == MagnetPowerUps.DefaultRadius
  }

  lemma MagnetsForSnoc(ms: seq<MagnetPowerUp>, m0: seq<MagnetPowerUp>, ds: seq<EnemyView>, p: MagnetPowerUp, v: EnemyView)
    requires MagnetsFor(ms, m0, ds) && p.x == v.x && p.y == v.y
    requires p.duration == MagnetPowerUps.DefaultDuration && p.radius == MagnetPowerUps.DefaultRadius
    ensures MagnetsFor(ms + [p], m0, ds + [v])
  {
    assert (ms + [p])[..|m0|] == ms[..|m0|];
    forall k | 0 <= k < |ds| + 1
      ensures (ms + [p])[|m0| + k].x == (ds + [v])[k].x && (ms + [p])[|m0| + k].y == (ds + [v])[k].y
      ensures (ms + [p])[|m0| + k].duration == MagnetPowerUps.DefaultDuration
      ensures (ms + [p])[|m0| + k].radius == MagnetPowerUps.DefaultRadius
    {
      if k < |ds| {
        assert (ms + [p])[|m0| + k] == ms[|m0| + k] && (ds + [v])[k] == ds[k];
      }
    }
  }

  /** The damage-number list `ns` continues `n0` with one white number of the default
      lifetime, not yet aged, per hit of `hs`, at the hit's position and showing its amount. */
  ghost predicate NumbersFor(ns: seq<DamageNumber>, n0: seq<DamageNumber>, hs: seq<Hit>)
    reads ns
  {
    && |ns| == |n0| + |hs| && ns[..|n0|] == n0
    && forall k :: 0 <= k < |hs| ==>
         && ns[|n0| + k].x == hs[k].x && ns[|n0| + k].y == hs[k].y && ns[|n0| + k].value == hs[k].amount
         && ns[|n0| + k].color == DamageNumbers.DefaultColor && ns[|n0| + k].lifetime == DamageNumbers.DefaultLifetime
         && ns[|n0| + k].currentLifetime == 0.0
  }

  lemma NumbersForSnoc(ns: seq<DamageNumber>, n0: seq<DamageNumber>, hs: seq<Hit>, d: DamageNumber, h: Hit)
    requires NumbersFor(ns, n0, hs) && d.x == h.x && d.y == h.y && d.value == h.amount
    requires d.color == DamageNumbers.DefaultColor && d.lifetime == DamageNumbers.DefaultLifetime && d.currentLifetime == 0.0
    ensures NumbersFor(ns + [d], n0, hs + [h])
  {
    assert (ns + [d])[..|n0|] == ns[..|n0|];
    forall k | 0 <= k < |hs| + 1
      ensures var e := (ns + [d])[|n0| + k];
        && e.x == (hs + [h])[k].x && e.y == (hs + [h])[k].y && e.value == (hs + [h])[k].amount
        && e.color == DamageNumbers.DefaultColor && e.lifetime == DamageNumbers.DefaultLifetime && e.currentLifetime == 0.0
    {
      if k < |hs| {
        assert (ns + [d])[|n0| + k] == ns[|n0| + k] && (hs + [h])[k] == hs[k];
      }
    }
  }

  /** The visual list `vs` continues `v0` with one visual per request of `qs`, at the
      requested position, radius, duration and colour, not yet aged. */
  ghost predicate VisualsFor(vs: seq<BossAttackVisual>, v0: seq<BossAttackVisual>, qs: seq<VisualRequest>)
    reads vs
  {
    && |vs| == |v0| + |qs| && vs[..|v0|] == v0
    && forall k :: 0 <= k < |qs| ==>
         && vs[|v0| + k].x == qs[k].x && vs[|v0| + k].y == qs[k].y && vs[|v0| + k].radius == qs[k].radius
         && vs[|v0| + k].duration == qs[k].duration && vs[|v0| + k].color == qs[k].color
         && vs[|v0| + k].currentDuration == 0.0
  }

  lemma VisualsForSnoc(vs: seq<BossAttackVisual>, v0: seq<BossAttackVisual>, qs: seq<VisualRequest>,
                       v: BossAttackVisual, q: VisualRequest)
    requires VisualsFor(vs, v0, qs) && v.x == q.x && v.y == q.y && v.radius == q.radius
    requires v.duration == q.duration && v.color == q.color && v.currentDuration == 0.0
    ensures VisualsFor(vs + [v], v0, qs + [q])
  {
    assert (vs + [v])[..|v0|] == vs[..|v0|];
    forall k | 0 <= k < |qs| + 1
      ensures var e := (vs + [v])[|v0| + k];
        && e.x == (qs + [q])[k].x && e.y == (qs + [q])[k].y && e.radius == (qs + [q])[k].radius
        && e.duration == (qs + [q])[k].duration && e.color == (qs + [q])[k].color && e.currentDuration == 0.0
    {
      if k < |qs| {
        assert (vs + [v])[|v0| + k] == vs[|v0| + k] && (qs + [q])[k] == qs[k];
      }
    }
  }

  // ---------------------------------------------------------------------------------------
  // Boss projectiles

  /** Each boss projectile's damage, by position in the list. */
  function ProjectileDamages(ps: seq<Projectile>): (r: seq<real>)
    ensures |r| == |ps| && forall k :: 0 <= k < |ps| ==> r[k] == ps[k].damage
  {
    seq(|ps|, k requires 0 <= k < |ps| => ps[k].damage)
  }

  /** A projectile stays when it is still alive and has not hit the player. */
  function Spared(alive: seq<bool>, hit: seq<bool>): (r: seq<bool>)
    requires |alive| == |hit|
    ensures |r| == |alive| && forall k :: 0 <= k < |alive| ==> (r[k] <==> alive[k] && !hit[k])
  {
    seq(|alive|, k requires 0 <= k < |alive| => alive[k] && !hit[k])
  }

  /** Only a live projectile can hit, so every projectile has exactly one fate: it stays,
      it hits the player, or it ran out of lifetime. */
  lemma {:induction false} ProjectileFates(alive: seq<bool>, hit: seq<bool>)
    requires |alive| == |hit| && forall k :: 0 <= k < |hit| ==> hit[k] ==> alive[k]
    ensures Count(Spared(alive, hit)) + Count(hit) + Count(Not(alive)) == |alive|
  {
    if alive != [] {
      var n := |alive| - 1;
      ProjectileFates(alive[..n], hit[..n]);
      assert Spared(alive, hit)[..n] == Spared(alive[..n], hit[..n]);
      assert Not(alive)[..n] == Not(alive[..n]);
    }
  }

  // ---------------------------------------------------------------------------------------
  // The magnet effect

  /** The magnet countdown: a running effect loses `dt` and switches its radius off once
      the time is used up; a finished effect stays as it is. */
  function MagnetTick(radius: real, duration: real, dt: real): (r: (real, real))
    ensures duration <= 0.0 ==> r == (radius, duration)
    ensures 0.0 < duration ==> r.1 == duration - dt
    ensures 0.0 < duration ==> r.0 == if duration - dt <= 0.0 then 0.0 else radius
  {
    if duration > 0.0 then
      var d := duration - dt;
      (if d <= 0.0 then 0.0 else radius, d)
    else (radius, duration)
  }

  /** The pull radius is the larger of the player's own and the collected effect's. */
  function EffectiveRadius(base: real, active: real): (r: real)
    ensures r >= base && r >= active && (r == base || r == active)
  {
    Max(base, active)
  }

  /** Once the countdown has run out the effect radius is 0, so only the player's own
      radius pulls. */
  lemma MagnetExpired(radius: real, duration: real, dt: real, base: real)
    requires 0.0 < duration <= dt && 0.0 <= base
    ensures MagnetTick(radius, duration, dt).0 == 0.0
    ensures EffectiveRadius(base, MagnetTick(radius, duration, dt).0) == base
  {
  }

  /** Where a gem ends up before the collection test: pulled when the effect is on and the
      gem is strictly inside the radius, left alone otherwise. */
  function GemMoved(m: MathLib, gx: real, gy: real, px: real, py: real, radius: real, dt: real): (r: (real, real))
    requires m.Valid()
    ensures !(0.0 < radius && m.Dist(px - gx, py - gy) < radius) ==> r == (gx, gy)
    ensures 0.0 < radius && m.Dist(px - gx, py - gy) < radius ==> r == Pulled(m, gx, gy, px, py, dt)
  {
    if radius > 0.0 && m.Dist(px - gx, py - gy) < radius then Pulled(m, gx, gy, px, py, dt) else (gx, gy)
  }

  /** `GemMoved` applied to every position of `ps`. */
  function AllMoved(m: MathLib, ps: seq<(real, real)>, px: real, py: real, radius: real, dt: real): (r: seq<(real, real)>)
    requires m.Valid()
    ensures |r| == |ps| && forall k :: 0 <= k < |ps| ==> r[k] == GemMoved(m, ps[k].0, ps[k].1, px, py, radius, dt)
  {
    seq(|ps|, k requires 0 <= k < |ps| => GemMoved(m, ps[k].0, ps[k].1, px, py, radius, dt))
  }

  /** The magnet effect after a pass over the pickups `taken` flags: every pickup taken
      overwrites the effect, so the last one taken wins. */
  function LastPickup(radius: real, duration: real, radii: seq<real>, durations: seq<real>, taken: seq<bool>): (r: (real, real))
    requires |radii| == |durations| == |taken|
  {
    if taken == [] then (radius, duration)
    else
      var n := |taken| - 1;
      if taken[n] then (radii[n], durations[n]) else LastPickup(radius, duration, radii[..n], durations[..n], taken[..n])
  }

  /** Picking up overwrites rather than stacks: with no pickup taken the effect is
      untouched, and otherwise it is exactly the values of the last pickup taken, whatever
      the effect was before. */
  lemma {:induction false} LastPickupOverwrites(radius: real, duration: real, radii: seq<real>, durations: seq<real>, taken: seq<bool>)
    requires |radii| == |durations| == |taken|
    ensures Count(taken) == 0 ==> LastPickup(radius, duration, radii, durations, taken) == (radius, duration)
    ensures Count(taken) > 0 ==>
      exists j :: (&& 0 <= j < |taken| && taken[j]
                   && (forall k :: j < k < |taken| ==> !taken[k])
                   && LastPickup(radius, duration, radii, durations, taken) == (radii[j], durations[j]))
    ensures forall r', d' :: Count(taken) > 0 ==>
      LastPickup(r', d', radii, durations, taken) == LastPickup(radius, duration, radii, durations, taken)
  {
    if taken != [] {
      var n := |taken| - 1;
      LastPickupOverwrites(radius, duration, radii[..n], durations[..n], taken[..n]);
      if !taken[n] && Count(taken) > 0 {
        var j :| 0 <= j < n && taken[..n][j] && (forall k :: j < k < n ==> !taken[..n][k]) &&
          LastPickup(radius, duration, radii[..n], durations[..n], taken[..n]) == (radii[..n][j], durations[..n][j]);
        assert taken[j] && forall k :: j < k < |taken| ==> !taken[k];
      }
    }
  }

  /** One more pickup in the pass: a taken one overwrites the effect, a missed one leaves
      it as it was. */
  lemma LastPickupStep(radius: real, duration: real, radii: seq<real>, durations: seq<real>, taken: seq<bool>,
                       i: nat, t: bool)
    requires i < |radii| == |durations| && |taken| == i
    ensures LastPickup(radius, duration, radii[..i + 1], durations[..i + 1], taken + [t]) ==
      if t then (radii[i], durations[i]) else LastPickup(radius, duration, radii[..i], durations[..i], taken)
  {
    assert radii[..i + 1][..i] == radii[..i];
    assert durations[..i + 1][..i] == durations[..i];
    assert (taken + [t])[..i] == taken;
  }

  // ---------------------------------------------------------------------------------------
  // The manager

  /** The enemy kinds a spawn can ask for. */
  datatype EnemyType = Normal | Fast | Tanky | Shooter

  /** What `spawnEnemy` builds: a cyan shooting enemy when a shooter comes with projectile
      parameters, a red regular enemy otherwise. */
  function SpawnedView(x: real, y: real, t: EnemyType, size: real, speed: real, health: real, goldDrop: int,
                       stats: Option<ProjectileStats>): (v: EnemyView)
    ensures Alive(v) <==> 0.0 < health
    ensures v.kind.ShooterKind? <==> t == Shooter && stats.Some?
    ensures v.kind.ShooterKind? ==> v.kind.projectile == stats.value && v.color == "cyan"
    ensures !v.kind.BossKind? && v.goldDrop == goldDrop && v.health == v.maxHealth == health
    ensures !v.kind.ShooterKind? ==> v.kind == RegularKind && v.color == "red"
  {
    if t == Shooter && stats.Some? then
      EnemyView(x, y, size, speed, "cyan", health, health, 0.0, goldDrop, ShooterKind(stats.value), 0, 0.0, 0.0, false)
    else
      EnemyView(x, y, size, speed, "red", health, health, 0.0, goldDrop, RegularKind, 0, 0.0, 0.0, false)
  }

  /** The boss `spawnBoss` builds: red, with the default thresholds (already in descending
      order) and cooldown, reporting its defeat. */
  function BossView(x: real, y: real, size: real, speed: real, health: real, goldDrop: int, bossName: string): (v: EnemyView)
    ensures Alive(v) <==> 0.0 < health
    ensures v.kind == BossKind(bossName, Bosses.DefaultThresholds) && v.reportsDefeat && v.phase == 0
    ensures v.goldDrop == goldDrop && v.health == v.maxHealth == health && v.color == "red"
  {
    EnemyView(x, y, size, speed, "red", health, health, 0.0, goldDrop, BossKind(bossName, Bosses.DefaultThresholds),
              0, Bosses.DefaultAttackCooldown, Bosses.DefaultAttackCooldown, true)
  }

  class EntityManager {
    const gameState: GameState
    /** Where the callbacks handed to the spawned enemies report. */
    const log: EventLog

    constructor (gameState: GameState, log: EventLog)
      ensures this.gameState == gameState && this.log == log
    {
      this.gameState := gameState;
      this.log := log;
    }

    /** The blade and missile weapons, whose own invariants the manager keeps. */
    ghost function BladeSlot(): set<SpinningBladeWeapon>
      reads gameState
    {
      if gameState.spinningBladeWeapon.Some? then {gameState.spinningBladeWeapon.value} else {}
    }

    ghost function MissileSlot(): set<HomingMissileWeapon>
      reads gameState
    {
      if gameState.homingMissileWeapon.Some? then {gameState.homingMissileWeapon.value} else {}
    }

    /** Every list holds each object once and no damage number has a zero lifetime. */
    ghost predicate Valid()
      reads this, gameState
    {
      && Distinct(gameState.enemies) && Distinct(gameState.experienceGems)
      && Distinct(gameState.magnetPowerUps) && Distinct(gameState.damageNumbers)
      && Distinct(gameState.activeBossAttackVisuals) && Distinct(gameState.bossProjectiles)
      && (forall d :: d in gameState.damageNumbers ==> d.lifetime != 0.0)
    }

    /** The blade and missile weapons keep their own invariants. */
    ghost predicate Armed()
      reads this, gameState, BladeSlot(), MissileSlot()
    {
      && (gameState.spinningBladeWeapon.Some? ==> gameState.spinningBladeWeapon.value.Valid())
      && (gameState.homingMissileWeapon.Some? ==> gameState.homingMissileWeapon.value.Valid())
    }

    /** `spawnEnemy(x, y, type, size, speed, health, goldDrop, projectileStats)`. */
    method SpawnEnemy(x: real, y: real, t: EnemyType, size: real, speed: real, health: real, goldDrop: int,
                      stats: Option<ProjectileStats>)
      requires Valid()
      modifies gameState`enemies
      ensures Valid()
      ensures |gameState.enemies| == |old(gameState.enemies)| + 1
      ensures gameState.enemies[..|old(gameState.enemies)|] == old(gameState.enemies)
      ensures fresh(gameState.enemies[|old(gameState.enemies)|])
      ensures gameState.enemies[|old(gameState.enemies)|].View() == SpawnedView(x, y, t, size, speed, health, goldDrop, stats)
    {
      var e;
      if t == Shooter && stats.Some? {
        e := new Enemy.Shooter(x, y, size, speed, "cyan", health, goldDrop, stats.value);
      } else {
        e := new Enemy(x, y, size, speed, "red", health, Some(goldDrop));
      }
      gameState.enemies := gameState.enemies + [e];
    }

    /** `spawnBoss(x, y, size, speed, health, goldDrop, bossName, onBossDefeat)`: the boss,
        red and with the default thresholds and cooldown, joins the enemies and becomes the
        current boss; its defeat is reported. */
    method SpawnBoss(x: real, y: real, size: real, speed: real, health: real, goldDrop: int, bossName: string)
      requires Valid()
      modifies gameState`enemies, gameState`currentBoss
      ensures Valid()
      ensures gameState.currentBoss.Some? && fresh(gameState.currentBoss.value)
      ensures gameState.enemies == old(gameState.enemies) + [gameState.currentBoss.value]
      ensures gameState.currentBoss.value.View() == BossView(x, y, size, speed, health, goldDrop, bossName)
    {
      var boss := NewBoss(x, y, size, speed, health, goldDrop, bossName);
      gameState.currentBoss := Some(boss);
      gameState.enemies := gameState.enemies + [boss];
    }

    /** The new boss with its defeat callback installed. */
    static method NewBoss(x: real, y: real, size: real, speed: real, health: real, goldDrop: int, bossName: string)
      returns (boss: Enemy)
      ensures fresh(boss) && boss.View() == BossView(x, y, size, speed, health, goldDrop, bossName)
    {
      boss := new Enemy.Boss(x, y, size, speed, "red", health, goldDrop, Some(bossName), None, None);
      boss.SetOnDefeatCallback();
      Bosses.DefaultThresholdsSorted();
    }

    /** `spawnExperienceGem(x, y, value)`. */
    method SpawnExperienceGem(x: real, y: real, value: int)
      requires Valid()
      modifies gameState`experienceGems
      ensures Valid()
      ensures |gameState.experienceGems| == |old(gameState.experienceGems)| + 1
      ensures gameState.experienceGems[..|old(gameState.experienceGems)|] == old(gameState.experienceGems)
      ensures var g := gameState.experienceGems[|old(gameState.experienceGems)|];
        fresh(g) && g.x == x && g.y == y && g.value == value
    {
      var g := new ExperienceGem(x, y, value);
      gameState.experienceGems := gameState.experienceGems + [g];
    }

    /** `spawnMagnetPowerUp(x, y)`: a pickup with the default duration and radius. */
    method SpawnMagnetPowerUp(x: real, y: real)
      requires Valid()
      modifies gameState`magnetPowerUps
      ensures Valid()
      ensures |gameState.magnetPowerUps| == |old(gameState.magnetPowerUps)| + 1
      ensures gameState.magnetPowerUps[..|old(gameState.magnetPowerUps)|] == old(gameState.magnetPowerUps)
      ensures var p := gameState.magnetPowerUps[|old(gameState.magnetPowerUps)|];
        fresh(p) && p.x == x && p.y == y && p.duration == MagnetPowerUps.DefaultDuration && p.radius == MagnetPowerUps.DefaultRadius
    {
      var p := new MagnetPowerUp(x, y, MagnetPowerUps.DefaultDuration, MagnetPowerUps.DefaultRadius);
      gameState.magnetPowerUps := gameState.magnetPowerUps + [p];
    }

    /** `addDamageNumber(x, y, value, color)`: a number with the default lifetime and drift. */
    method AddDamageNumber(x: real, y: real, value: real, color: string)
      requires Valid()
      modifies gameState`damageNumbers
      ensures Valid()
      ensures |gameState.damageNumbers| == |old(gameState.damageNumbers)| + 1
      ensures gameState.damageNumbers[..|old(gameState.damageNumbers)|] == old(gameState.damageNumbers)
      ensures var d := gameState.damageNumbers[|old(gameState.damageNumbers)|];
        && fresh(d) && d.x == x && d.y == y && d.value == value && d.color == color
        && d.lifetime == DamageNumbers.DefaultLifetime && d.currentLifetime == 0.0
    {
      var d := new DamageNumber(x, y, value, color, DamageNumbers.DefaultLifetime, DamageNumbers.DefaultVelocityY);
      gameState.damageNumbers := gameState.damageNumbers + [d];
    }

    /** `addBossAttackVisual(visual)`. */
    method AddBossAttackVisual(visual: BossAttackVisual)
      modifies gameState`activeBossAttackVisuals
      ensures gameState.activeBossAttackVisuals == old(gameState.activeBossAttackVisuals) + [visual]
    {
      gameState.activeBossAttackVisuals := gameState.activeBossAttackVisuals + [visual];
    }

    /** `addBossProjectile(projectile)`; no boss of this revision fires one. */
    method AddBossProjectile(projectile: Projectile)
      modifies gameState`bossProjectiles
      ensures gameState.bossProjectiles == old(gameState.bossProjectiles) + [projectile]
    {
      gameState.bossProjectiles := gameState.bossProjectiles + [projectile];
    }

    /** `update(dt, player, ...)`: one frame of the simulation, phase by phase in the game's
        order; each phase's own contract states what it does. The separation forces are
        computed and, as in the game, used by no enemy; `angle(i, j)` stands for the random
        angle of a coincident pair, `draw(k)` for the magnet draw of the `k`-th defeated
        enemy and `now` for the clock the blades read. */
    method Update(m: MathLib, dt: real, player: Player, angle: (int, int) -> real, draw: int -> real, now: real)
      requires m.Valid() && Valid() && Armed()
      modifies gameState`enemies, gameState`experienceGems, gameState`magnetPowerUps, gameState`damageNumbers
      modifies gameState`activeBossAttackVisuals, gameState`bossProjectiles
      modifies gameState`activeMagnetRadius, gameState`activeMagnetDuration
      modifies gameState.enemies, gameState.experienceGems, gameState.magnetPowerUps, gameState.damageNumbers
      modifies gameState.activeBossAttackVisuals, gameState.bossProjectiles
      modifies MissileSlot(), Missiles(), LaserSlot(), LaserTarget(), AuraSlot(), BladeSlot(), Blades(), SlowSlot()
      modifies log`hits, log`visuals, log`bossDefeats, player`damageTaken, player`goldGained, player`experienceGained
      ensures Valid() && Armed()
    {
      UpdateMovers(m, dt, player, angle, now);
      UpdateEffects(dt);
      BossShots(m, dt, player);
      UpdatePickups(m, dt, player, draw);
    }

    /** The enemies, then the weapons and abilities, then the magnet pickups' own clocks;
        `ExperienceGem` has no `update` of its own in this revision, so the gem loop between
        them does nothing. */
    method UpdateMovers(m: MathLib, dt: real, player: Player, angle: (int, int) -> real, now: real)
      requires m.Valid() && Valid() && Armed()
      modifies gameState.enemies, gameState.magnetPowerUps
      modifies MissileSlot(), Missiles(), LaserSlot(), LaserTarget(), AuraSlot(), BladeSlot(), Blades(), SlowSlot()
      modifies log`hits, log`visuals, log`bossDefeats, player`damageTaken
      ensures Valid() && Armed()
    {
      var forces := Separation.SeparationForces(m, gameState.enemies, angle);
      MoveEnemies(m, dt, player);
      UpdateWeapons(m, dt, player, now);
      TickPickups(dt);
    }

    /** `UpdateEnemies`, seen only as keeping the lists valid. */
    method MoveEnemies(m: MathLib, dt: real, player: Player)
      requires m.Valid() && Valid()
      modifies gameState.enemies, log`visuals, player`damageTaken
      ensures Valid() && unchanged(gameState)
    {
      UpdateEnemies(m, dt, player);
    }

    /** The magnet pickups' clocks, seen as keeping the lists and the weapons as they were. */
    method TickPickups(dt: real)
      requires Valid() && Armed()
      modifies gameState.magnetPowerUps
      ensures Valid() && Armed()
    {
      TickMagnets(gameState.magnetPowerUps, dt);
    }

    /** The damage numbers and attack visuals: the ones reported this frame are added, and
        then every one ages and the expired ones are dropped. */
    method UpdateEffects(dt: real)
      requires Valid() && Armed()
      modifies gameState`damageNumbers, gameState`activeBossAttackVisuals, log`hits, log`visuals
      modifies gameState.damageNumbers, gameState.activeBossAttackVisuals
      ensures Valid() && Armed() && log.hits == [] && log.visuals == []
    {
      UpdateNumbers(dt);
      UpdateVisuals(dt);
    }

    method UpdateNumbers(dt: real)
      requires Valid() && Armed()
      modifies gameState`damageNumbers, log`hits, gameState.damageNumbers
      ensures Valid() && Armed() && log.hits == []
    {
      DrainHits();
      ghost var alive := FilterDamageNumbers(dt);
    }

    method UpdateVisuals(dt: real)
      requires Valid() && Armed()
      modifies gameState`activeBossAttackVisuals, log`visuals, gameState.activeBossAttackVisuals
      ensures Valid() && Armed() && log.visuals == []
    {
      DrainVisuals();
      ghost var alive := FilterVisuals(dt);
    }

    /** `FilterBossProjectiles`, seen as keeping the lists and the weapons as they were. */
    method BossShots(m: MathLib, dt: real, player: Player)
      requires m.Valid() && Valid() && Armed()
      modifies gameState`bossProjectiles, gameState.bossProjectiles, player`damageTaken
      ensures Valid() && Armed()
    {
      ghost var alive, hit := FilterBossProjectiles(m, dt, player);
    }

    /** The defeated enemies' drops, the magnet countdown and the two pickup filters. */
    method UpdatePickups(m: MathLib, dt: real, player: Player, draw: int -> real)
      requires m.Valid() && Valid() && Armed()
      modifies gameState`enemies, gameState`experienceGems, gameState`magnetPowerUps
      modifies gameState`activeMagnetRadius, gameState`activeMagnetDuration, gameState.experienceGems
      modifies player`goldGained, player`experienceGained
      ensures Valid() && Armed()
    {
      DropLoot(player, draw);
      CountDownMagnet(dt);
      PickUpGems(m, dt, player);
      PickUpMagnets(m, player);
    }

    /** `ClearDefeated`, seen as keeping the lists valid and adding only new gems. */
    method DropLoot(player: Player, draw: int -> real)
      requires Valid() && Armed()
      modifies gameState`enemies, gameState`experienceGems, gameState`magnetPowerUps, player`goldGained
      ensures Valid() && Armed()
      ensures |old(gameState.experienceGems)| <= |gameState.experienceGems|
      ensures gameState.experienceGems[..|old(gameState.experienceGems)|] == old(gameState.experienceGems)
      ensures forall j :: |old(gameState.experienceGems)| <= j < |gameState.experienceGems| ==> fresh(gameState.experienceGems[j])
    {
      ClearDefeated(player, draw);
    }

    /** `CollectGems`, seen only as keeping the lists valid. */
    method PickUpGems(m: MathLib, dt: real, player: Player)
      requires m.Valid() && Valid() && Armed()
      modifies gameState`experienceGems, gameState.experienceGems, player`experienceGained
      ensures Valid() && Armed()
    {
      ghost var taken := CollectGems(m, dt, player);
    }

    /** `CollectMagnets`, seen only as keeping the lists valid. */
    method PickUpMagnets(m: MathLib, player: Player)
      requires m.Valid() && Valid() && Armed()
      modifies gameState`magnetPowerUps, gameState`activeMagnetRadius, gameState`activeMagnetDuration
      ensures Valid() && Armed()
    {
      ghost var taken := CollectMagnets(m, player);
    }

    // -------------------------------------------------------------------------------------
    // The phases of `update`

    /** The enemy loop: every enemy updates toward the player, and each one touching the
        player afterwards deals the flat contact damage. */
    method UpdateEnemies(m: MathLib, dt: real, player: Player)
      requires m.Valid() && Valid()
      modifies gameState.enemies, log`visuals, player`damageTaken
      ensures Valid()
      ensures var r := EnemyPhase(m, old(Views(gameState.enemies)), dt, player.x, player.y, player.size);
        && Views(gameState.enemies) == r.views
        && log.visuals == old(log.visuals) + r.visuals
        && player.damageTaken == old(player.damageTaken) + r.damage
    {
      UpdateAll(m, dt, player, gameState.enemies, log);
    }

    /** The loop of `UpdateEnemies` over the list `es`. */
    static method UpdateAll(m: MathLib, dt: real, player: Player, es: seq<Enemy>, log: EventLog)
      requires m.Valid() && Distinct(es)
      modifies es, log`visuals, player`damageTaken
      ensures var r := EnemyPhase(m, old(Views(es)), dt, player.x, player.y, player.size);
        && Views(es) == r.views
        && log.visuals == old(log.visuals) + r.visuals
        && player.damageTaken == old(player.damageTaken) + r.damage
    {
      ghost var vs := Views(es);
      ghost var visuals0, damage0 := log.visuals, player.damageTaken;
      var i := 0;
      assert vs[..0] == [];
      while i < |es|
        invariant 0 <= i <= |es| && EnemyLoop(m, dt, player, es, vs, i, log, visuals0, damage0)
      {
        UpdateOne(m, dt, player, es, vs, i, log, visuals0, damage0);
        i := i + 1;
      }
      assert vs[..|es|] == vs;
      ViewsPointwise(es, EnemyPhase(m, vs, dt, player.x, player.y, player.size).views);
    }

    /** The enemy loop after `i` turns: the first `i` enemies have their updated views, the
        rest are untouched, and the visuals and the player's damage have grown by the first
        `i` updates'. */
    static ghost predicate EnemyLoop(m: MathLib, dt: real, player: Player, es: seq<Enemy>, vs: seq<EnemyView>, i: nat,
                                     log: EventLog, visuals0: seq<VisualRequest>, damage0: seq<real>)
      requires m.Valid()
      reads es, player, log
    {
      && |vs| == |es| && i <= |es|
      && (forall k :: i <= k < |es| ==> es[k].View() == vs[k])
      && var r := EnemyPhase(m, vs[..i], dt, player.x, player.y, player.size);
        && (forall k :: 0 <= k < i ==> es[k].View() == r.views[k])
        && log.visuals == visuals0 + r.visuals
        && player.damageTaken == damage0 + r.damage
    }

    // The weapons and abilities the update may change, with the missiles and blades they own
    // and the laser's current target.

    ghost function LaserSlot(): set<LaserBeamWeapon>
      reads gameState
    {
      if gameState.laserBeamWeapon.Some? then {gameState.laserBeamWeapon.value} else {}
    }

    ghost function AuraSlot(): set<AuraWeapon>
      reads gameState
    {
      if gameState.auraWeapon.Some? then {gameState.auraWeapon.value} else {}
    }

    ghost function SlowSlot(): set<TimeSlowAbility>
      reads gameState
    {
      if gameState.timeSlowAbility.Some? then {gameState.timeSlowAbility.value} else {}
    }

    ghost function Missiles(): seq<HomingMissiles.HomingMissile>
      reads gameState, MissileSlot()
    {
      if gameState.homingMissileWeapon.Some? then gameState.homingMissileWeapon.value.missiles else []
    }

    ghost function Blades(): seq<SpinningBlades.SpinningBlade>
      reads gameState, BladeSlot()
    {
      if gameState.spinningBladeWeapon.Some? then gameState.spinningBladeWeapon.value.blades else []
    }

    ghost function LaserTarget(): set<Enemy>
      reads gameState, LaserSlot()
    {
      if gameState.laserBeamWeapon.Some? then TargetSet(gameState.laserBeamWeapon.value.targetEnemy) else {}
    }

    /** The weapons and abilities in the order the game updates them, each by its own
        update (whose contract states what it does), all around the player's position. */
    method UpdateWeapons(m: MathLib, dt: real, player: Player, now: real)
      requires m.Valid() && Valid() && Armed()
      modifies gameState.enemies, MissileSlot(), Missiles(), LaserSlot(), LaserTarget(), AuraSlot(), BladeSlot(), Blades(), SlowSlot(), log`hits, log`bossDefeats
      ensures Valid() && Armed() && unchanged(gameState)
    {
      FireAll(m, dt, player.x, player.y, gameState.homingMissileWeapon, gameState.laserBeamWeapon, gameState.auraWeapon,
              gameState.spinningBladeWeapon, gameState.timeSlowAbility, gameState.enemies, now, log);
    }

    static method FireAll(m: MathLib, dt: real, px: real, py: real, missiles: Option<HomingMissileWeapon>,
                          laser: Option<LaserBeamWeapon>, aura: Option<AuraWeapon>, blades: Option<SpinningBladeWeapon>,
                          slow: Option<TimeSlowAbility>, es: seq<Enemy>, now: real, log: EventLog)
      requires m.Valid() && Distinct(es)
      requires missiles.Some? ==> missiles.value.Valid()
      requires blades.Some? ==> blades.value.Valid()
      modifies es, log`hits, log`bossDefeats
      modifies if missiles.Some? then {missiles.value} else {}, if missiles.Some? then missiles.value.missiles else []
      modifies if laser.Some? then {laser.value} + TargetSet(laser.value.targetEnemy) else {}
      modifies if aura.Some? then {aura.value} else {}
      modifies if blades.Some? then {blades.value} else {}, if blades.Some? then blades.value.blades else []
      modifies if slow.Some? then {slow.value} else {}
      ensures missiles.Some? ==> missiles.value.Valid()
      ensures blades.Some? ==> blades.value.Valid()
    {
      FireAimed(m, dt, px, py, missiles, laser, es, log);
      if aura.Some? {
        RunAura(m, dt, px, py, aura.value, es, log);
      }
      FireAround(m, dt, px, py, blades, slow, es, now, log);
    }

    /** The homing missiles, then the laser beam. */
    static method FireAimed(m: MathLib, dt: real, px: real, py: real, missiles: Option<HomingMissileWeapon>,
                            laser: Option<LaserBeamWeapon>, es: seq<Enemy>, log: EventLog)
      requires m.Valid() && Distinct(es) && (missiles.Some? ==> missiles.value.Valid())
      modifies es, log`hits, log`bossDefeats
      modifies if missiles.Some? then {missiles.value} else {}, if missiles.Some? then missiles.value.missiles else []
      modifies if laser.Some? then {laser.value} + TargetSet(laser.value.targetEnemy) else {}
      ensures missiles.Some? ==> missiles.value.Valid()
    {
      if missiles.Some? {
        RunMissiles(m, dt, px, py, missiles.value, es, log);
      }
      if laser.Some? {
        RunLaser(m, dt, px, py, laser.value, es, log);
      }
    }

    /** The spinning blades, then the time-slow ability. */
    static method FireAround(m: MathLib, dt: real, px: real, py: real, blades: Option<SpinningBladeWeapon>,
                             slow: Option<TimeSlowAbility>, es: seq<Enemy>, now: real, log: EventLog)
      requires m.Valid() && Distinct(es) && (blades.Some? ==> blades.value.Valid())
      modifies es, log`hits, log`bossDefeats
      modifies if blades.Some? then {blades.value} else {}, if blades.Some? then blades.value.blades else []
      modifies if slow.Some? then {slow.value} else {}
      ensures blades.Some? ==> blades.value.Valid()
    {
      if blades.Some? {
        RunBlades(m, dt, px, py, blades.value, es, now, log);
      }
      if slow.Some? {
        RunSlow(dt, slow.value, es);
      }
    }

    static method RunSlow(dt: real, a: TimeSlowAbility, es: seq<Enemy>)
      modifies a, es
    {
      a.Update(dt, es);
    }

    static method RunMissiles(m: MathLib, dt: real, px: real, py: real, w: HomingMissileWeapon, es: seq<Enemy>, log: EventLog)
      requires m.Valid() && w.Valid() && Distinct(es)
      modifies w, w.missiles, es, log`hits, log`bossDefeats
      ensures w.Valid()
    {
      ghost var launched, starts, ends, spots, helds, fates, views := w.Update(m, dt, px, py, es, log);
    }

    static method RunLaser(m: MathLib, dt: real, px: real, py: real, w: LaserBeamWeapon, es: seq<Enemy>, log: EventLog)
      requires m.Valid()
      modifies w, TargetSet(w.targetEnemy), es, log`hits, log`bossDefeats
    {
      ghost var aimed, alive := w.Update(m, dt, px, py, es, log);
    }

    static method RunAura(m: MathLib, dt: real, px: real, py: real, w: AuraWeapon, es: seq<Enemy>, log: EventLog)
      requires m.Valid() && Distinct(es)
      modifies w, es, log`hits, log`bossDefeats
    {
      w.Update(m, dt, px, py, es, log);
    }

    static method RunBlades(m: MathLib, dt: real, px: real, py: real, w: SpinningBladeWeapon, es: seq<Enemy>, now: real,
                            log: EventLog)
      requires m.Valid() && w.Valid() && Distinct(es)
      modifies w, w.blades, es, log`hits, log`bossDefeats
      ensures w.Valid()
    {
      w.Update(m, dt, px, py, es, now, log);
    }

    /** One turn of the enemy loop, stated as the loop invariant before and after. */
    static method UpdateOne(m: MathLib, dt: real, player: Player, es: seq<Enemy>, ghost vs: seq<EnemyView>, i: nat,
                            log: EventLog, ghost visuals0: seq<VisualRequest>, ghost damage0: seq<real>)
      requires m.Valid() && Distinct(es) && i < |es| && EnemyLoop(m, dt, player, es, vs, i, log, visuals0, damage0)
      modifies es[i], log`visuals, player`damageTaken
      ensures EnemyLoop(m, dt, player, es, vs, i + 1, log, visuals0, damage0)
    {
      ghost var r0 := EnemyPhase(m, vs[..i], dt, player.x, player.y, player.size);
      ghost var o := Updated(m, vs[i], dt, player.x, player.y, player.size);
      assert vs[..i + 1][..i] == vs[..i];
      ghost var before := log.visuals;
      ghost var hits := player.damageTaken;
      var e := es[i];
      e.Update(m, dt, player, log);
      assert e.View() == o.enemy;
      if player.CollidesWith(m, e.x, e.y, e.size) {
        player.TakeDamage(ContactDamage);
      }
      assert player.CollidesWith(m, e.x, e.y, e.size) == Touches(m, o.enemy, player.x, player.y, player.size);
      AppendAssoc(visuals0, r0.visuals, o.visuals);
      AppendAssoc(damage0, r0.damage, o.playerDamage);
      AppendAssoc(damage0, r0.damage + o.playerDamage, if Touches(m, o.enemy, player.x, player.y, player.size) then [ContactDamage] else []);
      AppendAssoc(damage0 + r0.damage, o.playerDamage, if Touches(m, o.enemy, player.x, player.y, player.size) then [ContactDamage] else []);
    }

    /** `magnetPowerUps.forEach(magnet => magnet.update(dt))`: every pickup counts down; the
        answers are not used. */
    static method TickMagnets(ms: seq<MagnetPowerUp>, dt: real)
      requires Distinct(ms)
      modifies ms
      ensures forall k :: 0 <= k < |ms| ==> ms[k].currentDuration == old(ms[k].currentDuration) - dt
    {
      var i := 0;
      while i < |ms|
        invariant 0 <= i <= |ms|
        invariant forall k :: 0 <= k < i ==> ms[k].currentDuration == old(ms[k].currentDuration) - dt
        invariant forall k :: i <= k < |ms| ==> ms[k].currentDuration == old(ms[k].currentDuration)
      {
        var active := ms[i].Update(dt);
        i := i + 1;
      }
    }

    /** Turns the hits logged since the last frame into damage numbers, in order, white and
        with the default lifetime, as `onTakeDamage` would have when each hit happened. */
    method DrainHits()
      requires Valid()
      modifies gameState`damageNumbers, log`hits
      ensures Valid() && log.hits == []
      ensures NumbersFor(gameState.damageNumbers, old(gameState.damageNumbers), old(log.hits))
      ensures forall k :: |old(gameState.damageNumbers)| <= k < |gameState.damageNumbers| ==> fresh(gameState.damageNumbers[k])
    {
      var hits := log.hits;
      log.hits := [];
      ghost var d0 := gameState.damageNumbers;
      var i := 0;
      while i < |hits|
        invariant 0 <= i <= |hits| && Valid() && log.hits == []
        invariant NumbersFor(gameState.damageNumbers, d0, hits[..i])
        invariant forall k :: |d0| <= k < |gameState.damageNumbers| ==> fresh(gameState.damageNumbers[k])
      {
        ghost var before := gameState.damageNumbers;
        AddDamageNumber(hits[i].x, hits[i].y, hits[i].amount, DamageNumbers.DefaultColor);
        ghost var d := gameState.damageNumbers[|before|];
        assert gameState.damageNumbers == before + [d];
        NumbersForSnoc(before, d0, hits[..i], d, hits[i]);
        PrefixSnoc(hits, i);
        i := i + 1;
      }
      assert hits[..|hits|] == hits;
    }

    /** `damageNumbers = damageNumbers.filter(dn => dn.update(dt))`. */
    method FilterDamageNumbers(dt: real) returns (ghost alive: seq<bool>)
      requires Valid()
      modifies gameState`damageNumbers, gameState.damageNumbers
      ensures Valid()
      ensures |alive| == |old(gameState.damageNumbers)|
      ensures gameState.damageNumbers == Keep(old(gameState.damageNumbers), alive)
      ensures var ds := old(gameState.damageNumbers); forall k :: 0 <= k < |ds| ==>
        && ds[k].Valid() && ds[k].currentLifetime == old(ds[k].currentLifetime) + dt
        && ds[k].y == DamageNumbers.Drift(old(ds[k].y), ds[k].velocityY, dt)
        && (alive[k] <==> ds[k].currentLifetime < ds[k].lifetime)
    {
      var ds := gameState.damageNumbers;
      var kept;
      kept, alive := AgeNumbers(ds, dt);
      KeepDistinct(ds, alive);
      forall d | d in kept
        ensures d.lifetime != 0.0
      {
        KeepMember(ds, alive, d);
      }
      gameState.damageNumbers := kept;
    }

    /** The loop of `FilterDamageNumbers` over the list `ds`. */
    static method AgeNumbers(ds: seq<DamageNumber>, dt: real) returns (kept: seq<DamageNumber>, ghost alive: seq<bool>)
      requires Distinct(ds) && forall d :: d in ds ==> d.lifetime != 0.0
      modifies ds
      ensures |alive| == |ds| && kept == Keep(ds, alive)
      ensures forall k :: 0 <= k < |ds| ==>
        && ds[k].Valid() && ds[k].currentLifetime == old(ds[k].currentLifetime) + dt
        && ds[k].y == DamageNumbers.Drift(old(ds[k].y), ds[k].velocityY, dt)
        && (alive[k] <==> ds[k].currentLifetime < ds[k].lifetime)
    {
      ghost var t0 := seq(|ds|, k requires 0 <= k < |ds| reads ds => ds[k].currentLifetime);
      ghost var y0 := seq(|ds|, k requires 0 <= k < |ds| reads ds => ds[k].y);
      kept, alive := [], [];
      var i := 0;
      while i < |ds|
        invariant 0 <= i <= |ds| && |alive| == i && kept == Keep(ds[..i], alive)
        invariant forall k :: 0 <= k < i ==> ds[k].Valid() && ds[k].currentLifetime == t0[k] + dt
        invariant forall k :: 0 <= k < i ==> ds[k].y == DamageNumbers.Drift(y0[k], ds[k].velocityY, dt)
        invariant forall k :: 0 <= k < i ==> (alive[k] <==> ds[k].currentLifetime < ds[k].lifetime)
        invariant forall k :: i <= k < |ds| ==> ds[k].currentLifetime == t0[k] && ds[k].y == y0[k]
      {
        kept, alive := AgeNumberAt(ds, dt, i, t0, y0, kept, alive);
        i := i + 1;
      }
      assert ds[..|ds|] == ds;
    }

    /** One turn of the `AgeNumbers` loop, stated as the loop invariant before and after. */
    static method AgeNumberAt(ds: seq<DamageNumber>, dt: real, i: nat, ghost t0: seq<real>, ghost y0: seq<real>,
                              kept: seq<DamageNumber>, ghost alive: seq<bool>)
      returns (kept': seq<DamageNumber>, ghost alive': seq<bool>)
      requires Distinct(ds) && i < |ds| == |t0| == |y0| && |alive| == i && kept == Keep(ds[..i], alive)
      requires ds[i].lifetime != 0.0
      requires forall k :: 0 <= k < i ==> ds[k].Valid() && ds[k].currentLifetime == t0[k] + dt
      requires forall k :: 0 <= k < i ==> ds[k].y == DamageNumbers.Drift(y0[k], ds[k].velocityY, dt)
      requires forall k :: 0 <= k < i ==> (alive[k] <==> ds[k].currentLifetime < ds[k].lifetime)
      requires forall k :: i <= k < |ds| ==> ds[k].currentLifetime == t0[k] && ds[k].y == y0[k]
      modifies ds[i]
      ensures |alive'| == i + 1 && kept' == Keep(ds[..i + 1], alive')
      ensures forall k :: 0 <= k < i + 1 ==> ds[k].Valid() && ds[k].currentLifetime == t0[k] + dt
      ensures forall k :: 0 <= k < i + 1 ==> ds[k].y == DamageNumbers.Drift(y0[k], ds[k].velocityY, dt)
      ensures forall k :: 0 <= k < i + 1 ==> (alive'[k] <==> ds[k].currentLifetime < ds[k].lifetime)
      ensures forall k :: i + 1 <= k < |ds| ==> ds[k].currentLifetime == t0[k] && ds[k].y == y0[k]
    {
      var a := ds[i].Update(dt);
      KeepSnoc(ds[..i], alive, ds[i], a);
      assert ds[..i + 1] == ds[..i] + [ds[i]];
      kept' := if a then kept + [ds[i]] else kept;
      alive' := alive + [a];
    }

    /** Turns the visual requests logged since the last frame into boss attack visuals, in
        order, as `onAddBossAttackVisual` would have when each request was made. */
    method DrainVisuals()
      requires Valid()
      modifies gameState`activeBossAttackVisuals, log`visuals
      ensures Valid() && log.visuals == []
      ensures VisualsFor(gameState.activeBossAttackVisuals, old(gameState.activeBossAttackVisuals), old(log.visuals))
      ensures forall k :: |old(gameState.activeBossAttackVisuals)| <= k < |gameState.activeBossAttackVisuals| ==>
        fresh(gameState.activeBossAttackVisuals[k])
    {
      var requests := log.visuals;
      log.visuals := [];
      ghost var v0 := gameState.activeBossAttackVisuals;
      var i := 0;
      while i < |requests|
        invariant 0 <= i <= |requests| && Valid() && log.visuals == []
        invariant VisualsFor(gameState.activeBossAttackVisuals, v0, requests[..i])
        invariant forall k :: |v0| <= k < |gameState.activeBossAttackVisuals| ==> fresh(gameState.activeBossAttackVisuals[k])
      {
        ghost var before := gameState.activeBossAttackVisuals;
        var q := requests[i];
        var v := new BossAttackVisual(q.x, q.y, q.radius, q.duration, q.color);
        DistinctAppend(before, v);
        AddBossAttackVisual(v);
        VisualsForSnoc(before, v0, requests[..i], v, q);
        PrefixSnoc(requests, i);
        i := i + 1;
      }
      assert requests[..|requests|] == requests;
    }

    /** `activeBossAttackVisuals = activeBossAttackVisuals.filter(visual => visual.update(dt))`. */
    method FilterVisuals(dt: real) returns (ghost alive: seq<bool>)
      requires Valid()
      modifies gameState`activeBossAttackVisuals, gameState.activeBossAttackVisuals
      ensures Valid()
      ensures |alive| == |old(gameState.activeBossAttackVisuals)|
      ensures gameState.activeBossAttackVisuals == Keep(old(gameState.activeBossAttackVisuals), alive)
      ensures var vs := old(gameState.activeBossAttackVisuals); forall k :: 0 <= k < |vs| ==>
        && vs[k].currentDuration == old(vs[k].currentDuration) + dt
        && (alive[k] <==> vs[k].currentDuration < vs[k].duration)
    {
      var vs := gameState.activeBossAttackVisuals;
      var kept;
      kept, alive := AgeVisuals(vs, dt);
      KeepDistinct(vs, alive);
      gameState.activeBossAttackVisuals := kept;
    }

    /** The loop of `FilterVisuals` over the list `vs`. */
    static method AgeVisuals(vs: seq<BossAttackVisual>, dt: real) returns (kept: seq<BossAttackVisual>, ghost alive: seq<bool>)
      requires Distinct(vs)
      modifies vs
      ensures |alive| == |vs| && kept == Keep(vs, alive)
      ensures forall k :: 0 <= k < |vs| ==>
        && vs[k].currentDuration == old(vs[k].currentDuration) + dt
        && (alive[k] <==> vs[k].currentDuration < vs[k].duration)
    {
      ghost var d0 := seq(|vs|, k requires 0 <= k < |vs| reads vs => vs[k].currentDuration);
      kept, alive := [], [];
      var i := 0;
      while i < |vs|
        invariant 0 <= i <= |vs| && |alive| == i && kept == Keep(vs[..i], alive)
        invariant forall k :: 0 <= k < i ==> vs[k].currentDuration == d0[k] + dt
        invariant forall k :: 0 <= k < i ==> (alive[k] <==> vs[k].currentDuration < vs[k].duration)
        invariant forall k :: i <= k < |vs| ==> vs[k].currentDuration == d0[k]
      {
        kept, alive := AgeVisualAt(vs, dt, i, d0, kept, alive);
        i := i + 1;
      }
      assert vs[..|vs|] == vs;
    }

    /** One turn of the `AgeVisuals` loop, stated as the loop invariant before and after. */
    static method AgeVisualAt(vs: seq<BossAttackVisual>, dt: real, i: nat, ghost d0: seq<real>,
                              kept: seq<BossAttackVisual>, ghost alive: seq<bool>)
      returns (kept': seq<BossAttackVisual>, ghost alive': seq<bool>)
      requires Distinct(vs) && i < |vs| == |d0| && |alive| == i && kept == Keep(vs[..i], alive)
      requires forall k :: 0 <= k < i ==> vs[k].currentDuration == d0[k] + dt
      requires forall k :: 0 <= k < i ==> (alive[k] <==> vs[k].currentDuration < vs[k].duration)
      requires forall k :: i <= k < |vs| ==> vs[k].currentDuration == d0[k]
      modifies vs[i]
      ensures |alive'| == i + 1 && kept' == Keep(vs[..i + 1], alive')
      ensures forall k :: 0 <= k < i + 1 ==> vs[k].currentDuration == d0[k] + dt
      ensures forall k :: 0 <= k < i + 1 ==> (alive'[k] <==> vs[k].currentDuration < vs[k].duration)
      ensures forall k :: i + 1 <= k < |vs| ==> vs[k].currentDuration == d0[k]
    {
      var a := vs[i].Update(dt);
      KeepSnoc(vs[..i], alive, vs[i], a);
      assert vs[..i + 1] == vs[..i] + [vs[i]];
      kept' := if a then kept + [vs[i]] else kept;
      alive' := alive + [a];
    }

    /** The boss-projectile filter: every projectile moves and ages; one whose lifetime is
        used up is dropped, one that then touches the player deals its damage and is
        dropped, and the rest stay, in order. */
    method FilterBossProjectiles(m: MathLib, dt: real, player: Player) returns (ghost alive: seq<bool>, ghost hit: seq<bool>)
      requires m.Valid() && Valid()
      modifies gameState`bossProjectiles, gameState.bossProjectiles, player`damageTaken
      ensures Valid()
      ensures |alive| == |hit| == |old(gameState.bossProjectiles)|
      ensures gameState.bossProjectiles == Keep(old(gameState.bossProjectiles), Spared(alive, hit))
      ensures player.damageTaken == old(player.damageTaken) + Keep(ProjectileDamages(old(gameState.bossProjectiles)), hit)
      ensures var ps := old(gameState.bossProjectiles); forall k :: 0 <= k < |ps| ==> ps[k].State() == Step(ps[k], old(ps[k].State()), dt)
      ensures var ps := old(gameState.bossProjectiles); forall k :: 0 <= k < |ps| ==>
        && (alive[k] <==> ps[k].currentLifetime < ps[k].lifetime)
        && (hit[k] <==> alive[k] && ps[k].Collides(m, player.x, player.y, player.size))
    {
      var ps := gameState.bossProjectiles;
      var kept;
      kept, alive, hit := MoveProjectiles(m, dt, player, ps);
      KeepDistinct(ps, Spared(alive, hit));
      gameState.bossProjectiles := kept;
    }

    /** The loop of `FilterBossProjectiles` over the list `ps`. */
    static method MoveProjectiles(m: MathLib, dt: real, player: Player, ps: seq<Projectile>)
      returns (kept: seq<Projectile>, ghost alive: seq<bool>, ghost hit: seq<bool>)
      requires m.Valid() && Distinct(ps)
      modifies ps, player`damageTaken
      ensures |alive| == |hit| == |ps| && kept == Keep(ps, Spared(alive, hit))
      ensures player.damageTaken == old(player.damageTaken) + Keep(ProjectileDamages(ps), hit)
      ensures forall k :: 0 <= k < |ps| ==> ps[k].State() == Step(ps[k], old(ps[k].State()), dt)
      ensures forall k :: 0 <= k < |ps| ==>
        && (alive[k] <==> ps[k].currentLifetime < ps[k].lifetime)
        && (hit[k] <==> alive[k] && ps[k].Collides(m, player.x, player.y, player.size))
    {
      ghost var s0 := States(ps);
      ghost var s1: seq<ProjectileState> := [];
      ghost var damage0 := player.damageTaken;
      ghost var spared := [];
      var px, py, psize := player.x, player.y, player.size;
      kept, alive, hit := [], [], [];
      var i := 0;
      assert ps[..0] == [] && ProjectileDamages(ps)[..0] == [];
      while i < |ps|
        invariant 0 <= i <= |ps| && px == player.x && py == player.y && psize == player.size
        invariant ProjectileLoop(m, dt, player, px, py, psize, ps, i, s0, damage0, kept, alive, hit, spared, s1)
      {
        kept, alive, hit, spared, s1 := MoveProjectileAt(m, dt, player, px, py, psize, ps, i, s0, damage0,
                                                         kept, alive, hit, spared, s1);
        i := i + 1;
      }
      ProjectileLoopDone(m, dt, player, px, py, psize, ps, s0, damage0, kept, alive, hit, spared, s1);
    }

    /** The boss-projectile loop once every projectile has had its turn. */
    static lemma ProjectileLoopDone(m: MathLib, dt: real, player: Player, px: real, py: real, psize: real,
                                    ps: seq<Projectile>, s0: seq<ProjectileState>, damage0: seq<real>,
                                    kept: seq<Projectile>, alive: seq<bool>, hit: seq<bool>,
                                    spared: seq<bool>, s1: seq<ProjectileState>)
      requires m.Valid() && ProjectileLoop(m, dt, player, px, py, psize, ps, |ps|, s0, damage0, kept, alive, hit, spared, s1)
      ensures |alive| == |hit| == |ps| && kept == Keep(ps, Spared(alive, hit))
      ensures player.damageTaken == damage0 + Keep(ProjectileDamages(ps), hit)
      ensures forall k :: 0 <= k < |ps| ==> ps[k].State() == Step(ps[k], s0[k], dt)
      ensures forall k :: 0 <= k < |ps| ==>
        && (alive[k] <==> ps[k].currentLifetime < ps[k].lifetime)
        && (hit[k] <==> alive[k] && ps[k].Collides(m, px, py, psize))
    {
      assert ps[..|ps|] == ps && ProjectileDamages(ps)[..|ps|] == ProjectileDamages(ps);
      assert spared == Spared(alive, hit);
    }

    /** The boss-projectile loop after `i` turns: `kept` holds the spared ones among the
        first `i`, the player has taken the damage of those that hit, the first `i` have
        stepped as `Fate` says and the rest are untouched. */
    static ghost predicate ProjectileLoop(m: MathLib, dt: real, player: Player, px: real, py: real, psize: real,
                                          ps: seq<Projectile>, i: nat, s0: seq<ProjectileState>, damage0: seq<real>,
                                          kept: seq<Projectile>, alive: seq<bool>, hit: seq<bool>,
                                          spared: seq<bool>, s1: seq<ProjectileState>)
      requires m.Valid()
      reads ps, player
    {
      && i <= |ps| == |s0| && |alive| == |hit| == |spared| == |s1| == i && kept == Keep(ps[..i], spared)
      && player.damageTaken == damage0 + Keep(ProjectileDamages(ps)[..i], hit)
      && (forall k :: 0 <= k < i ==> ps[k].State() == s1[k])
      && (forall k :: i <= k < |ps| ==> ps[k].State() == s0[k])
      && (forall k :: 0 <= k < i ==> Fate(m, ps[k], s0[k], s1[k], dt, px, py, psize, alive[k], hit[k], spared[k]))
    }

    /** What one turn of the boss-projectile loop did to the projectile `p`: it stepped
        from `s0` to `s1`, and its flags say whether it was still alive, hit the player at
        `(px, py)` and stays. */
    static ghost predicate Fate(m: MathLib, p: Projectile, s0: ProjectileState, s1: ProjectileState, dt: real,
                                px: real, py: real, psize: real, alive: bool, hit: bool, spared: bool)
      requires m.Valid()
    {
      && s1 == Step(p, s0, dt)
      && (alive <==> s1.currentLifetime < p.lifetime)
      && (hit <==> alive && Projectiles.TouchesAt(m, p, s1, px, py, psize))
      && (spared <==> alive && !hit)
    }

    /** The fates of the first `|s1|` projectiles extended by the next one's. */
    static lemma FateSnoc(m: MathLib, ps: seq<Projectile>, s0: seq<ProjectileState>, s1: seq<ProjectileState>, dt: real,
                          px: real, py: real, psize: real, alive: seq<bool>, hit: seq<bool>, spared: seq<bool>,
                          s: ProjectileState, a: bool, h: bool, sp: bool)
      requires m.Valid() && |s1| < |ps| == |s0| && |alive| == |hit| == |spared| == |s1|
      requires forall k :: 0 <= k < |s1| ==> Fate(m, ps[k], s0[k], s1[k], dt, px, py, psize, alive[k], hit[k], spared[k])
      requires Fate(m, ps[|s1|], s0[|s1|], s, dt, px, py, psize, a, h, sp)
      ensures forall k :: 0 <= k < |s1| + 1 ==>
        Fate(m, ps[k], s0[k], (s1 + [s])[k], dt, px, py, psize, (alive + [a])[k], (hit + [h])[k], (spared + [sp])[k])
    {
      forall k | 0 <= k < |s1| + 1
        ensures Fate(m, ps[k], s0[k], (s1 + [s])[k], dt, px, py, psize, (alive + [a])[k], (hit + [h])[k], (spared + [sp])[k])
      {
        if k < |s1| {
          assert (s1 + [s])[k] == s1[k] && (alive + [a])[k] == alive[k];
          assert (hit + [h])[k] == hit[k] && (spared + [sp])[k] == spared[k];
        }
      }
    }

    /** One turn of the `MoveProjectiles` loop, stated as the loop invariant before and after. */
    static method MoveProjectileAt(m: MathLib, dt: real, player: Player, px: real, py: real, psize: real,
                                   ps: seq<Projectile>, i: nat, ghost s0: seq<ProjectileState>, ghost damage0: seq<real>,
                                   kept: seq<Projectile>, ghost alive: seq<bool>, ghost hit: seq<bool>,
                                   ghost spared: seq<bool>, ghost s1: seq<ProjectileState>)
      returns (kept': seq<Projectile>, ghost alive': seq<bool>, ghost hit': seq<bool>,
               ghost spared': seq<bool>, ghost s1': seq<ProjectileState>)
      requires m.Valid() && Distinct(ps) && i < |ps|
      requires px == player.x && py == player.y && psize == player.size
      requires ProjectileLoop(m, dt, player, px, py, psize, ps, i, s0, damage0, kept, alive, hit, spared, s1)
      modifies ps[i], player`damageTaken
      ensures ProjectileLoop(m, dt, player, px, py, psize, ps, i + 1, s0, damage0, kept', alive', hit', spared', s1')
    {
      var a, h;
      ghost var s;
      a, h, s := StepProjectile(m, dt, player, px, py, psize, ps, i, s0, s1, damage0, hit);
      FateSnoc(m, ps, s0, s1, dt, px, py, psize, alive, hit, spared, s, a, h, a && !h);
      KeepPrefixSnoc(ps, spared, i, a && !h);
      kept' := if a && !h then kept + [ps[i]] else kept;
      alive', hit', spared', s1' := alive + [a], hit + [h], spared + [a && !h], s1 + [s];
    }

    /** The `i`-th projectile steps, and hits the player when it is still alive and
        touches them. */
    static method StepProjectile(m: MathLib, dt: real, player: Player, px: real, py: real, psize: real,
                                   ps: seq<Projectile>, i: nat, ghost s0: seq<ProjectileState>, ghost s1: seq<ProjectileState>,
                                   ghost damage0: seq<real>, ghost hit: seq<bool>)
      returns (a: bool, h: bool, ghost s: ProjectileState)
      requires m.Valid() && Distinct(ps) && i < |ps| == |s0| && |s1| == |hit| == i
      requires px == player.x && py == player.y && psize == player.size
      requires player.damageTaken == damage0 + Keep(ProjectileDamages(ps)[..i], hit)
      requires forall k :: 0 <= k < i ==> ps[k].State() == s1[k]
      requires forall k :: i <= k < |ps| ==> ps[k].State() == s0[k]
      modifies ps[i], player`damageTaken
      ensures Fate(m, ps[i], s0[i], s, dt, px, py, psize, a, h, a && !h)
      ensures player.damageTaken == damage0 + Keep(ProjectileDamages(ps)[..i + 1], hit + [h])
      ensures forall k :: 0 <= k < i + 1 ==> ps[k].State() == (s1 + [s])[k]
      ensures forall k :: i + 1 <= k < |ps| ==> ps[k].State() == s0[k]
    {
      var p := ps[i];
      a := p.Update(dt);
      h := false;
      if a && p.Collides(m, px, py, psize) {
        player.TakeDamage(p.damage);
        h := true;
      }
      s := p.State();
      forall k | 0 <= k < i + 1
        ensures ps[k].State() == (s1 + [s])[k]
      {
        if k < i {
          assert (s1 + [s])[k] == s1[k];
        }
      }
      KeepSnoc(ProjectileDamages(ps)[..i], hit, p.damage, h);
      assert ProjectileDamages(ps)[..i + 1] == ProjectileDamages(ps)[..i] + [p.damage];
    }

    /** One of the two filters of the defeated-enemy phase: the enemies whose liveness is
        `living`, in list order. */
    static method FilterByLife(es: seq<Enemy>, living: bool) returns (r: seq<Enemy>)
      ensures r == Keep(es, LifeIs(Views(es), living))
    {
      ghost var vs := Views(es);
      ghost var flags := LifeIs(vs, living);
      r := [];
      var i := 0;
      while i < |es|
        invariant 0 <= i <= |es| && r == Keep(es[..i], flags[..i])
      {
        r := FilterStep(es, living, vs, flags, i, r);
        i := i + 1;
      }
      assert es[..|es|] == es && flags[..|es|] == flags;
    }

    /** One turn of `FilterByLife`: the `i`-th enemy is kept when its liveness is `living`. */
    static method FilterStep(es: seq<Enemy>, living: bool, ghost vs: seq<EnemyView>, ghost flags: seq<bool>, i: nat,
                             r: seq<Enemy>)
      returns (r': seq<Enemy>)
      requires i < |es| && vs == Views(es) && flags == LifeIs(vs, living) && r == Keep(es[..i], flags[..i])
      ensures r' == Keep(es[..i + 1], flags[..i + 1])
    {
      var b := es[i].IsAlive() == living;
      assert b == flags[i];
      KeepPrefixStep(es, flags, i);
      r' := if b then r + [es[i]] else r;
    }

    /** The defeated enemies leave their drops and only the living stay: the `k`-th
        defeated enemy leaves a gem worth 10 at its position, hands the player its gold,
        and leaves a default magnet there too when the `k`-th draw is below 0.1. */
    method ClearDefeated(player: Player, draw: int -> real)
      requires Valid()
      modifies gameState`enemies, gameState`experienceGems, gameState`magnetPowerUps, player`goldGained
      ensures Valid()
      ensures gameState.enemies == Keep(old(gameState.enemies), LifeIs(old(Views(gameState.enemies)), true))
      ensures player.goldGained == old(player.goldGained) + GoldDrops(Defeated(old(Views(gameState.enemies))))
      ensures GemsFor(gameState.experienceGems, old(gameState.experienceGems), Defeated(old(Views(gameState.enemies))))
      ensures MagnetsFor(gameState.magnetPowerUps, old(gameState.magnetPowerUps),
                         Keep(Defeated(old(Views(gameState.enemies))), Lucky(|Defeated(old(Views(gameState.enemies)))|, draw)))
      ensures forall j :: |old(gameState.experienceGems)| <= j < |gameState.experienceGems| ==> fresh(gameState.experienceGems[j])
    {
      var defeated, survivors;
      ghost var ds;
      defeated, survivors, ds := SplitDefeated(gameState.enemies);
      // The survivors are installed before the drops are handed out rather than after:
      // handing out drops changes no enemy.
      SetEnemies(survivors);
      DropAll(player, draw, defeated, ds);
    }

    /** The two filters of the defeated-enemy phase over the list `es`: the defeated
        enemies, with their views `ds`, and the survivors, each in list order. */
    static method SplitDefeated(es: seq<Enemy>) returns (defeated: seq<Enemy>, survivors: seq<Enemy>, ghost ds: seq<EnemyView>)
      requires Distinct(es)
      ensures survivors == Keep(es, LifeIs(Views(es), true)) && Distinct(survivors)
      ensures defeated == Keep(es, LifeIs(Views(es), false))
      ensures ds == Defeated(Views(es)) && |defeated| == |ds|
      ensures forall j :: 0 <= j < |defeated| ==> defeated[j].View() == ds[j]
    {
      ghost var vs := Views(es);
      defeated := FilterByLife(es, false);
      survivors := FilterByLife(es, true);
      KeepDistinct(es, LifeIs(vs, true));
      KeepViews(es, LifeIs(vs, false));
      ds := Views(defeated);
    }

    method SetEnemies(es: seq<Enemy>)
      requires Valid() && Distinct(es)
      modifies gameState`enemies
      ensures Valid() && gameState.enemies == es
    {
      gameState.enemies := es;
    }

    /** The drop loop of `ClearDefeated` over the defeated enemies `defeated`, whose views
        are `ds`. */
    method DropAll(player: Player, draw: int -> real, defeated: seq<Enemy>, ghost ds: seq<EnemyView>)
      requires Valid() && |ds| == |defeated|
      requires forall j :: 0 <= j < |defeated| ==> defeated[j].View() == ds[j]
      modifies gameState`experienceGems, gameState`magnetPowerUps, player`goldGained
      ensures Valid() && gameState.enemies == old(gameState.enemies)
      ensures player.goldGained == old(player.goldGained) + GoldDrops(ds)
      ensures GemsFor(gameState.experienceGems, old(gameState.experienceGems), ds)
      ensures MagnetsFor(gameState.magnetPowerUps, old(gameState.magnetPowerUps), Keep(ds, Lucky(|ds|, draw)))
      ensures forall j :: |old(gameState.experienceGems)| <= j < |gameState.experienceGems| ==> fresh(gameState.experienceGems[j])
    {
      ghost var lucky := Lucky(|ds|, draw);
      ghost var g0, m0, gold0 := gameState.experienceGems, gameState.magnetPowerUps, player.goldGained;
      var k := 0;
      while k < |defeated|
        invariant 0 <= k <= |defeated| && Valid() && gameState.enemies == old(gameState.enemies)
        invariant forall j :: 0 <= j < |defeated| ==> defeated[j].View() == ds[j]
        invariant player.goldGained == gold0 + GoldDrops(ds[..k])
        invariant GemsFor(gameState.experienceGems, g0, ds[..k])
        invariant MagnetsFor(gameState.magnetPowerUps, m0, Keep(ds[..k], lucky[..k]))
        invariant forall j :: |g0| <= j < |gameState.experienceGems| ==> fresh(gameState.experienceGems[j])
      {
        DropAt(player, draw, defeated, ds, lucky, k, g0, m0, gold0);
        k := k + 1;
      }
      assert ds[..|ds|] == ds && lucky[..|ds|] == lucky;
    }

    /** One turn of the drop loop of `ClearDefeated`, stated as the loop invariant before
        and after: the `k`-th defeated enemy leaves a gem worth 10 and its gold, and a
        magnet when the `k`-th draw is lucky. */
    method DropAt(player: Player, draw: int -> real, defeated: seq<Enemy>, ghost ds: seq<EnemyView>,
                  ghost lucky: seq<bool>, k: nat, ghost g0: seq<ExperienceGem>, ghost m0: seq<MagnetPowerUp>,
                  ghost gold0: seq<int>)
      requires k < |defeated| && Valid() && |ds| == |lucky| == |defeated|
      requires forall j :: 0 <= j < |defeated| ==> defeated[j].View() == ds[j]
      requires lucky == Lucky(|defeated|, draw)
      requires player.goldGained == gold0 + GoldDrops(ds[..k])
      requires GemsFor(gameState.experienceGems, g0, ds[..k])
      requires MagnetsFor(gameState.magnetPowerUps, m0, Keep(ds[..k], lucky[..k]))
      modifies gameState`experienceGems, gameState`magnetPowerUps, player`goldGained
      ensures Valid() && gameState.enemies == old(gameState.enemies)
      ensures forall j :: 0 <= j < |defeated| ==> defeated[j].View() == ds[j]
      ensures player.goldGained == gold0 + GoldDrops(ds[..k + 1])
      ensures GemsFor(gameState.experienceGems, g0, ds[..k + 1])
      ensures MagnetsFor(gameState.magnetPowerUps, m0, Keep(ds[..k + 1], lucky[..k + 1]))
      ensures gameState.experienceGems[..|old(gameState.experienceGems)|] == old(gameState.experienceGems)
      ensures forall j :: |old(gameState.experienceGems)| <= j < |gameState.experienceGems| ==> fresh(gameState.experienceGems[j])
    {
      var e := defeated[k];
      assert e.View() == ds[k] && (lucky[k] <==> draw(k) < MagnetChance);
      PrefixSnoc(ds, k);
      KeepPrefixStep(ds, lucky, k);
      assert GoldDrops(ds[..k + 1]) == GoldDrops(ds[..k]) + [e.goldDrop];
      GemFor(e, g0, ds[..k]);
      player.GainGold(e.goldDrop);
      if draw(k) < MagnetChance {
        MagnetFor(e, m0, Keep(ds[..k], lucky[..k]));
      } else {
        assert Keep(ds[..k + 1], lucky[..k + 1]) == Keep(ds[..k], lucky[..k]);
      }
    }

    /** `spawnExperienceGem(e.x, e.y, 10)` for the defeated enemy `e`, as one more entry of
        the drops so far. */
    method GemFor(e: Enemy, ghost g0: seq<ExperienceGem>, ghost ds: seq<EnemyView>)
      requires Valid() && GemsFor(gameState.experienceGems, g0, ds)
      modifies gameState`experienceGems
      ensures Valid() && GemsFor(gameState.experienceGems, g0, ds + [e.View()])
      ensures |gameState.experienceGems| == |old(gameState.experienceGems)| + 1
      ensures gameState.experienceGems[..|old(gameState.experienceGems)|] == old(gameState.experienceGems)
      ensures fresh(gameState.experienceGems[|old(gameState.experienceGems)|])
    {
      ghost var gems := gameState.experienceGems;
      SpawnExperienceGem(e.x, e.y, DropValue);
      assert gameState.experienceGems == gems + [gameState.experienceGems[|gems|]];
      GemsForSnoc(gems, g0, ds, gameState.experienceGems[|gems|], e.View());
    }

    /** `spawnMagnetPowerUp(e.x, e.y)` for the defeated enemy `e`, as one more entry of the
        magnet drops so far. */
    method MagnetFor(e: Enemy, ghost m0: seq<MagnetPowerUp>, ghost ds: seq<EnemyView>)
      requires Valid() && MagnetsFor(gameState.magnetPowerUps, m0, ds)
      modifies gameState`magnetPowerUps
      ensures Valid() && MagnetsFor(gameState.magnetPowerUps, m0, ds + [e.View()])
    {
      ghost var pickups := gameState.magnetPowerUps;
      SpawnMagnetPowerUp(e.x, e.y);
      assert gameState.magnetPowerUps == pickups + [gameState.magnetPowerUps[|pickups|]];
      MagnetsForSnoc(pickups, m0, ds, gameState.magnetPowerUps[|pickups|], e.View());
    }

    // -------------------------------------------------------------------------------------
    // The magnet effect and the pickups

    /** The countdown of the collected magnet effect, as `MagnetTick` states it. */
    method CountDownMagnet(dt: real)
      modifies gameState`activeMagnetRadius, gameState`activeMagnetDuration
      ensures gameState.activeMagnetRadius == MagnetTick(old(gameState.activeMagnetRadius), old(gameState.activeMagnetDuration), dt).0
      ensures gameState.activeMagnetDuration == MagnetTick(old(gameState.activeMagnetRadius), old(gameState.activeMagnetDuration), dt).1
    {
      if gameState.activeMagnetDuration > 0.0 {
        gameState.activeMagnetDuration := gameState.activeMagnetDuration - dt;
        if gameState.activeMagnetDuration <= 0.0 {
          gameState.activeMagnetRadius := 0.0;
        }
      }
    }

    /** The gem filter: with the larger of the player's own and the effect's radius, every
        gem is first pulled as `GemMoved` states, then collected when it touches the player,
        handing over its value; the gems not collected stay, in order. */
    method CollectGems(m: MathLib, dt: real, player: Player) returns (ghost taken: seq<bool>)
      requires m.Valid() && Valid()
      modifies gameState`experienceGems, gameState.experienceGems, player`experienceGained
      ensures Valid()
      ensures |taken| == |old(gameState.experienceGems)|
      ensures gameState.experienceGems == Keep(old(gameState.experienceGems), Not(taken))
      ensures player.experienceGained == old(player.experienceGained) + Keep(GemValues(old(gameState.experienceGems)), taken)
      ensures var gs := old(gameState.experienceGems);
        && Positions(gs) == AllMoved(m, old(Positions(gs)), player.x, player.y,
                                     EffectiveRadius(player.baseMagnetRadius, gameState.activeMagnetRadius), dt)
        && taken == GemsTouching(m, gs, player.x, player.y, player.size)
    {
      var radius := EffectiveRadius(player.baseMagnetRadius, gameState.activeMagnetRadius);
      var gs := gameState.experienceGems;
      var kept;
      kept, taken := SweepGems(m, dt, player, gs, radius);
      KeepDistinct(gs, Not(taken));
      gameState.experienceGems := kept;
    }

    /** The loop of `CollectGems` over the list `gs`. */
    static method SweepGems(m: MathLib, dt: real, player: Player, gs: seq<ExperienceGem>, radius: real)
      returns (kept: seq<ExperienceGem>, ghost taken: seq<bool>)
      requires m.Valid() && Distinct(gs)
      modifies gs, player`experienceGained
      ensures |taken| == |gs| && kept == Keep(gs, Not(taken))
      ensures player.experienceGained == old(player.experienceGained) + Keep(GemValues(gs), taken)
      ensures Positions(gs) == AllMoved(m, old(Positions(gs)), player.x, player.y, radius, dt)
      ensures taken == GemsTouching(m, gs, player.x, player.y, player.size)
    {
      ghost var p0 := Positions(gs);
      ghost var p1: seq<(real, real)> := [];
      ghost var exp0 := player.experienceGained;
      ghost var stays := [];
      var px, py, psize := player.x, player.y, player.size;
      kept, taken := [], [];
      var i := 0;
      while i < |gs|
        invariant 0 <= i <= |gs| && |taken| == |stays| == |p1| == i && kept == Keep(gs[..i], stays)
        invariant player.experienceGained == exp0 + Keep(GemValues(gs)[..i], taken)
        invariant forall k :: 0 <= k < i ==> gs[k].Position() == p1[k]
        invariant forall k :: i <= k < |gs| ==> gs[k].Position() == p0[k]
        invariant forall k :: 0 <= k < i ==> GemFate(m, gs[k], p0[k], p1[k], dt, px, py, psize, radius, taken[k], stays[k])
      {
        kept, taken, stays, p1 := SweepGemAt(m, dt, player, px, py, psize, radius, gs, i, p0, exp0, kept, taken, stays, p1);
        i := i + 1;
      }
      assert gs[..|gs|] == gs && GemValues(gs)[..|gs|] == GemValues(gs);
      assert stays == Not(taken);
      SweepDone(m, gs, p0, p1, dt, px, py, psize, radius, taken, stays);
    }

    /** The fates of all the gems, gathered into the snapshots `SweepGems` promises. */
    static lemma SweepDone(m: MathLib, gs: seq<ExperienceGem>, p0: seq<(real, real)>, p1: seq<(real, real)>, dt: real,
                           px: real, py: real, psize: real, radius: real, taken: seq<bool>, stays: seq<bool>)
      requires m.Valid() && |gs| == |p0| == |p1| == |taken| == |stays|
      requires forall k :: 0 <= k < |gs| ==> gs[k].Position() == p1[k]
      requires forall k :: 0 <= k < |gs| ==> GemFate(m, gs[k], p0[k], p1[k], dt, px, py, psize, radius, taken[k], stays[k])
      ensures Positions(gs) == AllMoved(m, p0, px, py, radius, dt)
      ensures taken == GemsTouching(m, gs, px, py, psize)
    {
      forall k | 0 <= k < |gs|
        ensures Positions(gs)[k] == AllMoved(m, p0, px, py, radius, dt)[k]
        ensures taken[k] == GemsTouching(m, gs, px, py, psize)[k]
      {
        assert GemFate(m, gs[k], p0[k], p1[k], dt, px, py, psize, radius, taken[k], stays[k]);
      }
    }

    /** What one turn of the gem loop did to the gem `g`: it moved from `p0` to `p1`, and
        its flags say whether the player at `(px, py)` collected it and whether it stays. */
    static ghost predicate GemFate(m: MathLib, g: ExperienceGem, p0: (real, real), p1: (real, real), dt: real,
                                   px: real, py: real, psize: real, radius: real, taken: bool, stays: bool)
      requires m.Valid()
    {
      && p1 == GemMoved(m, p0.0, p0.1, px, py, radius, dt)
      && (taken <==> ExperienceGems.TouchesAt(m, g, p1, px, py, psize))
      && (stays <==> !taken)
    }

    /** The fates of the first `|p1|` gems extended by the next one's. */
    static lemma GemFateSnoc(m: MathLib, gs: seq<ExperienceGem>, p0: seq<(real, real)>, p1: seq<(real, real)>, dt: real,
                             px: real, py: real, psize: real, radius: real, taken: seq<bool>, stays: seq<bool>,
                             p: (real, real), t: bool, st: bool)
      requires m.Valid() && |p1| < |gs| == |p0| && |taken| == |stays| == |p1|
      requires forall k :: 0 <= k < |p1| ==> GemFate(m, gs[k], p0[k], p1[k], dt, px, py, psize, radius, taken[k], stays[k])
      requires GemFate(m, gs[|p1|], p0[|p1|], p, dt, px, py, psize, radius, t, st)
      ensures forall k :: 0 <= k < |p1| + 1 ==>
        GemFate(m, gs[k], p0[k], (p1 + [p])[k], dt, px, py, psize, radius, (taken + [t])[k], (stays + [st])[k])
    {
      forall k | 0 <= k < |p1| + 1
        ensures GemFate(m, gs[k], p0[k], (p1 + [p])[k], dt, px, py, psize, radius, (taken + [t])[k], (stays + [st])[k])
      {
        if k < |p1| {
          assert (p1 + [p])[k] == p1[k] && (taken + [t])[k] == taken[k] && (stays + [st])[k] == stays[k];
        }
      }
    }

    /** One turn of the `SweepGems` loop, stated as the loop invariant before and after. */
    static method SweepGemAt(m: MathLib, dt: real, player: Player, px: real, py: real, psize: real, radius: real,
                             gs: seq<ExperienceGem>, i: nat, ghost p0: seq<(real, real)>, ghost exp0: seq<int>,
                             kept: seq<ExperienceGem>, ghost taken: seq<bool>, ghost stays: seq<bool>,
                             ghost p1: seq<(real, real)>)
      returns (kept': seq<ExperienceGem>, ghost taken': seq<bool>, ghost stays': seq<bool>, ghost p1': seq<(real, real)>)
      requires m.Valid() && Distinct(gs) && i < |gs| == |p0|
      requires |taken| == |stays| == |p1| == i && kept == Keep(gs[..i], stays)
      requires px == player.x && py == player.y && psize == player.size
      requires player.experienceGained == exp0 + Keep(GemValues(gs)[..i], taken)
      requires forall k :: 0 <= k < i ==> gs[k].Position() == p1[k]
      requires forall k :: i <= k < |gs| ==> gs[k].Position() == p0[k]
      requires forall k :: 0 <= k < i ==> GemFate(m, gs[k], p0[k], p1[k], dt, px, py, psize, radius, taken[k], stays[k])
      modifies gs[i], player`experienceGained
      ensures |taken'| == |stays'| == |p1'| == i + 1 && kept' == Keep(gs[..i + 1], stays')
      ensures player.experienceGained == exp0 + Keep(GemValues(gs)[..i + 1], taken')
      ensures forall k :: 0 <= k < i + 1 ==> gs[k].Position() == p1'[k]
      ensures forall k :: i + 1 <= k < |gs| ==> gs[k].Position() == p0[k]
      ensures forall k :: 0 <= k < i + 1 ==> GemFate(m, gs[k], p0[k], p1'[k], dt, px, py, psize, radius, taken'[k], stays'[k])
    {
      var t;
      ghost var p;
      t, p := StepGem(m, dt, player, px, py, psize, radius, gs, i, p0, p1, exp0, taken);
      GemFateSnoc(m, gs, p0, p1, dt, px, py, psize, radius, taken, stays, p, t, !t);
      KeepPrefixSnoc(gs, stays, i, !t);
      kept' := if t then kept else kept + [gs[i]];
      taken', stays', p1' := taken + [t], stays + [!t], p1 + [p];
    }

    /** The `i`-th gem is pulled when it is strictly inside the radius, and collected when
        it then touches the player. */
    static method StepGem(m: MathLib, dt: real, player: Player, px: real, py: real, psize: real, radius: real,
                          gs: seq<ExperienceGem>, i: nat, ghost p0: seq<(real, real)>, ghost p1: seq<(real, real)>,
                          ghost exp0: seq<int>, ghost taken: seq<bool>)
      returns (t: bool, ghost p: (real, real))
      requires m.Valid() && Distinct(gs) && i < |gs| == |p0| && |p1| == |taken| == i
      requires px == player.x && py == player.y && psize == player.size
      requires player.experienceGained == exp0 + Keep(GemValues(gs)[..i], taken)
      requires forall k :: 0 <= k < i ==> gs[k].Position() == p1[k]
      requires forall k :: i <= k < |gs| ==> gs[k].Position() == p0[k]
      modifies gs[i], player`experienceGained
      ensures GemFate(m, gs[i], p0[i], p, dt, px, py, psize, radius, t, !t)
      ensures player.experienceGained == exp0 + Keep(GemValues(gs)[..i + 1], taken + [t])
      ensures forall k :: 0 <= k < i + 1 ==> gs[k].Position() == (p1 + [p])[k]
      ensures forall k :: i + 1 <= k < |gs| ==> gs[k].Position() == p0[k]
    {
      var g := gs[i];
      if radius > 0.0 {
        var dx := px - g.x;
        var dy := py - g.y;
        var distance := m.Dist(dx, dy);
        if distance < radius {
          g.PullTowards(m, px, py, dt);
        }
      }
      t := false;
      if g.Collides(m, px, py, psize) {
        player.GainExperience(g.value);
        t := true;
      }
      p := g.Position();
      forall k | 0 <= k < i + 1
        ensures gs[k].Position() == (p1 + [p])[k]
      {
        if k < i {
          assert (p1 + [p])[k] == p1[k];
        }
      }
      KeepSnoc(GemValues(gs)[..i], taken, g.value, t);
      assert GemValues(gs)[..i + 1] == GemValues(gs)[..i] + [g.value];
    }

    /** The magnet-pickup filter: a pickup the player touches sets the effect to its radius
        and duration and is removed, so the last one touched wins; the rest stay, in order. */
    method CollectMagnets(m: MathLib, player: Player) returns (ghost taken: seq<bool>)
      requires m.Valid() && Valid()
      modifies gameState`magnetPowerUps, gameState`activeMagnetRadius, gameState`activeMagnetDuration
      ensures Valid()
      ensures |taken| == |old(gameState.magnetPowerUps)|
      ensures gameState.magnetPowerUps == Keep(old(gameState.magnetPowerUps), Not(taken))
      ensures forall k :: 0 <= k < |taken| ==> (taken[k] <==> old(gameState.magnetPowerUps)[k].Collides(m, player.x, player.y, player.size))
      ensures var ms := old(gameState.magnetPowerUps);
        var effect := LastPickup(old(gameState.activeMagnetRadius), old(gameState.activeMagnetDuration),
                                 MagnetRadii(ms), MagnetDurations(ms), taken);
        gameState.activeMagnetRadius == effect.0 && gameState.activeMagnetDuration == effect.1
    {
      var ms := gameState.magnetPowerUps;
      var kept, radius, duration;
      kept, radius, duration, taken := TakeMagnets(m, player, ms, gameState.activeMagnetRadius, gameState.activeMagnetDuration);
      KeepDistinct(ms, Not(taken));
      gameState.magnetPowerUps := kept;
      gameState.activeMagnetRadius := radius;
      gameState.activeMagnetDuration := duration;
    }

    /** The loop of `CollectMagnets` over the list `ms`, starting from the effect
        `(radius, duration)`. */
    static method TakeMagnets(m: MathLib, player: Player, ms: seq<MagnetPowerUp>, radius: real, duration: real)
      returns (kept: seq<MagnetPowerUp>, radius': real, duration': real, ghost taken: seq<bool>)
      requires m.Valid()
      ensures |taken| == |ms| && kept == Keep(ms, Not(taken))
      ensures forall k :: 0 <= k < |ms| ==> (taken[k] <==> ms[k].Collides(m, player.x, player.y, player.size))
      ensures radius' == LastPickup(radius, duration, MagnetRadii(ms), MagnetDurations(ms), taken).0
      ensures duration' == LastPickup(radius, duration, MagnetRadii(ms), MagnetDurations(ms), taken).1
    {
      ghost var radii, durations := MagnetRadii(ms), MagnetDurations(ms);
      kept, radius', duration', taken := [], radius, duration, [];
      var i := 0;
      while i < |ms|
        invariant 0 <= i <= |ms| && |taken| == i && kept == Keep(ms[..i], Not(taken))
        invariant forall k :: 0 <= k < i ==> (taken[k] <==> ms[k].Collides(m, player.x, player.y, player.size))
        invariant (radius', duration') == LastPickup(radius, duration, radii[..i], durations[..i], taken)
      {
        kept, radius', duration', taken := TakeMagnetAt(m, player, ms, radius, duration, radii, durations, i,
                                                        kept, radius', duration', taken);
        i := i + 1;
      }
      assert ms[..|ms|] == ms && radii[..|ms|] == radii && durations[..|ms|] == durations;
    }

    /** One turn of `TakeMagnets`, stated as its loop invariant before and after. */
    static method TakeMagnetAt(m: MathLib, player: Player, ms: seq<MagnetPowerUp>, radius: real, duration: real,
                               ghost radii: seq<real>, ghost durations: seq<real>, i: nat,
                               kept: seq<MagnetPowerUp>, r: real, d: real, ghost taken: seq<bool>)
      returns (kept': seq<MagnetPowerUp>, r': real, d': real, ghost taken': seq<bool>)
      requires m.Valid() && i < |ms| && radii == MagnetRadii(ms) && durations == MagnetDurations(ms)
      requires |taken| == i && kept == Keep(ms[..i], Not(taken))
      requires forall k :: 0 <= k < i ==> (taken[k] <==> ms[k].Collides(m, player.x, player.y, player.size))
      requires (r, d) == LastPickup(radius, duration, radii[..i], durations[..i], taken)
      ensures |taken'| == i + 1 && kept' == Keep(ms[..i + 1], Not(taken'))
      ensures forall k :: 0 <= k < i + 1 ==> (taken'[k] <==> ms[k].Collides(m, player.x, player.y, player.size))
      ensures (r', d') == LastPickup(radius, duration, radii[..i + 1], durations[..i + 1], taken')
    {
      var t := ms[i].Collides(m, player.x, player.y, player.size);
      NotSnoc(taken, t);
      KeepPrefixSnoc(ms, Not(taken), i, !t);
      LastPickupStep(radius, duration, radii, durations, taken, i, t);
      kept', r', d' := if t then kept else kept + [ms[i]], if t then ms[i].radius else r, if t then ms[i].duration else d;
      taken' := taken + [t];
    }

    /** `reset()`: the six lists empty and no current boss; everything else stays. */
    method Reset()
      requires Valid()
      modifies gameState`enemies, gameState`experienceGems, gameState`magnetPowerUps, gameState`damageNumbers
      modifies gameState`activeBossAttackVisuals, gameState`bossProjectiles, gameState`currentBoss
      ensures gameState.enemies == [] && gameState.experienceGems == [] && gameState.magnetPowerUps == []
      ensures gameState.damageNumbers == [] && gameState.activeBossAttackVisuals == [] && gameState.bossProjectiles == []
      ensures gameState.currentBoss == None
      ensures Valid()
    {
      gameState.enemies := [];
      gameState.experienceGems := [];
      gameState.magnetPowerUps := [];
      gameState.damageNumbers := [];
      gameState.activeBossAttackVisuals := [];
      gameState.bossProjectiles := [];
      gameState.currentBoss := None;
    }
  }
}
