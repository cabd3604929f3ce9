/** The spinning-blade weapon (src/game/SpinningBladeWeapon.ts): evenly spaced blades orbit
    the player and damage the living enemies they touch, throttled by a table of last hit
    times that is swept at the end of every update. The game keys that table by the enemy's
    position and the blade's angle; the sweep is also defined for one key per enemy and
    blade, the keying the table is meant to have, so that the two can be compared. */
module SpinningBladeWeapons {
  import opened Geometry
  import opened Events
  import opened Seqs
  import opened Enemies
  import opened SpinningBlades

  /** How often a blade may hit the same enemy, in seconds. */
  const AttackCooldown: real := 0.2

  /** A key of the hit table. `SourceKey` is the key the game builds,
      `${enemy.x}_${enemy.y}_${blade.angle}`: numbers print distinctly and never contain `_`,
      so the string amounts to this triple. `PairKey` is one key per enemy and blade. */
  datatype HitKey = SourceKey(x: real, y: real, angle: real) | PairKey(enemy: Enemy, blade: SpinningBlade)

  /** How the table is keyed: as the game does it, or per enemy and blade. */
  datatype Keying = PositionAndAngle | EnemyAndBlade

  /** The key for blade `b`, now at `bv`, meeting enemy `e`, now at `v`. */
  function KeyOf(keying: Keying, e: Enemy, v: EnemyView, b: SpinningBlade, bv: BladeView): HitKey {
    match keying
    case PositionAndAngle => SourceKey(v.x, v.y, bv.angle)
    case EnemyAndBlade => PairKey(e, b)
  }

  /** The gate: no entry for the key, or the entry is older than the cooldown. */
  predicate MayHit<K>(table: map<K, real>, key: K, now: real, cooldown: real) {
    key !in table || now - table[key] > cooldown
  }

  /** The table after the sweep at time `now`: the entries older than twice the cooldown
      are gone. */
  function Swept<K>(table: map<K, real>, now: real, cooldown: real): map<K, real> {
    map k | k in table && now - table[k] <= cooldown * 2.0 :: table[k]
  }

  /** After the sweep every entry is at most twice the cooldown old, and the sweep removes
      nothing younger. */
  lemma SweptBounded<K>(table: map<K, real>, now: real, cooldown: real)
    ensures forall k :: k in Swept(table, now, cooldown) ==> now - Swept(table, now, cooldown)[k] <= cooldown * 2.0
    ensures forall k :: k in table && now - table[k] <= cooldown * 2.0 ==> k in Swept(table, now, cooldown) && Swept(table, now, cooldown)[k] == table[k]
    ensures forall k :: k in Swept(table, now, cooldown) ==> k in table
  {
  }

  // ---------------------------------------------------------------------------------------
  // The sweep over enemies and blades, as values

  /** The state the update threads through its loops: the enemies, the hit table and the
      event log. */
  datatype Sweep = Sweep(views: seq<EnemyView>, table: map<HitKey, real>, hits: seq<Hit>, defeats: nat)

  /** Blade `b`, now at `bv`, meets enemy `e`, now at `s.views[j]`. */
  function EnemyStep(m: MathLib, keying: Keying, bv: BladeView, b: SpinningBlade, e: Enemy, s: Sweep, j: nat, now: real): (r: Sweep)
    requires m.Valid() && j < |s.views|
    ensures |r.views| == |s.views|
  {
    var v := s.views[j];
    var key := KeyOf(keying, e, v, b, bv);
    if Alive(v) && Touches(m, bv, v.x, v.y, v.size) && MayHit(s.table, key, now, AttackCooldown) then
      Sweep(s.views[j := Damaged(v, bv.damage)], s.table[key := now], s.hits + [Hit(v.x, v.y, bv.damage)],
            s.defeats + if DefeatReported(v, bv.damage) then 1 else 0)
    else s
  }

  /** Blade `b` at `bv` meets the first `n` enemies in list order. */
  function EnemyPass(m: MathLib, keying: Keying, bv: BladeView, b: SpinningBlade, es: seq<Enemy>, s: Sweep, n: nat, now: real): (r: Sweep)
    requires m.Valid() && n <= |es| == |s.views|
    ensures |r.views| == |s.views|
  {
    if n == 0 then s else EnemyStep(m, keying, bv, b, es[n - 1], EnemyPass(m, keying, bv, b, es, s, n - 1, now), n - 1, now)
  }

  /** The first `n` blades, each moved first and then passed over every enemy. */
  function BladePass(m: MathLib, keying: Keying, bvs: seq<BladeView>, bs: seq<SpinningBlade>, es: seq<Enemy>, s: Sweep, n: nat,
                     dt: real, px: real, py: real, now: real): (r: Sweep)
    requires m.Valid() && n <= |bvs| && n <= |bs| && |es| == |s.views|
    ensures |r.views| == |s.views|
  {
    if n == 0 then s
    else EnemyPass(m, keying, BladeMoved(m, bvs[n - 1], dt, px, py), bs[n - 1], es,
                   BladePass(m, keying, bvs, bs, es, s, n - 1, dt, px, py, now), |es|, now)
  }

  /** One whole update of the weapon over the views `bvs` of its blades `bs`: every blade's
      pass, then the sweep of the table. */
  function Frame(m: MathLib, keying: Keying, bvs: seq<BladeView>, bs: seq<SpinningBlade>, es: seq<Enemy>, s: Sweep,
                 dt: real, px: real, py: real, now: real): (r: Sweep)
    requires m.Valid() && |bvs| == |bs| && |es| == |s.views|
    ensures |r.views| == |s.views|
  {
    var t := BladePass(m, keying, bvs, bs, es, s, |bs|, dt, px, py, now);
    t.(table := Swept(t.table, now, AttackCooldown))
  }

  /** A blade hits an enemy only when the enemy is alive, touches the blade and passes the
      gate; the hit deals the blade's damage, refreshes the key's time to `now` and logs one
      hit; nothing else changes. */
  lemma EnemyStepGate(m: MathLib, keying: Keying, bv: BladeView, b: SpinningBlade, e: Enemy, s: Sweep, j: nat, now: real)
    requires m.Valid() && j < |s.views|
    ensures var r := EnemyStep(m, keying, bv, b, e, s, j, now);
      var key := KeyOf(keying, e, s.views[j], b, bv);
      var hit := Alive(s.views[j]) && Touches(m, bv, s.views[j].x, s.views[j].y, s.views[j].size) && MayHit(s.table, key, now, AttackCooldown);
      && (hit ==> r.views[j] == Damaged(s.views[j], bv.damage) && key in r.table && r.table[key] == now
                  && |r.hits| == |s.hits| + 1 && r.hits[|s.hits|] == Hit(s.views[j].x, s.views[j].y, bv.damage))
      && (!hit ==> r == s)
      && (forall k :: 0 <= k < |s.views| && k != j ==> r.views[k] == s.views[k])
      && (forall k :: k in s.table && k != key ==> k in r.table && r.table[k] == s.table[k])
  {
  }

  /** One blade's pass leaves every enemy's position and everything but health and hit flash
      alone, and never raises health. */
  lemma {:induction false} EnemyPassOnlyDamages(m: MathLib, keying: Keying, bv: BladeView, b: SpinningBlade, es: seq<Enemy>, s: Sweep, n: nat, now: real)
    requires m.Valid() && n <= |es| == |s.views|
    ensures var r := EnemyPass(m, keying, bv, b, es, s, n, now);
      forall k :: 0 <= k < |s.views| ==>
        && r.views[k] == s.views[k].(health := r.views[k].health, hitTimer := r.views[k].hitTimer)
        && (0.0 <= bv.damage ==> r.views[k].health <= s.views[k].health)
  {
    if n > 0 {
      EnemyPassOnlyDamages(m, keying, bv, b, es, s, n - 1, now);
      var t := EnemyPass(m, keying, bv, b, es, s, n - 1, now);
      var r := EnemyStep(m, keying, bv, b, es[n - 1], t, n - 1, now);
      forall k | 0 <= k < |s.views|
        ensures r.views[k] == s.views[k].(health := r.views[k].health, hitTimer := r.views[k].hitTimer)
        ensures 0.0 <= bv.damage ==> r.views[k].health <= s.views[k].health
      {
        assert r.views[k] == t.views[k].(health := r.views[k].health, hitTimer := r.views[k].hitTimer);
      }
    }
  }

  // ---------------------------------------------------------------------------------------
  // The finding: the game's key changes every frame

  /** A frame of one blade over one enemy is that blade's single step, then the sweep. */
  lemma OneBladeOneEnemy(m: MathLib, keying: Keying, bv: BladeView, b: SpinningBlade, e: Enemy, s: Sweep,
                         dt: real, px: real, py: real, now: real)
    requires m.Valid() && |s.views| == 1
    ensures var t := EnemyStep(m, keying, BladeMoved(m, bv, dt, px, py), b, e, s, 0, now);
      Frame(m, keying, [bv], [b], [e], s, dt, px, py, now) == t.(table := Swept(t.table, now, AttackCooldown))
  {
    var turned := BladeMoved(m, bv, dt, px, py);
    assert BladePass(m, keying, [bv], [b], [e], s, 0, dt, px, py, now) == s;
    assert EnemyPass(m, keying, turned, b, [e], s, 0, now) == s;
    assert EnemyPass(m, keying, turned, b, [e], s, 1, now) == EnemyStep(m, keying, turned, b, e, s, 0, now);
  }

  /** A frame of one blade over two enemies is that blade's two steps in order, then the
      sweep. */
  lemma OneBladeTwoEnemies(m: MathLib, keying: Keying, bv: BladeView, b: SpinningBlade, e1: Enemy, e2: Enemy, s: Sweep,
                           dt: real, px: real, py: real, now: real)
    requires m.Valid() && |s.views| == 2
    ensures var turned := BladeMoved(m, bv, dt, px, py);
      var t := EnemyStep(m, keying, turned, b, e2, EnemyStep(m, keying, turned, b, e1, s, 0, now), 1, now);
      Frame(m, keying, [bv], [b], [e1, e2], s, dt, px, py, now) == t.(table := Swept(t.table, now, AttackCooldown))
  {
    var turned := BladeMoved(m, bv, dt, px, py);
    assert BladePass(m, keying, [bv], [b], [e1, e2], s, 0, dt, px, py, now) == s;
    assert EnemyPass(m, keying, turned, b, [e1, e2], s, 0, now) == s;
    assert EnemyPass(m, keying, turned, b, [e1, e2], s, 1, now) == EnemyStep(m, keying, turned, b, e1, s, 0, now);
  }

  /** As the game keys the table: a blade that turns builds a new key every frame, so a
      standing enemy it touches on two frames in a row is hit on both, however close together
      the frames are, although the cooldown is 0.2 s. */
  lemma TurningBladeHitsAgain(m: MathLib, bv: BladeView, b: SpinningBlade, e: Enemy, v: EnemyView,
                              table: map<HitKey, real>, hits: seq<Hit>, defeats: nat,
                              dt: real, px: real, py: real, now1: real, now2: real)
    requires m.Valid() && bv.rotationSpeed * dt != 0.0
    requires Alive(v) && Alive(Damaged(v, bv.damage))
    requires Touches(m, BladeMoved(m, bv, dt, px, py), v.x, v.y, v.size)
    requires Touches(m, BladeMoved(m, BladeMoved(m, bv, dt, px, py), dt, px, py), v.x, v.y, v.size)
    requires SourceKey(v.x, v.y, BladeMoved(m, bv, dt, px, py).angle) !in table
    requires SourceKey(v.x, v.y, BladeMoved(m, BladeMoved(m, bv, dt, px, py), dt, px, py).angle) !in table
    ensures var s1 := Frame(m, PositionAndAngle, [bv], [b], [e], Sweep([v], table, hits, defeats), dt, px, py, now1);
      var s2 := Frame(m, PositionAndAngle, [BladeMoved(m, bv, dt, px, py)], [b], [e], s1, dt, px, py, now2);
      && s1.views == [Damaged(v, bv.damage)]
      && s2.views == [Damaged(Damaged(v, bv.damage), bv.damage)]
  {
    var turned1 := BladeMoved(m, bv, dt, px, py);
    var turned2 := BladeMoved(m, turned1, dt, px, py);
    var s0 := Sweep([v], table, hits, defeats);
    OneBladeOneEnemy(m, PositionAndAngle, bv, b, e, s0, dt, px, py, now1);
    var t1 := EnemyStep(m, PositionAndAngle, turned1, b, e, s0, 0, now1);
    assert t1.views == [Damaged(v, bv.damage)];
    assert t1.table.Keys == table.Keys + {SourceKey(v.x, v.y, turned1.angle)};
    var s1 := t1.(table := Swept(t1.table, now1, AttackCooldown));
    assert turned2.angle != turned1.angle;
    assert SourceKey(v.x, v.y, turned2.angle) !in s1.table;
    OneBladeOneEnemy(m, PositionAndAngle, turned1, b, e, s1, dt, px, py, now2);
  }

  /** As the game keys the table: two enemies standing on the same spot share a key, so a
      blade touching both in one frame hits only the first. */
  lemma SharedSpotThrottles(m: MathLib, bv: BladeView, b: SpinningBlade, e1: Enemy, e2: Enemy, v1: EnemyView, v2: EnemyView,
                            table: map<HitKey, real>, hits: seq<Hit>, defeats: nat,
                            dt: real, px: real, py: real, now: real)
    requires m.Valid() && v1.x == v2.x && v1.y == v2.y && Alive(v1) && Alive(v2)
    requires Touches(m, BladeMoved(m, bv, dt, px, py), v1.x, v1.y, v1.size)
    requires SourceKey(v1.x, v1.y, BladeMoved(m, bv, dt, px, py).angle) !in table
    ensures Frame(m, PositionAndAngle, [bv], [b], [e1, e2], Sweep([v1, v2], table, hits, defeats), dt, px, py, now).views
            == [Damaged(v1, bv.damage), v2]
  {
    var turned := BladeMoved(m, bv, dt, px, py);
    var s0 := Sweep([v1, v2], table, hits, defeats);
    OneBladeTwoEnemies(m, PositionAndAngle, bv, b, e1, e2, s0, dt, px, py, now);
    var t1 := EnemyStep(m, PositionAndAngle, turned, b, e1, s0, 0, now);
    assert t1.views == [Damaged(v1, bv.damage), v2];
    assert KeyOf(PositionAndAngle, e2, t1.views[1], b, turned) == SourceKey(v1.x, v1.y, turned.angle);
    assert SourceKey(v1.x, v1.y, turned.angle) in t1.table && t1.table[SourceKey(v1.x, v1.y, turned.angle)] == now;
  }

  /** Keyed per enemy and blade, the same two frames hit the enemy once: the second frame
      comes within the cooldown and the pair's entry is still in the table. */
  lemma PairKeyHitsOnce(m: MathLib, bv: BladeView, b: SpinningBlade, e: Enemy, v: EnemyView,
                        table: map<HitKey, real>, hits: seq<Hit>, defeats: nat,
                        dt: real, px: real, py: real, now1: real, now2: real)
    requires m.Valid() && Alive(v) && Touches(m, BladeMoved(m, bv, dt, px, py), v.x, v.y, v.size)
    requires PairKey(e, b) !in table
    requires now1 <= now2 <= now1 + AttackCooldown
    ensures var s1 := Frame(m, EnemyAndBlade, [bv], [b], [e], Sweep([v], table, hits, defeats), dt, px, py, now1);
      var s2 := Frame(m, EnemyAndBlade, [BladeMoved(m, bv, dt, px, py)], [b], [e], s1, dt, px, py, now2);
      && s1.views == [Damaged(v, bv.damage)]
      && s2.views == s1.views
  {
    var turned1 := BladeMoved(m, bv, dt, px, py);
    var s0 := Sweep([v], table, hits, defeats);
    OneBladeOneEnemy(m, EnemyAndBlade, bv, b, e, s0, dt, px, py, now1);
    var t1 := EnemyStep(m, EnemyAndBlade, turned1, b, e, s0, 0, now1);
    assert PairKey(e, b) in t1.table && t1.table[PairKey(e, b)] == now1;
    var s1 := t1.(table := Swept(t1.table, now1, AttackCooldown));
    assert PairKey(e, b) in s1.table && s1.table[PairKey(e, b)] == now1;
    OneBladeOneEnemy(m, EnemyAndBlade, turned1, b, e, s1, dt, px, py, now2);
  }

  /** Keyed per enemy and blade, two distinct enemies on one spot are both hit. */
  lemma PairKeySeparatesSpot(m: MathLib, bv: BladeView, b: SpinningBlade, e1: Enemy, e2: Enemy, v1: EnemyView, v2: EnemyView,
                             table: map<HitKey, real>, hits: seq<Hit>, defeats: nat,
                             dt: real, px: real, py: real, now: real)
    requires m.Valid() && e1 != e2 && v1.x == v2.x && v1.y == v2.y && v1.size == v2.size && Alive(v1) && Alive(v2)
    requires Touches(m, BladeMoved(m, bv, dt, px, py), v1.x, v1.y, v1.size)
    requires PairKey(e1, b) !in table && PairKey(e2, b) !in table
    ensures Frame(m, EnemyAndBlade, [bv], [b], [e1, e2], Sweep([v1, v2], table, hits, defeats), dt, px, py, now).views
            == [Damaged(v1, bv.damage), Damaged(v2, bv.damage)]
  {
    var turned := BladeMoved(m, bv, dt, px, py);
    var s0 := Sweep([v1, v2], table, hits, defeats);
    OneBladeTwoEnemies(m, EnemyAndBlade, bv, b, e1, e2, s0, dt, px, py, now);
    var t1 := EnemyStep(m, EnemyAndBlade, turned, b, e1, s0, 0, now);
    assert t1.views == [Damaged(v1, bv.damage), v2];
    assert PairKey(e2, b) !in t1.table;
  }

  /** A key that stays the same from frame to frame, as one per enemy and blade does: once
      hit at time `t` it fails the gate while at most one cooldown has passed, whatever sweeps
      ran in between at times up to `now`. */
  lemma {:induction false} StableKeyThrottles(table: map<HitKey, real>, key: HitKey, t: real, sweeps: seq<real>, now: real)
    requires key in table && table[key] == t
    requires t <= now <= t + AttackCooldown
    requires forall i :: 0 <= i < |sweeps| ==> t <= sweeps[i] <= now
    ensures key in SweptAll(table, sweeps) && SweptAll(table, sweeps)[key] == t
    ensures !MayHit(SweptAll(table, sweeps), key, now, AttackCooldown)
  {
    if sweeps != [] {
      StableKeyThrottles(table, key, t, sweeps[..|sweeps| - 1], now);
    }
  }

  /** The table after sweeps at the given times. */
  function SweptAll<K>(table: map<K, real>, sweeps: seq<real>): map<K, real> {
    if sweeps == [] then table else Swept(SweptAll(table, sweeps[..|sweeps| - 1]), sweeps[|sweeps| - 1], AttackCooldown)
  }

  // ---------------------------------------------------------------------------------------
  // The class

  class SpinningBladeWeapon {
    var blades: seq<SpinningBlade>
    var baseDamage: real
    const orbitDistance: real
    const rotationSpeed: real
    const bladeRadius: real
    var numBlades: int
    const attackCooldown: real
    var lastHitTime: map<HitKey, real>

    /** The blade list is made of distinct blades, as many as `numBlades` says. */
    ghost predicate Valid()
      reads this
    {
      Distinct(blades) && |blades| == BladeCount(numBlades)
    }

    /** `new SpinningBladeWeapon(baseDamage, orbitDistance, rotationSpeed, bladeRadius, numBlades)`. */
    constructor (baseDamage: real, orbitDistance: real, rotationSpeed: real, bladeRadius: real, numBlades: int)
      ensures Valid() && fresh(blades)
      ensures this.baseDamage == baseDamage && this.orbitDistance == orbitDistance
      ensures this.rotationSpeed == rotationSpeed && this.bladeRadius == bladeRadius
      ensures this.numBlades == numBlades && attackCooldown == AttackCooldown && lastHitTime == map[]
      ensures forall i :: 0 <= i < |blades| ==> blades[i].View() == EvenBlade(i, numBlades, bladeRadius, baseDamage, orbitDistance, rotationSpeed)
    {
      this.baseDamage := baseDamage;
      this.orbitDistance := orbitDistance;
      this.rotationSpeed := rotationSpeed;
      this.bladeRadius := bladeRadius;
      this.numBlades := numBlades;
      attackCooldown := AttackCooldown;
      lastHitTime := map[];
      new;
      blades := CreateBlades();
    }

    /** `createBlades()`: `numBlades` fresh blades at angles `2 * PI / numBlades * i`. */
    method CreateBlades() returns (r: seq<SpinningBlade>)
      ensures |r| == BladeCount(numBlades)
      ensures Distinct(r)
      ensures fresh(r)
      ensures forall i :: 0 <= i < |r| ==> r[i].View() == EvenBlade(i, numBlades, bladeRadius, baseDamage, orbitDistance, rotationSpeed)
    {
      r := [];
      var i := 0;
      while i < numBlades
        invariant 0 <= i <= BladeCount(numBlades) && |r| == i
        invariant Distinct(r) && fresh(r)
        invariant forall k :: 0 <= k < i ==> r[k].View() == EvenBlade(k, numBlades, bladeRadius, baseDamage, orbitDistance, rotationSpeed)
      {
        var angle := (PI * 2.0 / (numBlades as real)) * (i as real);
        var blade := new SpinningBlade(orbitDistance, rotationSpeed, baseDamage, bladeRadius, angle);
        DistinctAppend(r, blade);
        r := r + [blade];
        i := i + 1;
      }
    }

    /** `update(dt, playerX, playerY, enemies)`, with `now` the clock reading
        `performance.now() / 1000` of this frame. */
    method Update(m: MathLib, dt: real, px: real, py: real, enemies: seq<Enemy>, now: real, log: EventLog)
      requires m.Valid() && Distinct(enemies) && Valid()
      modifies blades, enemies, this`lastHitTime, log`hits, log`bossDefeats
      ensures forall i :: 0 <= i < |blades| ==> blades[i].View() == BladeMoved(m, old(blades[i].View()), dt, px, py)
      ensures var s := Frame(m, PositionAndAngle, old(BladeViews(blades)), blades, enemies,
                             Sweep(old(Views(enemies)), old(lastHitTime), old(log.hits), old(log.bossDefeats)),
                             dt, px, py, now);
        && (forall k :: 0 <= k < |enemies| ==> enemies[k].View() == s.views[k])
        && lastHitTime == s.table
        && log.hits == s.hits
        && log.bossDefeats == s.defeats
    {
      var bs := blades;
      ghost var bvs := BladeViews(bs);
      ghost var s0 := Sweep(Views(enemies), lastHitTime, log.hits, log.bossDefeats);
      ghost var s := s0;
      var table := lastHitTime;
      var i := 0;
      while i < |bs|
        invariant 0 <= i <= |bs|
        invariant forall k :: 0 <= k < |bs| ==> bs[k].View() == if k < i then BladeMoved(m, bvs[k], dt, px, py) else bvs[k]
        invariant s == BladePass(m, PositionAndAngle, bvs, bs, enemies, s0, i, dt, px, py, now)
        invariant |s.views| == |enemies| && forall k :: 0 <= k < |enemies| ==> enemies[k].View() == s.views[k]
        invariant table == s.table && log.hits == s.hits && log.bossDefeats == s.defeats
      {
        table, s := TurnBlade(m, bs, i, bvs, dt, px, py, enemies, table, now, log, s0, s);
        i := i + 1;
      }
      lastHitTime := SweepTable(table, now);
    }

    /** One turn of the outer loop of `update`: blade `i` moves, then meets every enemy. */
    static method TurnBlade(m: MathLib, bs: seq<SpinningBlade>, i: nat, ghost bvs: seq<BladeView>, dt: real, px: real, py: real,
                            enemies: seq<Enemy>, table: map<HitKey, real>, now: real, log: EventLog,
                            ghost s0: Sweep, ghost s: Sweep)
      returns (table': map<HitKey, real>, ghost s': Sweep)
      requires m.Valid() && Distinct(enemies) && Distinct(bs) && i < |bs| == |bvs| && |s0.views| == |enemies|
      requires forall k :: 0 <= k < |bs| ==> bs[k].View() == if k < i then BladeMoved(m, bvs[k], dt, px, py) else bvs[k]
      requires s == BladePass(m, PositionAndAngle, bvs, bs, enemies, s0, i, dt, px, py, now)
      requires |s.views| == |enemies| && forall k :: 0 <= k < |enemies| ==> enemies[k].View() == s.views[k]
      requires table == s.table && log.hits == s.hits && log.bossDefeats == s.defeats
      modifies bs[i], enemies, log`hits, log`bossDefeats
      ensures forall k :: 0 <= k < |bs| ==> bs[k].View() == if k < i + 1 then BladeMoved(m, bvs[k], dt, px, py) else bvs[k]
      ensures s' == BladePass(m, PositionAndAngle, bvs, bs, enemies, s0, i + 1, dt, px, py, now)
      ensures |s'.views| == |enemies| && forall k :: 0 <= k < |enemies| ==> enemies[k].View() == s'.views[k]
      ensures table' == s'.table && log.hits == s'.hits && log.bossDefeats == s'.defeats
    {
      var blade := bs[i];
      blade.Update(m, dt, px, py);
      table', s' := PassEnemies(m, blade, enemies, table, now, log, s);
    }

    /** The inner loop of `update`: one blade, already moved, meets every enemy in order. */
    static method PassEnemies(m: MathLib, blade: SpinningBlade, enemies: seq<Enemy>, table: map<HitKey, real>,
                              now: real, log: EventLog, ghost s0: Sweep)
      returns (table': map<HitKey, real>, ghost s: Sweep)
      requires m.Valid() && Distinct(enemies) && |s0.views| == |enemies|
      requires forall k :: 0 <= k < |enemies| ==> enemies[k].View() == s0.views[k]
      requires table == s0.table && log.hits == s0.hits && log.bossDefeats == s0.defeats
      modifies enemies, log`hits, log`bossDefeats
      ensures s == EnemyPass(m, PositionAndAngle, blade.View(), blade, enemies, s0, |enemies|, now)
      ensures |s.views| == |enemies| && forall k :: 0 <= k < |enemies| ==> enemies[k].View() == s.views[k]
      ensures table' == s.table && log.hits == s.hits && log.bossDefeats == s.defeats
    {
      table' := table;
      s := s0;
      var j := 0;
      while j < |enemies|
        invariant 0 <= j <= |enemies|
        invariant s == EnemyPass(m, PositionAndAngle, blade.View(), blade, enemies, s0, j, now)
        invariant |s.views| == |enemies| && forall k :: 0 <= k < |enemies| ==> enemies[k].View() == s.views[k]
        invariant table' == s.table && log.hits == s.hits && log.bossDefeats == s.defeats
      {
        table', s := TryHit(m, blade, enemies, j, table', now, log, s);
        j := j + 1;
      }
    }

    /** The body of the inner loop for enemy `j`. */
    static method TryHit(m: MathLib, blade: SpinningBlade, enemies: seq<Enemy>, j: nat, table: map<HitKey, real>,
                         now: real, log: EventLog, ghost s0: Sweep)
      returns (table': map<HitKey, real>, ghost s: Sweep)
      requires m.Valid() && Distinct(enemies) && j < |enemies| == |s0.views|
      requires forall k :: 0 <= k < |enemies| ==> enemies[k].View() == s0.views[k]
      requires table == s0.table && log.hits == s0.hits && log.bossDefeats == s0.defeats
      modifies enemies[j], log`hits, log`bossDefeats
      ensures s == EnemyStep(m, PositionAndAngle, blade.View(), blade, enemies[j], s0, j, now)
      ensures |s.views| == |enemies| && forall k :: 0 <= k < |enemies| ==> enemies[k].View() == s.views[k]
      ensures table' == s.table && log.hits == s.hits && log.bossDefeats == s.defeats
    {
      table' := table;
      s := EnemyStep(m, PositionAndAngle, blade.View(), blade, enemies[j], s0, j, now);
      var enemy := enemies[j];
      if enemy.IsAlive() && blade.Collides(m, enemy.x, enemy.y, enemy.size) {
        var hitKey := SourceKey(enemy.x, enemy.y, blade.angle);
        if hitKey !in table' || now - table'[hitKey] > AttackCooldown {
          enemy.TakeDamage(blade.damage, log);
          table' := table'[hitKey := now];
        }
      }
    }

    /** The clean-up loop: deletes every entry older than twice the cooldown. */
    static method SweepTable(table: map<HitKey, real>, now: real) returns (r: map<HitKey, real>)
      ensures r == Swept(table, now, AttackCooldown)
    {
      r := table;
      var keys := table.Keys;
      while keys != {}
        invariant keys <= table.Keys
        invariant forall k :: k in r <==> k in table && (k in keys || now - table[k] <= AttackCooldown * 2.0)
        invariant forall k :: k in r ==> r[k] == table[k]
        decreases |keys|
      {
        var k :| k in keys;
        if now - table[k] > AttackCooldown * 2.0 {
          r := r - {k};
        }
        keys := keys - {k};
      }
    }

    /** `increaseDamage(amount)`: every blade now deals the new base damage. */
    method IncreaseDamage(amount: real)
      requires Valid()
      modifies this`baseDamage, blades
      ensures Valid() && baseDamage == old(baseDamage) + amount
      ensures forall i :: 0 <= i < |blades| ==> blades[i].View() == old(blades[i].View()).(damage := baseDamage)
    {
      baseDamage := baseDamage + amount;
      var i := 0;
      while i < |blades|
        invariant 0 <= i <= |blades| && baseDamage == old(baseDamage) + amount
        invariant forall k :: 0 <= k < i ==> blades[k].View() == old(blades[k].View()).(damage := baseDamage)
        invariant forall k :: i <= k < |blades| ==> blades[k].View() == old(blades[k].View())
      {
        blades[i].damage := baseDamage;
        i := i + 1;
      }
    }

    /** `addBlade()`: one more blade, and all of them rebuilt evenly spaced from angle 0. */
    method AddBlade()
      modifies this`numBlades, this`blades
      ensures Valid() && numBlades == old(numBlades) + 1 && fresh(blades)
      ensures forall i :: 0 <= i < |blades| ==> blades[i].View() == EvenBlade(i, numBlades, bladeRadius, baseDamage, orbitDistance, rotationSpeed)
    {
      numBlades := numBlades + 1;
      blades := CreateBlades();
    }
  }

  /** How many blades `createBlades` makes for a count of `n`. */
  function BladeCount(n: int): nat {
    if n < 0 then 0 else n
  }

  /** Blade `i` of `n` evenly spaced ones, before its first update. */
  function EvenBlade(i: nat, n: int, radius: real, damage: real, orbitDistance: real, rotationSpeed: real): BladeView {
    BladeView(0.0, 0.0, radius, damage, if n == 0 then 0.0 else (PI * 2.0 / (n as real)) * (i as real), orbitDistance, rotationSpeed)
  }

  /** Consecutive blades are `2 * PI / n` apart, starting from angle 0. */
  lemma EvenSpacing(i: nat, n: int, radius: real, damage: real, orbitDistance: real, rotationSpeed: real)
    requires 0 < n && i + 1 < n
    ensures EvenBlade(0, n, radius, damage, orbitDistance, rotationSpeed).angle == 0.0
    ensures EvenBlade(i + 1, n, radius, damage, orbitDistance, rotationSpeed).angle
            - EvenBlade(i, n, radius, damage, orbitDistance, rotationSpeed).angle == PI * 2.0 / (n as real)
  {
  }
}
