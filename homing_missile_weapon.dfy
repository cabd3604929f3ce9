/** The homing-missile weapon (src/game/HomingMissileWeapon.ts): when its fire timer runs
    out and there are enemies, it launches a volley of missiles at the enemy nearest to the
    player; every update then flies each missile and removes the ones that expired or struck
    the first living enemy they touch. */
module HomingMissileWeapons {
  import opened Wrappers
  import opened Geometry
  import opened Events
  import opened Seqs
  import opened Enemies
  import opened Targeting
  import opened HomingMissiles
  import opened MissileFates

  /** The fastest fire rate the upgrades can reach, in seconds. */
  const MinFireRate: real := 0.1

  // ---------------------------------------------------------------------------------------
  // The class

  class HomingMissileWeapon {
    var missiles: seq<HomingMissile>
    var baseDamage: real
    const missileSpeed: real
    var fireRate: real
    var lastFireTime: real
    const missileRadius: real
    const missileLifetime: real
    var numMissilesPerShot: int

    /** Every missile is in the list once. */
    ghost predicate Valid()
      reads this
    {
      Distinct(missiles)
    }

    /** `new HomingMissileWeapon(baseDamage, missileSpeed, fireRate, missileRadius,
        missileLifetime, sprite, soundManager, numMissilesPerShot)`. */
    constructor (baseDamage: real, missileSpeed: real, fireRate: real, missileRadius: real, missileLifetime: real,
                 numMissilesPerShot: int)
      ensures Valid() && missiles == [] && lastFireTime == 0.0
      ensures this.baseDamage == baseDamage && this.missileSpeed == missileSpeed && this.fireRate == fireRate
      ensures this.missileRadius == missileRadius && this.missileLifetime == missileLifetime
      ensures this.numMissilesPerShot == numMissilesPerShot
    {
      missiles := [];
      this.baseDamage := baseDamage;
      this.missileSpeed := missileSpeed;
      this.fireRate := fireRate;
      lastFireTime := 0.0;
      this.missileRadius := missileRadius;
      this.missileLifetime := missileLifetime;
      this.numMissilesPerShot := numMissilesPerShot;
    }

    /** Whether an update of `dt` fires a volley at `enemies`. */
    predicate Fires(dt: real, enemies: seq<Enemy>)
      reads this
    {
      lastFireTime + dt >= fireRate && |enemies| > 0
    }

    /** A missile's state as this weapon launches it from `(px, py)` at `target`, standing at
        `spot`, while its base damage is `damage`: it points at the target along the unit
        vector toward it. */
    ghost predicate LaunchedAt(m: MathLib, v: MissileView, px: real, py: real, target: Option<Enemy>, spot: (real, real),
                               damage: real)
      requires m.Valid()
    {
      && v.x == px && v.y == py && v.radius == missileRadius && v.speed == missileSpeed
      && v.damage == damage && v.target == target && v.lifetime == missileLifetime
      && v.currentLifetime == 0.0 && v.turnSpeed == DefaultTurnSpeed && v.trail == []
      && (target.Some? && 0.0 < m.Dist(spot.0 - px, spot.1 - py) ==>
            && v.directionX == (spot.0 - px) / m.Dist(spot.0 - px, spot.1 - py)
            && v.directionY == (spot.1 - py) / m.Dist(spot.0 - px, spot.1 - py))
    }

    /** A missile launched at a target standing apart from the launch point points along a
        direction of length 1. */
    lemma {:induction false} LaunchedUnit(m: MathLib, v: MissileView, px: real, py: real, target: Option<Enemy>,
                                          spot: (real, real), damage: real)
      requires m.Valid() && LaunchedAt(m, v, px, py, target, spot, damage)
      requires target.Some? && 0.0 < m.Dist(spot.0 - px, spot.1 - py)
      ensures m.Dist(v.directionX, v.directionY) == 1.0
    {
      NormalisedUnit(m, spot.0 - px, spot.1 - py);
    }

    /** `launched` is the missiles `before` in flight, in states `views`, followed by a volley
        of `volley` missiles launched from `(px, py)` at `target`, standing at `spot`, with base
        damage `damage`; `starts` holds every one's state. */
    ghost predicate Volleyed(m: MathLib, before: seq<HomingMissile>, views: seq<MissileView>, launched: seq<HomingMissile>,
                             starts: seq<MissileView>, volley: nat, px: real, py: real, target: Option<Enemy>,
                             spot: (real, real), damage: real)
      requires m.Valid()
    {
      && |launched| == |before| + volley && launched[..|before|] == before
      && |starts| == |launched| && starts[..|before|] == views
      && forall i :: |before| <= i < |launched| ==> LaunchedAt(m, starts[i], px, py, target, spot, damage)
    }

    /** Pushing one more missile launched `LaunchedAt` extends the volley by one. */
    lemma VolleyedPush(m: MathLib, before: seq<HomingMissile>, views: seq<MissileView>, launched: seq<HomingMissile>,
                       starts: seq<MissileView>, volley: nat, px: real, py: real, target: Option<Enemy>,
                       spot: (real, real), damage: real, x: HomingMissile, v: MissileView)
      requires m.Valid() && Volleyed(m, before, views, launched, starts, volley, px, py, target, spot, damage)
      requires LaunchedAt(m, v, px, py, target, spot, damage)
      ensures Volleyed(m, before, views, launched + [x], starts + [v], volley + 1, px, py, target, spot, damage)
    {
      assert (launched + [x])[..|before|] == launched[..|before|];
      assert (starts + [v])[..|before|] == starts[..|before|];
    }

    /** `update(dt, playerX, playerY, enemies)`: the fire timer, the volley, then the flight
        and the strikes of every missile in order. `launched` is the list the filter walks,
        `starts` the states its missiles begin the filter in, `ends` the states they end in,
        `spots` where their targets stand, `helds` whether each kept its old target, `fates`
        what became of each and `views` the enemies before each missile (and, last, after all
        of them). */
    method Update(m: MathLib, dt: real, px: real, py: real, enemies: seq<Enemy>, log: EventLog)
      returns (ghost launched: seq<HomingMissile>, ghost starts: seq<MissileView>, ghost ends: seq<MissileView>,
               ghost spots: seq<(real, real)>, ghost helds: seq<bool>, ghost fates: seq<Fate>,
               ghost views: seq<seq<EnemyView>>)
      requires m.Valid() && Valid() && Distinct(enemies)
      modifies this`missiles, this`lastFireTime, missiles, enemies, log`hits, log`bossDefeats
      ensures Valid()
      ensures lastFireTime == if old(Fires(dt, enemies)) then 0.0 else old(lastFireTime) + dt
      ensures var target := Select(enemies, Closest(m, px, py, old(Views(enemies)), None));
        var volley := old(if !Fires(dt, enemies) || target.None? || numMissilesPerShot < 0 then 0 else numMissilesPerShot);
        Volleyed(m, old(missiles), old(MissileViews(missiles)), launched, starts, volley, px, py, target, old(Spot(target)),
                 old(baseDamage))
      ensures forall i :: 0 <= i < |launched| ==> launched[i] in old(missiles) || fresh(launched[i])
      ensures |fates| == |launched| && missiles == Survivors(launched, fates)
      ensures |views| == |launched| + 1 && views[0] == old(Views(enemies)) && Views(enemies) == views[|launched|]
      // As an equation, so that the verifier takes the recursive predicate whole here.
      ensures Flight(m, dt, enemies, starts, ends, spots, helds, views, fates) == true
      ensures Landed(launched, ends, spots) && HeldOutside(starts, helds, enemies)
      ensures log.hits == old(log.hits) + FlightHits(ends, views, fates)
      ensures log.bossDefeats == old(log.bossDefeats) + FlightDefeats(ends, views, fates)
    {
      var all, t;
      all, t, starts := Fire(m, dt, px, py, enemies);
      launched := all;
      ends, spots, helds, fates, views := FlyAndKeep(m, all, t, dt, enemies, log, starts);
    }

    /** The fire timer and the volley of `update`: the timer `t` is the old one advanced by
        `dt`, or restarted once that reaches the fire rate with enemies present, when the
        volley is pushed onto the missiles in flight to make `all`. */
    method Fire(m: MathLib, dt: real, px: real, py: real, enemies: seq<Enemy>)
      returns (all: seq<HomingMissile>, t: real, ghost starts: seq<MissileView>)
      requires m.Valid() && Valid()
      ensures Distinct(all) && starts == MissileViews(all)
      ensures t == if old(Fires(dt, enemies)) then 0.0 else old(lastFireTime) + dt
      ensures var target := Select(enemies, Closest(m, px, py, old(Views(enemies)), None));
        var volley := old(if !Fires(dt, enemies) || target.None? || numMissilesPerShot < 0 then 0 else numMissilesPerShot);
        Volleyed(m, old(missiles), old(MissileViews(missiles)), all, starts, volley, px, py, target, old(Spot(target)),
                 old(baseDamage))
      ensures forall i :: 0 <= i < |all| ==> all[i] in old(missiles) || fresh(all[i])
    {
      if lastFireTime + dt >= fireRate && |enemies| > 0 {
        ghost var volley;
        all, volley, starts := Launch(m, px, py, enemies);
        t := 0.0;
        JoinMembers(missiles, volley);
      } else {
        all, t, starts := missiles, lastFireTime + dt, MissileViews(missiles);
        assert starts[..|missiles|] == MissileViews(missiles) && all[..|missiles|] == missiles;
      }
    }

    /** The filter of `update` over the list `all`, whose survivors become the missiles in
        flight, with the fire timer `t`. */
    method FlyAndKeep(m: MathLib, all: seq<HomingMissile>, t: real, dt: real, enemies: seq<Enemy>, log: EventLog,
                      ghost starts: seq<MissileView>)
      returns (ghost ends: seq<MissileView>, ghost spots: seq<(real, real)>, ghost helds: seq<bool>,
               ghost fates: seq<Fate>, ghost views: seq<seq<EnemyView>>)
      requires m.Valid() && Distinct(all) && Distinct(enemies) && starts == MissileViews(all)
      modifies this`missiles, this`lastFireTime, all, enemies, log`hits, log`bossDefeats
      ensures Valid() && lastFireTime == t
      ensures |fates| == |all| && missiles == Survivors(all, fates)
      ensures |views| == |all| + 1 && views[0] == old(Views(enemies)) && Views(enemies) == views[|all|]
      // As an equation, so that the verifier takes the recursive predicate whole here.
      ensures Flight(m, dt, enemies, starts, ends, spots, helds, views, fates) == true
      ensures Landed(all, ends, spots) && HeldOutside(starts, helds, enemies)
      ensures log.hits == old(log.hits) + FlightHits(ends, views, fates)
      ensures log.bossDefeats == old(log.bossDefeats) + FlightDefeats(ends, views, fates)
    {
      var kept;
      kept, ends, spots, helds, fates, views := FlyAll(m, all, dt, enemies, log, starts);
      SetState(kept, t, all, enemies, ends, spots, starts, helds);
    }

    /** Sets the missiles in flight and the fire timer; no enemy, no missile and no target's
        spot changes. */
    method SetState(ms: seq<HomingMissile>, t: real, ghost all: seq<HomingMissile>, ghost enemies: seq<Enemy>,
                    ghost ends: seq<MissileView>, ghost spots: seq<(real, real)>,
                    ghost starts: seq<MissileView>, ghost helds: seq<bool>)
      modifies this`missiles, this`lastFireTime
      ensures missiles == ms && lastFireTime == t
      ensures Views(enemies) == old(Views(enemies)) && MissileViews(all) == old(MissileViews(all))
      ensures Landed(all, ends, spots) == old(Landed(all, ends, spots))
      ensures HeldOutside(starts, helds, enemies) == old(HeldOutside(starts, helds, enemies))
    {
      missiles, lastFireTime := ms, t;
    }

    /** The filter of `update`: every missile in order flies and may strike, each one
        meeting the enemies as the missiles before it left them. */
    static method FlyAll(m: MathLib, all: seq<HomingMissile>, dt: real, enemies: seq<Enemy>, log: EventLog,
                         ghost starts: seq<MissileView>)
      returns (kept: seq<HomingMissile>, ghost ends: seq<MissileView>, ghost spots: seq<(real, real)>,
               ghost helds: seq<bool>, ghost fates: seq<Fate>, ghost views: seq<seq<EnemyView>>)
      requires m.Valid() && Distinct(all) && Distinct(enemies) && starts == MissileViews(all)
      modifies all, enemies, log`hits, log`bossDefeats
      ensures |fates| == |all| && kept == Survivors(all, fates) && Distinct(kept)
      ensures |views| == |all| + 1 && views[0] == old(Views(enemies)) && Views(enemies) == views[|all|]
      // As an equation, so that the verifier takes the recursive predicate whole here.
      ensures Flight(m, dt, enemies, starts, ends, spots, helds, views, fates) == true
      ensures Landed(all, ends, spots) && HeldOutside(starts, helds, enemies)
      ensures log.hits == old(log.hits) + FlightHits(ends, views, fates)
      ensures log.bossDefeats == old(log.bossDefeats) + FlightDefeats(ends, views, fates)
    {
      ghost var hits0, defeats0 := log.hits, log.bossDefeats;
      ends, spots, helds := [], [], [];
      kept := [];
      fates := [];
      views := [Views(enemies)];
      var i := 0;
      while i < |all|
        invariant 0 <= i <= |all| && |fates| == i && Flight(m, dt, enemies, starts, ends, spots, helds, views, fates)
        invariant views[0] == old(Views(enemies)) && views[i] == Views(enemies)
        invariant kept == Survivors(all[..i], fates)
        invariant Landed(all[..i], ends, spots) && Unflown(all, i, starts) && HeldOutside(starts, helds, enemies)
        invariant log.hits == hits0 + FlightHits(ends, views, fates)
        invariant log.bossDefeats == defeats0 + FlightDefeats(ends, views, fates)
      {
        kept, fates, views, ends, spots, helds :=
          FlyStep(m, all, i, dt, enemies, log, starts, hits0, defeats0, kept, fates, views, ends, spots, helds);
        i := i + 1;
      }
      assert all[..i] == all;
      SurvivorsKept(all, fates);
    }

    /** One turn of the loop of `FlyAll`, stated as its invariant before and after. */
    static method FlyStep(m: MathLib, all: seq<HomingMissile>, i: nat, dt: real, enemies: seq<Enemy>, log: EventLog,
                          ghost starts: seq<MissileView>, ghost hits0: seq<Hit>, ghost defeats0: nat,
                          kept: seq<HomingMissile>,
                          ghost fates: seq<Fate>, ghost views: seq<seq<EnemyView>>,
                          ghost ends: seq<MissileView>, ghost spots: seq<(real, real)>, ghost helds: seq<bool>)
      returns (kept': seq<HomingMissile>, ghost fates': seq<Fate>, ghost views': seq<seq<EnemyView>>,
               ghost ends': seq<MissileView>, ghost spots': seq<(real, real)>, ghost helds': seq<bool>)
      requires m.Valid() && Distinct(all) && Distinct(enemies) && i < |all| == |starts|
      requires |fates| == i && Flight(m, dt, enemies, starts, ends, spots, helds, views, fates)
      requires views[i] == Views(enemies)
      requires kept == Survivors(all[..i], fates)
      requires Landed(all[..i], ends, spots) && Unflown(all, i, starts) && HeldOutside(starts, helds, enemies)
      requires log.hits == hits0 + FlightHits(ends, views, fates)
      requires log.bossDefeats == defeats0 + FlightDefeats(ends, views, fates)
      modifies all[i], enemies, log`hits, log`bossDefeats
      ensures |fates'| == i + 1 && Flight(m, dt, enemies, starts, ends', spots', helds', views', fates')
      ensures views'[0] == views[0] && views'[i + 1] == Views(enemies)
      ensures kept' == Survivors(all[..i + 1], fates')
      ensures Landed(all[..i + 1], ends', spots') && Unflown(all, i + 1, starts) && HeldOutside(starts, helds', enemies)
      ensures log.hits == hits0 + FlightHits(ends', views', fates')
      ensures log.bossDefeats == defeats0 + FlightDefeats(ends', views', fates')
    {
      var fate;
      ghost var v, spot, held;
      ghost var hits, defeats := log.hits, log.bossDefeats;
      fate, v, spot, held := AdvanceOne(m, all, i, dt, enemies, log, starts, ends, spots, helds);
      LoggedStep(hits0, defeats0, hits, defeats, log.hits, log.bossDefeats, ends, views, fates, v, Views(enemies), fate);
      kept' := kept + if fate.Kept? then [all[i]] else [];
      fates' := fates + [fate];
      SurvivorsSnoc(all, fates, fate);
      views' := views + [Views(enemies)];
      ends', spots', helds' := ends + [v], spots + [spot], helds + [held];
      FlightExtend(m, dt, enemies, starts, ends, spots, helds, views, fates, v, spot, held, fate, Views(enemies));
    }

    /** `Advance` on the `i`-th missile, the missiles before it having flown to `ends`
        toward `spots`: it keeps its target or not as `held` says and flies to `v` toward
        `spot`, and every other missile and where its target stands stay as they were. */
    static method AdvanceOne(m: MathLib, all: seq<HomingMissile>, i: nat, dt: real, enemies: seq<Enemy>, log: EventLog,
                             ghost starts: seq<MissileView>, ghost ends: seq<MissileView>, ghost spots: seq<(real, real)>,
                             ghost helds: seq<bool>)
      returns (fate: Fate, ghost v: MissileView, ghost spot: (real, real), ghost held: bool)
      requires m.Valid() && Distinct(all) && Distinct(enemies) && |ends| == |spots| == |helds| == i < |all| == |starts|
      requires Landed(all[..i], ends, spots) && Unflown(all, i, starts) && HeldOutside(starts, helds, enemies)
      modifies all[i], enemies, log`hits, log`bossDefeats
      ensures Fated(m, dt, enemies, starts[i], v, spot, held, old(Views(enemies)), fate, Views(enemies))
      ensures fate.Struck? ==> fate.enemy < |enemies|
      ensures log.hits == old(log.hits) + FateHits(old(Views(enemies)), fate, v.damage)
      ensures log.bossDefeats == old(log.bossDefeats) + FateDefeats(old(Views(enemies)), fate, v.damage)
      ensures Landed(all[..i + 1], ends + [v], spots + [spot]) && Unflown(all, i + 1, starts)
      ensures HeldOutside(starts, helds + [held], enemies)
    {
      assert all[i].View() == starts[i];
      fate, v, spot, held := AdvanceAmong(m, all, i, dt, enemies, log);
      HeldOutsideSnoc(starts, helds, enemies, held);
    }

    /** `Advance` on the `i`-th missile of `all`: every other missile and where its target
        stands stay as they were, and a target outside `enemies` was kept exactly when it is
        alive. */
    static method AdvanceAmong(m: MathLib, all: seq<HomingMissile>, i: nat, dt: real, enemies: seq<Enemy>, log: EventLog)
      returns (fate: Fate, ghost v: MissileView, ghost spot: (real, real), ghost held: bool)
      requires m.Valid() && Distinct(all) && Distinct(enemies) && i < |all|
      modifies all[i], enemies, log`hits, log`bossDefeats
      ensures all[i].View() == v && Spot(all[i].target) == spot
      ensures Fated(m, dt, enemies, old(all[i].View()), v, spot, held, old(Views(enemies)), fate, Views(enemies))
      ensures var t := old(all[i].target); t.Some? && t.value !in enemies ==> (held <==> t.value.IsAlive())
      ensures fate.Struck? ==> fate.enemy < |enemies|
      ensures log.hits == old(log.hits) + FateHits(old(Views(enemies)), fate, v.damage)
      ensures log.bossDefeats == old(log.bossDefeats) + FateDefeats(old(Views(enemies)), fate, v.damage)
      ensures forall k :: 0 <= k < |all| && k != i ==>
        all[k].View() == old(all[k].View()) && Spot(all[k].target) == old(Spot(all[k].target))
    {
      fate, v, spot, held := Advance(m, all[i], dt, enemies, log);
      forall k | 0 <= k < |all| && k != i
        ensures all[k].View() == old(all[k].View()) && Spot(all[k].target) == old(Spot(all[k].target))
      {
        assert all[k] != all[i];
        var t := all[k].target;
        if t.Some? && t.value in enemies {
          assert t.value.x == old(t.value.x) && t.value.y == old(t.value.y);
        }
      }
    }

    /** The volley: `numMissilesPerShot` times the search for the living enemy nearest to
        the player, and a missile pushed at it when there is one. */
    method Launch(m: MathLib, px: real, py: real, enemies: seq<Enemy>)
      returns (all: seq<HomingMissile>, ghost volley: seq<HomingMissile>, ghost starts: seq<MissileView>)
      requires m.Valid() && Valid()
      ensures Distinct(all) && starts == MissileViews(all)
      ensures var target := Select(enemies, Closest(m, px, py, old(Views(enemies)), None));
        var volley := old(if target.None? || numMissilesPerShot < 0 then 0 else numMissilesPerShot);
        Volleyed(m, old(missiles), old(MissileViews(missiles)), all, starts, volley, px, py, target, old(Spot(target)),
                 old(baseDamage))
      ensures all == old(missiles) + volley && forall o :: o in volley ==> fresh(o)
    {
      ghost var vs, before, views0 := Views(enemies), missiles, MissileViews(missiles);
      ghost var target, damage := Select(enemies, Closest(m, px, py, vs, None)), baseDamage;
      ghost var spot := Spot(target);
      all, volley, starts := missiles, [], views0;
      assert all[..|before|] == before && starts[..|before|] == views0;
      var i := 0;
      ghost var n := 0;
      while i < numMissilesPerShot
        invariant 0 <= i <= (if numMissilesPerShot < 0 then 0 else numMissilesPerShot)
        invariant Views(enemies) == vs && Spot(target) == spot && missiles == before && baseDamage == damage
        invariant Distinct(all) && starts == MissileViews(all)
        invariant n == if target.None? then 0 else i
        invariant Volleyed(m, before, views0, all, starts, n, px, py, target, spot, damage)
        invariant all == before + volley && forall o :: o in volley ==> fresh(o)
      {
        all, volley, starts, n := LaunchOne(m, px, py, enemies, all, volley, starts, before, views0, vs, target, spot, n);
        i := i + 1;
      }
    }

    /** One turn of the loop of `Launch`: the search, then a push when it finds an enemy. */
    method LaunchOne(m: MathLib, px: real, py: real, enemies: seq<Enemy>, all: seq<HomingMissile>,
                     ghost volley: seq<HomingMissile>, ghost starts: seq<MissileView>, ghost before: seq<HomingMissile>,
                     ghost views: seq<MissileView>, ghost vs: seq<EnemyView>, ghost target: Option<Enemy>,
                     ghost spot: (real, real), ghost n: nat)
      returns (all': seq<HomingMissile>, ghost volley': seq<HomingMissile>, ghost starts': seq<MissileView>,
               ghost n': nat)
      requires m.Valid() && Views(enemies) == vs && target == Select(enemies, Closest(m, px, py, vs, None))
      requires Distinct(all) && starts == MissileViews(all) && all == before + volley
      requires Spot(target) == spot
      requires Volleyed(m, before, views, all, starts, n, px, py, target, spot, baseDamage)
      ensures Views(enemies) == vs && Spot(target) == spot
      ensures Distinct(all') && starts' == MissileViews(all') && all' == before + volley'
      ensures n' == if target.None? then n else n + 1
      ensures Volleyed(m, before, views, all', starts', n', px, py, target, spot, baseDamage)
      ensures forall o :: o in volley' ==> o in volley || fresh(o)
    {
      var closestEnemy := Aim(m, px, py, enemies, vs, target);
      all', volley', starts', n' := PushAt(m, px, py, closestEnemy, all, volley, starts, before, views, enemies, vs, target,
                                           spot, n);
    }

    /** The push of one turn of the loop of `Launch`, after the search found `closestEnemy`: a
        push at it when there is one. */
    method PushAt(m: MathLib, px: real, py: real, closestEnemy: Option<Enemy>, all: seq<HomingMissile>,
                     ghost volley: seq<HomingMissile>, ghost starts: seq<MissileView>, ghost before: seq<HomingMissile>,
                     ghost views: seq<MissileView>, ghost enemies: seq<Enemy>, ghost vs: seq<EnemyView>,
                     ghost target: Option<Enemy>, ghost spot: (real, real), ghost n: nat)
      returns (all': seq<HomingMissile>, ghost volley': seq<HomingMissile>, ghost starts': seq<MissileView>,
               ghost n': nat)
      requires m.Valid() && closestEnemy == target && Views(enemies) == vs
      requires Distinct(all) && starts == MissileViews(all) && all == before + volley
      requires Spot(target) == spot
      requires Volleyed(m, before, views, all, starts, n, px, py, target, spot, baseDamage)
      ensures Distinct(all') && starts' == MissileViews(all') && all' == before + volley'
      ensures n' == if target.None? then n else n + 1
      ensures Volleyed(m, before, views, all', starts', n', px, py, target, spot, baseDamage)
      ensures forall o :: o in volley' ==> o in volley || fresh(o)
      ensures Views(enemies) == vs && Spot(target) == spot
    {
      if closestEnemy.Some? {
        all', volley', starts' := PushVolley(m, px, py, closestEnemy, all, volley, starts, before, views, spot, n);
        n' := n + 1;
      } else {
        all', volley', starts', n' := all, volley, starts, n;
      }
    }

    /** The search of one turn of the loop of `Launch`: the living enemy nearest to the
        player, which is the volley's `target`. */
    method Aim(m: MathLib, px: real, py: real, enemies: seq<Enemy>, ghost vs: seq<EnemyView>, ghost target: Option<Enemy>)
      returns (closestEnemy: Option<Enemy>)
      requires m.Valid() && Views(enemies) == vs && target == Select(enemies, Closest(m, px, py, vs, None))
      ensures closestEnemy == target && Views(enemies) == vs
    {
      closestEnemy := NearestAlive(m, px, py, enemies);
    }

    /** A push onto the volley `volley` that follows the missiles `before`. */
    method PushVolley(m: MathLib, px: real, py: real, target: Option<Enemy>, all: seq<HomingMissile>,
                      ghost volley: seq<HomingMissile>, ghost starts: seq<MissileView>, ghost before: seq<HomingMissile>,
                      ghost views: seq<MissileView>, ghost spot: (real, real), ghost i: nat)
      returns (all': seq<HomingMissile>, ghost volley': seq<HomingMissile>, ghost starts': seq<MissileView>)
      requires m.Valid() && target.Some? && Spot(target) == spot
      requires Distinct(all) && starts == MissileViews(all) && all == before + volley
      requires Volleyed(m, before, views, all, starts, i, px, py, target, spot, baseDamage)
      ensures Distinct(all') && starts' == MissileViews(all') && all' == before + volley'
      ensures Volleyed(m, before, views, all', starts', i + 1, px, py, target, spot, baseDamage)
      ensures volley' == volley + [all'[|all|]] && fresh(all'[|all|])
    {
      all', starts' := Push(m, px, py, target, all, starts, before, views, spot, i);
      volley' := volley + [all'[|all|]];
      AppendAssoc(before, volley, [all'[|all|]]);
    }

    /** One push of the volley: a new missile launched from `(px, py)` at `target`, standing
        at `spot`, joins the end of `all`. */
    method Push(m: MathLib, px: real, py: real, target: Option<Enemy>, all: seq<HomingMissile>,
                ghost starts: seq<MissileView>, ghost before: seq<HomingMissile>, ghost views: seq<MissileView>,
                ghost spot: (real, real), ghost volley: nat)
      returns (all': seq<HomingMissile>, ghost starts': seq<MissileView>)
      requires m.Valid() && target.Some? && Distinct(all) && starts == MissileViews(all)
      requires Spot(target) == spot
      requires Volleyed(m, before, views, all, starts, volley, px, py, target, spot, baseDamage)
      ensures Distinct(all') && starts' == MissileViews(all')
      ensures Volleyed(m, before, views, all', starts', volley + 1, px, py, target, spot, baseDamage)
      ensures |all'| == |all| + 1 && all' == all + [all'[|all|]] && fresh(all'[|all|])
    {
      var missile := new HomingMissile(m, px, py, missileRadius, missileSpeed, baseDamage, target,
                                       missileLifetime, DefaultTurnSpeed);
      DistinctAppend(all, missile);
      VolleyedPush(m, before, views, all, starts, volley, px, py, target, spot, baseDamage, missile, missile.View());
      all', starts' := all + [missile], starts + [missile.View()];
    }

    /** The filter's test for one missile: it flies, keeping its target when that is set
        and alive (`held`); an expired missile is dropped; a live one strikes the first living
        enemy it touches and is dropped, or is kept. */
    static method Advance(m: MathLib, missile: HomingMissile, dt: real, enemies: seq<Enemy>, log: EventLog)
      returns (fate: Fate, ghost v: MissileView, ghost spot: (real, real), ghost held: bool)
      requires m.Valid() && Distinct(enemies)
      modifies missile, enemies, log`hits, log`bossDefeats
      ensures missile.View() == v && Spot(missile.target) == spot
      ensures held == old(missile.target.Some? && missile.target.value.IsAlive())
      ensures Fated(m, dt, enemies, old(missile.View()), v, spot, held, old(Views(enemies)), fate, Views(enemies))
      ensures forall e :: e in enemies ==> e.x == old(e.x) && e.y == old(e.y)
      ensures fate.Struck? ==> fate.enemy < |enemies|
      ensures log.hits == old(log.hits) + FateHits(old(Views(enemies)), fate, v.damage)
      ensures log.bossDefeats == old(log.bossDefeats) + FateDefeats(old(Views(enemies)), fate, v.damage)
    {
      ghost var v0, vs := missile.View(), Views(enemies);
      held := missile.target.Some? && missile.target.value.IsAlive();
      var alive := Fly(m, missile, dt, enemies);
      v, spot := missile.View(), Spot(missile.target);
      if !alive {
        return Expired, v, spot, held;
      }
      fate := StrikeFate(m, missile, enemies, log, v, vs, missile.target, spot);
    }

    /** A live missile's strike, as its fate: the enemy `FirstCollision` picks from where it
        flew takes its damage, every other enemy and the target's spot stay as they were. */
    static method StrikeFate(m: MathLib, missile: HomingMissile, enemies: seq<Enemy>, log: EventLog, ghost v: MissileView,
                           ghost vs: seq<EnemyView>, ghost t: Option<Enemy>, ghost spot: (real, real))
      returns (fate: Fate)
      requires m.Valid() && Distinct(enemies) && missile.View() == v && Views(enemies) == vs && Spot(t) == spot
      modifies enemies, log`hits, log`bossDefeats
      ensures !fate.Expired? && FirstCollision(m, v.x, v.y, v.radius, vs) == Victim(fate)
      ensures Views(enemies) == AfterFate(vs, fate, v.damage) && Spot(t) == spot
      ensures forall e :: e in enemies ==> e.x == old(e.x) && e.y == old(e.y)
      ensures fate.Struck? ==> fate.enemy < |enemies|
      ensures log.hits == old(log.hits) + FateHits(vs, fate, v.damage)
      ensures log.bossDefeats == old(log.bossDefeats) + FateDefeats(vs, fate, v.damage)
    {
      var struck := Strike(m, missile, enemies, log);
      fate := if struck.Some? then Struck(struck.value) else Kept;
      assert Views(enemies) == AfterFate(vs, fate, v.damage);
    }

    /** The missile's own update within the filter: it keeps or re-acquires its target as
        `Reacquired` says, flies as `Flown` says and lives on while its lifetime has not run
        out; the enemies do not change. */
    static method Fly(m: MathLib, missile: HomingMissile, dt: real, enemies: seq<Enemy>) returns (alive: bool)
      requires m.Valid()
      modifies missile
      ensures missile.target == old(Reacquired(m, missile.target, missile.x, missile.y, enemies))
      ensures Flown(m, dt, old(missile.View()), missile.View(), Spot(missile.target).0, Spot(missile.target).1)
      ensures alive <==> missile.currentLifetime < missile.lifetime
      ensures Views(enemies) == old(Views(enemies))
    {
      alive := missile.Update(m, dt, enemies);
    }

    /** The strike: the first living enemy the missile touches takes its damage. */
    static method Strike(m: MathLib, missile: HomingMissile, enemies: seq<Enemy>, log: EventLog) returns (struck: Option<nat>)
      requires m.Valid() && Distinct(enemies)
      modifies enemies, log`hits, log`bossDefeats
      ensures struck == FirstCollision(m, missile.x, missile.y, missile.radius, old(Views(enemies)))
      ensures struck.Some? ==>
        && enemies[struck.value].View() == Damaged(old(enemies[struck.value].View()), missile.damage)
        && log.hits == old(log.hits) + [Hit(old(enemies[struck.value].x), old(enemies[struck.value].y), missile.damage)]
        && log.bossDefeats == old(log.bossDefeats) + if DefeatReported(old(enemies[struck.value].View()), missile.damage) then 1 else 0
      ensures struck.None? ==> log.hits == old(log.hits) && log.bossDefeats == old(log.bossDefeats)
      ensures forall k :: 0 <= k < |enemies| && struck != Some(k) ==> enemies[k].View() == old(enemies[k].View())
      ensures forall e :: e in enemies ==> e.x == old(e.x) && e.y == old(e.y)
    {
      ghost var vs := Views(enemies);
      FirstCollisionIsFirst(m, missile.x, missile.y, missile.radius, vs);
      var i := 0;
      while i < |enemies|
        invariant 0 <= i <= |enemies|
        invariant forall k :: 0 <= k < i ==> !StrikesAt(m, missile.x, missile.y, missile.radius, vs[k])
      {
        var enemy := enemies[i];
        if enemy.IsAlive() && missile.Collides(m, enemy.x, enemy.y, enemy.size) {
          enemy.TakeDamage(missile.damage, log);
          return Some(i);
        }
        i := i + 1;
      }
      return None;
    }

    /** `increaseDamage(amount)`: missiles launched from now on deal more damage. */
    method IncreaseDamage(amount: real)
      modifies this`baseDamage
      ensures baseDamage == old(baseDamage) + amount
    {
      baseDamage := baseDamage + amount;
    }

    /** `decreaseFireRate(amount)`: shorter time between volleys, never below 0.1 s. */
    method DecreaseFireRate(amount: real)
      modifies this`fireRate
      ensures fireRate == Max(MinFireRate, old(fireRate) - amount)
    {
      fireRate := Max(MinFireRate, fireRate - amount);
    }

    /** `increaseMissilesPerShot(amount)`. */
    method IncreaseMissilesPerShot(amount: int)
      modifies this`numMissilesPerShot
      ensures numMissilesPerShot == old(numMissilesPerShot) + amount
    {
      numMissilesPerShot := numMissilesPerShot + amount;
    }
  }
}
