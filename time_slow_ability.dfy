/** The time-slow ability (src/game/TimeSlowAbility.ts): a trigger multiplies the speed of every
    enemy it has not yet slowed by `slowFactor`, remembering the speed it had; when the
    duration runs out the remembered speeds are written back and the table is emptied. */
module TimeSlowAbilities {
  import opened Geometry
  import opened Enemies
  import opened Timers

  /** The shortest slow factor the upgrades can reach (5% speed). */
  const MinSlowFactor: real := 0.05

  /** The shortest cooldown the upgrades can reach, in seconds. */
  const MinCooldown: real := 5.0

  /** The speeds of a list of enemies, in order. */
  function Speeds(es: seq<Enemy>): (r: seq<real>)
    reads es
    ensures |r| == |es| && forall i :: 0 <= i < |es| ==> r[i] == es[i].speed
  {
    if es == [] then [] else Speeds(es[..|es| - 1]) + [es[|es| - 1].speed]
  }

  /** `speeds` gives one speed per enemy object: an enemy listed twice has one speed. */
  predicate Consistent(es: seq<Enemy>, speeds: seq<real>) {
    |speeds| == |es| && forall i, j :: 0 <= i < |es| && 0 <= j < |es| && es[i] == es[j] ==> speeds[i] == speeds[j]
  }

  lemma SpeedsConsistent(es: seq<Enemy>, speeds: seq<real>)
    requires |speeds| == |es| && forall i :: 0 <= i < |es| ==> speeds[i] == es[i].speed
    ensures Consistent(es, speeds)
  {
  }

  /** The enemies a list holds. */
  function Members(es: seq<Enemy>): (r: set<Enemy>)
    ensures forall i :: 0 <= i < |es| ==> es[i] in r
    ensures forall e :: e in r ==> e in es
  {
    set i | 0 <= i < |es| :: es[i]
  }

  /** The table after `applySlowEffect` walked `es` (with speeds `speeds`): each enemy not yet
      in the table is recorded with its speed. */
  function SlowTable(t: map<Enemy, real>, es: seq<Enemy>, speeds: seq<real>): (r: map<Enemy, real>)
    requires |speeds| == |es|
    ensures r.Keys == t.Keys + Members(es)
    ensures forall k :: k in t ==> r[k] == t[k]
    decreases |es|
  {
    if es == [] then t
    else
      var n := |es| - 1;
      assert es == es[..n] + [es[n]];
      var r := SlowTable(t, es[..n], speeds[..n]);
      if es[n] in r then r else r[es[n] := speeds[n]]
  }

  /** One more enemy of the walk: it is recorded unless the table already holds it. */
  lemma SlowTableStep(t: map<Enemy, real>, es: seq<Enemy>, speeds: seq<real>, n: nat)
    requires n < |es| == |speeds|
    ensures SlowTable(t, es[..n + 1], speeds[..n + 1]) ==
      var r := SlowTable(t, es[..n], speeds[..n]); if es[n] in r then r else r[es[n] := speeds[n]]
  {
    assert es[..n + 1][..n] == es[..n] && speeds[..n + 1][..n] == speeds[..n];
  }

  /** Each enemy the walk recorded is recorded with the speed it had before the walk. */
  lemma {:induction false} SlowTableRecords(t: map<Enemy, real>, es: seq<Enemy>, speeds: seq<real>)
    requires Consistent(es, speeds)
    ensures forall i :: 0 <= i < |es| && es[i] !in t ==> SlowTable(t, es, speeds)[es[i]] == speeds[i]
    decreases |es|
  {
    if es != [] {
      var n := |es| - 1;
      assert Consistent(es[..n], speeds[..n]);
      SlowTableRecords(t, es[..n], speeds[..n]);
      var r := SlowTable(t, es[..n], speeds[..n]);
      forall i | 0 <= i < |es| && es[i] !in t
        ensures SlowTable(t, es, speeds)[es[i]] == speeds[i]
      {
        if es[n] in r {
          if i == n {
            assert es[n] in es[..n];
            var j :| 0 <= j < n && es[..n][j] == es[n];
            assert es[j] == es[n];
          }
        } else if i < n {
          assert es[..n][i] == es[i];
        }
      }
    }
  }

  /** `speed * slowFactor`. */
  function Slowed(speed: real, factor: real): real {
    speed * factor
  }

  /** The speed `applySlowEffect` leaves an enemy with: unchanged when the table already
      held it, else multiplied by the slow factor. */
  function SlowedSpeed(t: map<Enemy, real>, e: Enemy, speed: real, factor: real): real {
    if e in t then speed else Slowed(speed, factor)
  }

  /** The speed `deactivate` leaves an enemy with: the recorded one when the table holds it,
      else unchanged. */
  function RestoredSpeed(t: map<Enemy, real>, e: Enemy, speed: real): real {
    if e in t then t[e] else speed
  }

  /** Slowing a list from an empty table and then restoring it gives every enemy of the list
      back exactly the speed it had before, whatever the slow factor; an enemy that was not in
      the list (one that joined later) is not in the table, so the restore leaves it alone. */
  lemma {:induction false} SlowThenRestore(es: seq<Enemy>, speeds: seq<real>, factor: real, e: Enemy, speed: real)
    requires Consistent(es, speeds)
    ensures var t := SlowTable(map[], es, speeds);
      && (forall i :: 0 <= i < |es| ==> RestoredSpeed(t, es[i], SlowedSpeed(map[], es[i], speeds[i], factor)) == speeds[i])
      && (e !in es ==> e !in t && RestoredSpeed(t, e, speed) == speed)
  {
    SlowTableRecords(map[], es, speeds);
  }

  /** The part of the ability that `update` and `triggerSlow` change, apart from the table. */
  datatype SlowState = SlowState(currentCooldown: real, currentDuration: real, isActive: bool)

  /** Whether `update` runs the duration out and deactivates. */
  predicate Expires(s: SlowState, dt: real) {
    s.isActive && s.currentDuration - dt <= 0.0
  }

  /** The state after `update`. */
  function Advanced(s: SlowState, dt: real): (r: SlowState)
    ensures r.currentCooldown == Cooled(s.currentCooldown, dt)
    ensures !s.isActive ==> r == s.(currentCooldown := r.currentCooldown)
    ensures s.isActive ==> r.currentDuration == s.currentDuration - dt && (r.isActive <==> !Expires(s, dt))
  {
    if !s.isActive then s.(currentCooldown := Cooled(s.currentCooldown, dt))
    else
      var d := s.currentDuration - dt;
      SlowState(Cooled(s.currentCooldown, dt), d, d > 0.0)
  }

  /** Whether `triggerSlow` fires from state `s`. */
  predicate Ready(s: SlowState) {
    s.currentCooldown <= 0.0 && !s.isActive
  }

  class TimeSlowAbility {
    var slowFactor: real
    var duration: real
    var cooldown: real
    var currentCooldown: real
    var currentDuration: real
    var isActive: bool
    var originalEnemySpeeds: map<Enemy, real>

    function State(): SlowState
      reads this
    {
      SlowState(currentCooldown, currentDuration, isActive)
    }

    /** Only an active ability holds recorded speeds. */
    predicate Valid()
      reads this
    {
      !isActive ==> originalEnemySpeeds == map[]
    }

    /** `new TimeSlowAbility(slowFactor, duration, cooldown, soundManager)`: idle and ready. */
    constructor (slowFactor: real, duration: real, cooldown: real)
      ensures this.slowFactor == slowFactor && this.duration == duration && this.cooldown == cooldown
      ensures State() == SlowState(0.0, 0.0, false) && originalEnemySpeeds == map[]
      ensures Valid()
    {
      this.slowFactor := slowFactor;
      this.duration := duration;
      this.cooldown := cooldown;
      currentCooldown := 0.0;
      currentDuration := 0.0;
      isActive := false;
      originalEnemySpeeds := map[];
    }

    /** Stores a state into the three fields it describes and `table` as the recorded speeds. */
    method SetState(r: SlowState, table: map<Enemy, real>)
      modifies this`currentCooldown, this`currentDuration, this`isActive, this`originalEnemySpeeds
      ensures State() == r && originalEnemySpeeds == table
    {
      currentCooldown, currentDuration, isActive, originalEnemySpeeds := r.currentCooldown, r.currentDuration, r.isActive, table;
    }

    /** `update(deltaTime, enemies)`: the state advances as `Advanced` says; when the duration
        runs out every enemy of the list held in the table gets its recorded speed back and
        the table is emptied, otherwise no enemy and no table entry changes. */
    method Update(dt: real, enemies: seq<Enemy>)
      modifies this`currentCooldown, this`currentDuration, this`isActive, this`originalEnemySpeeds, enemies
      ensures State() == Advanced(old(State()), dt)
      ensures Expires(old(State()), dt) ==>
        && originalEnemySpeeds == map[]
        && forall i :: 0 <= i < |enemies| ==>
             enemies[i].View() == old(enemies[i].View()).(speed := RestoredSpeed(old(originalEnemySpeeds), enemies[i], old(enemies[i].speed)))
      ensures !Expires(old(State()), dt) ==>
        && originalEnemySpeeds == old(originalEnemySpeeds)
        && forall i :: 0 <= i < |enemies| ==> enemies[i].View() == old(enemies[i].View())
      ensures old(Valid()) ==> Valid()
    {
      var next := Advanced(State(), dt);
      if Expires(State(), dt) {
        Deactivate(enemies);
      }
      SetState(next, originalEnemySpeeds);
    }

    /** `triggerSlow(enemies)`: when ready, switches on for the full duration, restarts the
        cooldown and slows the list; reports whether it did. Otherwise nothing changes. */
    method TriggerSlow(enemies: seq<Enemy>) returns (fired: bool)
      modifies this`currentCooldown, this`currentDuration, this`isActive, this`originalEnemySpeeds, enemies
      ensures fired <==> Ready(old(State()))
      ensures fired ==>
        && State() == SlowState(cooldown, duration, true)
        && originalEnemySpeeds == SlowTable(old(originalEnemySpeeds), enemies, old(Speeds(enemies)))
        && (forall i :: 0 <= i < |enemies| ==> enemies[i].View() == old(enemies[i].View()).(speed := enemies[i].speed))
        && forall i :: 0 <= i < |enemies| ==> enemies[i].speed == SlowedSpeed(old(originalEnemySpeeds), enemies[i], old(enemies[i].speed), slowFactor)
      ensures !fired ==>
        && State() == old(State()) && originalEnemySpeeds == old(originalEnemySpeeds)
        && forall i :: 0 <= i < |enemies| ==> enemies[i].View() == old(enemies[i].View())
      ensures old(Valid()) ==> Valid()
    {
      fired := false;
      if currentCooldown <= 0.0 && !isActive {
        var table := ApplySlowEffect(enemies, originalEnemySpeeds, slowFactor);
        SetState(SlowState(cooldown, duration, true), table);
        fired := true;
      }
    }

    /** `applySlowEffect(enemies)`, on the table `t`: returns the new table. */
    static method ApplySlowEffect(enemies: seq<Enemy>, t: map<Enemy, real>, factor: real) returns (r: map<Enemy, real>)
      modifies enemies
      ensures r == SlowTable(t, enemies, old(Speeds(enemies)))
      ensures forall i :: 0 <= i < |enemies| ==> enemies[i].View() == old(enemies[i].View()).(speed := enemies[i].speed)
      ensures forall i :: 0 <= i < |enemies| ==> enemies[i].speed == SlowedSpeed(t, enemies[i], old(enemies[i].speed), factor)
    {
      ghost var views := Views(enemies);
      ghost var speeds := Speeds(enemies);
      SpeedsConsistent(enemies, speeds);
      r := t;
      var i := 0;
      while i < |enemies|
        invariant 0 <= i <= |enemies|
        invariant r == SlowTable(t, enemies[..i], speeds[..i])
        invariant SlowedSoFar(enemies, views, speeds, t, r, factor)
      {
        r := SlowOne(enemies, i, t, r, views, speeds, factor);
        i := i + 1;
      }
      assert enemies[..i] == enemies && speeds[..i] == speeds;
      SlowedAll(enemies, views, speeds, t, r, factor);
    }

    /** Once the walk recorded every enemy, each is slowed exactly as `SlowedSpeed` says. */
    static lemma SlowedAll(enemies: seq<Enemy>, views: seq<EnemyView>, speeds: seq<real>, t: map<Enemy, real>,
                           r: map<Enemy, real>, factor: real)
      requires SlowedSoFar(enemies, views, speeds, t, r, factor) && Members(enemies) <= r.Keys
      ensures forall j :: 0 <= j < |enemies| ==> enemies[j].speed == SlowedSpeed(t, enemies[j], speeds[j], factor)
    {
      forall j | 0 <= j < |enemies|
        ensures enemies[j].speed == SlowedSpeed(t, enemies[j], speeds[j], factor)
      {
        assert enemies[j] in r;
      }
    }

    /** The loop invariant of `applySlowEffect` with table `r`: only speeds changed, and an
        enemy is slowed exactly when the walk recorded it. */
    static predicate SlowedSoFar(enemies: seq<Enemy>, views: seq<EnemyView>, speeds: seq<real>, t: map<Enemy, real>,
                                 r: map<Enemy, real>, factor: real)
      reads enemies
    {
      && |views| == |enemies| == |speeds|
      && (forall j :: 0 <= j < |enemies| ==> enemies[j].View() == views[j].(speed := enemies[j].speed))
      && (forall j :: 0 <= j < |enemies| ==>
            enemies[j].speed == if enemies[j] in r && enemies[j] !in t then Slowed(speeds[j], factor) else speeds[j])
    }

    /** One step of `applySlowEffect`: the loop invariant at `i` gives the one at `i + 1`. */
    static method SlowOne(enemies: seq<Enemy>, i: nat, t: map<Enemy, real>, r: map<Enemy, real>,
                          ghost views: seq<EnemyView>, ghost speeds: seq<real>, factor: real) returns (r': map<Enemy, real>)
      requires i < |enemies| && Consistent(enemies, speeds) && |views| == |enemies|
      requires forall j :: 0 <= j < |enemies| ==> speeds[j] == views[j].speed
      requires r == SlowTable(t, enemies[..i], speeds[..i])
      requires SlowedSoFar(enemies, views, speeds, t, r, factor)
      modifies enemies[i]
      ensures r' == SlowTable(t, enemies[..i + 1], speeds[..i + 1])
      ensures SlowedSoFar(enemies, views, speeds, t, r', factor)
    {
      var e := enemies[i];
      SlowTableStep(t, enemies, speeds, i);
      r' := r;
      if e !in r {
        r' := r[e := e.speed];
        SlowEnemy(e, factor);
      }
      forall j | 0 <= j < |enemies|
        ensures enemies[j].View() == views[j].(speed := enemies[j].speed)
        ensures enemies[j].speed == if enemies[j] in r' && enemies[j] !in t then Slowed(speeds[j], factor) else speeds[j]
      {
        if enemies[j] == e {
          assert speeds[j] == speeds[i];
        }
      }
    }

    /** `enemy.speed *= slowFactor`. */
    static method SlowEnemy(e: Enemy, factor: real)
      modifies e
      ensures e.View() == old(e.View()).(speed := Slowed(old(e.speed), factor))
    {
      e.speed := Slowed(e.speed, factor);
    }

    /** `deactivate(enemies)`: switches off, gives every enemy of the list held in the table its
        recorded speed back and empties the table. */
    method Deactivate(enemies: seq<Enemy>)
      modifies this`currentCooldown, this`currentDuration, this`isActive, this`originalEnemySpeeds, enemies
      ensures currentCooldown == old(currentCooldown) && currentDuration == old(currentDuration)
      ensures !isActive && originalEnemySpeeds == map[]
      ensures forall i :: 0 <= i < |enemies| ==>
        enemies[i].View() == old(enemies[i].View()).(speed := RestoredSpeed(old(originalEnemySpeeds), enemies[i], old(enemies[i].speed)))
    {
      RestoreSpeeds(enemies, originalEnemySpeeds);
      SetState(State().(isActive := false), map[]);
    }

    /** The restoring walk of `deactivate` over the table `t`. */
    static method RestoreSpeeds(enemies: seq<Enemy>, t: map<Enemy, real>)
      modifies enemies
      ensures forall i :: 0 <= i < |enemies| ==>
        enemies[i].View() == old(enemies[i].View()).(speed := RestoredSpeed(t, enemies[i], old(enemies[i].speed)))
    {
      ghost var views := Views(enemies);
      var i := 0;
      while i < |enemies|
        invariant 0 <= i <= |enemies|
        invariant forall j :: 0 <= j < |enemies| ==>
          enemies[j].View() == views[j].(speed := if enemies[j] in enemies[..i] then RestoredSpeed(t, enemies[j], views[j].speed) else views[j].speed)
      {
        RestoreOne(enemies, i, t, views);
        i := i + 1;
      }
      assert enemies[..i] == enemies;
    }

    /** One step of the restoring walk: the loop invariant at `i` gives the one at `i + 1`. */
    static method RestoreOne(enemies: seq<Enemy>, i: nat, t: map<Enemy, real>, ghost views: seq<EnemyView>)
      requires i < |enemies| && |views| == |enemies|
      requires forall j :: 0 <= j < |enemies| ==>
        enemies[j].View() == views[j].(speed := if enemies[j] in enemies[..i] then RestoredSpeed(t, enemies[j], views[j].speed) else views[j].speed)
      modifies enemies[i]
      ensures forall j :: 0 <= j < |enemies| ==>
        enemies[j].View() == views[j].(speed := if enemies[j] in enemies[..i + 1] then RestoredSpeed(t, enemies[j], views[j].speed) else views[j].speed)
    {
      var e := enemies[i];
      assert enemies[..i + 1] == enemies[..i] + [e];
      if e in t {
        e.speed := t[e];
      }
    }

    /** `increaseSlowFactor(amount)`: a smaller factor slows more, down to 5% speed; enemies
        already slowed keep their speed. */
    method IncreaseSlowFactor(amount: real)
      modifies this`slowFactor
      ensures slowFactor == Max(MinSlowFactor, old(slowFactor) - amount)
    {
      slowFactor := Max(MinSlowFactor, slowFactor - amount);
    }

    /** `increaseDuration(amount)`. */
    method IncreaseDuration(amount: real)
      modifies this`duration
      ensures duration == old(duration) + amount
    {
      duration := duration + amount;
    }

    /** `reduceCooldown(amount)`: never below five seconds. */
    method ReduceCooldown(amount: real)
      modifies this`cooldown
      ensures cooldown == Max(MinCooldown, old(cooldown) - amount)
    {
      cooldown := Max(MinCooldown, cooldown - amount);
    }

    /** `getCooldownCurrent()`. */
    function CooldownCurrent(): real
      reads this
    {
      currentCooldown
    }

    /** `getCooldownMax()`. */
    function CooldownMax(): real
      reads this
    {
      cooldown
    }

    /** `getIsActive()`. */
    function IsActive(): bool
      reads this
    {
      isActive
    }
  }
}
