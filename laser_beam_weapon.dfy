/** The laser beam (src/game/LaserBeamWeapon.ts): once triggered it stays on for `duration`
    seconds, locked on the nearest living enemy within `range`, and deals
    `TickDamage(damagePerSecond, fireRate)` every `fireRate` seconds; it then needs `cooldown` seconds
    (counted from the trigger) before it can fire again. */
module LaserBeamWeapons {
  import opened Wrappers
  import opened Geometry
  import opened Events
  import opened Enemies
  import opened Targeting
  import opened Timers

  /** The shortest cooldown the upgrades can reach, in seconds. */
  const MinCooldown: real := 1.0

  /** The objects a target reference can name. */
  function TargetSet(t: Option<Enemy>): set<Enemy> {
    if t.Some? then {t.value} else {}
  }

  /** The update's retarget test, negated: the beam keeps a target that is alive and within
      range of the player. */
  predicate Keeps(m: MathLib, px: real, py: real, t: Option<Enemy>, range: real)
    requires m.Valid()
    reads TargetSet(t)
  {
    t.Some? && Eligible(m, px, py, t.value.View(), Some(range))
  }

  /** What `findClosestEnemy` returns: the nearest living enemy within range, if any. */
  function InRange(m: MathLib, px: real, py: real, range: real, enemies: seq<Enemy>): Option<Enemy>
    requires m.Valid()
    reads enemies
  {
    Select(enemies, Closest(m, px, py, Views(enemies), Some(range)))
  }

  /** The target after the retarget step: the current one while it qualifies, else the
      nearest living enemy within range, if any. */
  function Aimed(m: MathLib, px: real, py: real, t: Option<Enemy>, range: real, enemies: seq<Enemy>): Option<Enemy>
    requires m.Valid()
    reads enemies, TargetSet(t)
  {
    if Keeps(m, px, py, t, range) then t else InRange(m, px, py, range, enemies)
  }

  /** After the retarget step the beam holds a living enemy within range, or none, and then
      no enemy of the list is alive within range; a qualifying target is never dropped. */
  lemma AimedEligible(m: MathLib, px: real, py: real, t: Option<Enemy>, range: real, enemies: seq<Enemy>)
    requires m.Valid()
    ensures var r := Aimed(m, px, py, t, range, enemies);
      && (r.Some? ==> Eligible(m, px, py, r.value.View(), Some(range)))
      && (r.None? ==> forall i :: 0 <= i < |enemies| ==> !Eligible(m, px, py, enemies[i].View(), Some(range)))
      && (Keeps(m, px, py, t, range) ==> r == t)
  {
    ClosestIsNearest(m, px, py, Views(enemies), Some(range));
  }

  /** The part of the beam an update or a trigger changes. */
  datatype BeamState = BeamState(currentCooldown: real, currentDuration: real, isActive: bool,
                                 target: Option<Enemy>, lastDamageTickTime: real)

  /** The target the retarget step starts from: the one held, unless the duration ran out in
      this update, which drops it. */
  function Held(s: BeamState, dt: real): Option<Enemy> {
    if s.currentDuration - dt <= 0.0 then None else s.target
  }

  /** Whether an update deals a damage tick to `aimed` (`alive` is whether it lives). */
  predicate Ticks(s: BeamState, aimed: Option<Enemy>, alive: bool, dt: real, fireRate: real) {
    s.isActive && aimed.Some? && alive && s.lastDamageTickTime + dt >= fireRate
  }

  /** The beam after `update`, given the target the retarget step produced. */
  function Stepped(s: BeamState, aimed: Option<Enemy>, alive: bool, dt: real, fireRate: real): BeamState {
    if !s.isActive then s.(currentCooldown := Cooled(s.currentCooldown, dt))
    else
      var duration := s.currentDuration - dt;
      var tick := if aimed.Some? && alive then (if s.lastDamageTickTime + dt >= fireRate then 0.0 else s.lastDamageTickTime + dt)
                  else s.lastDamageTickTime;
      BeamState(Cooled(s.currentCooldown, dt), duration, duration > 0.0, aimed, tick)
  }

  /** The beam after `triggerBeam`, given what the search found. */
  function Triggered(s: BeamState, found: Option<Enemy>, duration: real, cooldown: real): BeamState {
    if s.currentCooldown <= 0.0 && !s.isActive then
      if found.Some? then BeamState(cooldown, duration, true, found, 0.0) else s.(target := None)
    else s
  }

  /** An idle beam only cools down; an active one runs its duration down, switches off when it
      reaches zero and holds the retargeted enemy; the tick timer starts over exactly on a
      damage tick and stays below `fireRate`. */
  lemma SteppedShape(s: BeamState, aimed: Option<Enemy>, alive: bool, dt: real, fireRate: real)
    ensures var r := Stepped(s, aimed, alive, dt, fireRate);
      && r.currentCooldown == Cooled(s.currentCooldown, dt)
      && (!s.isActive ==> r == s.(currentCooldown := r.currentCooldown) && !Ticks(s, aimed, alive, dt, fireRate))
      && (s.isActive ==> r.currentDuration == s.currentDuration - dt && (r.isActive <==> r.currentDuration > 0.0) && r.target == aimed)
      && (Ticks(s, aimed, alive, dt, fireRate) ==> r.lastDamageTickTime == 0.0)
      && (0.0 <= s.lastDamageTickTime && 0.0 <= dt && 0.0 < fireRate ==> 0.0 <= r.lastDamageTickTime)
      && (s.lastDamageTickTime < fireRate && 0.0 < fireRate && 0.0 <= dt ==> r.lastDamageTickTime < fireRate)
  {
  }

  /** The update in which the duration runs out still ticks: the beam switches off and yet
      damages the enemy the retarget step found. */
  lemma ExpiringUpdateTicks(s: BeamState, aimed: Option<Enemy>, dt: real, fireRate: real)
    requires s.isActive && s.currentDuration - dt <= 0.0 && aimed.Some? && s.lastDamageTickTime + dt >= fireRate
    ensures Ticks(s, aimed, true, dt, fireRate) && !Stepped(s, aimed, true, dt, fireRate).isActive
    ensures Held(s, dt).None?
  {
  }

  /** A trigger when ready and idle with an enemy in reach switches on for the full duration
      and restarts the cooldown; when not ready it changes nothing. */
  lemma TriggeredShape(s: BeamState, found: Option<Enemy>, duration: real, cooldown: real)
    ensures var r := Triggered(s, found, duration, cooldown);
      && (s.currentCooldown <= 0.0 && !s.isActive && found.Some? ==>
            r.isActive && r.target == found && r.currentDuration == duration && r.currentCooldown == cooldown && r.lastDamageTickTime == 0.0)
      && (s.currentCooldown <= 0.0 && !s.isActive && found.None? ==> !r.isActive && r.target.None?)
      && (!(s.currentCooldown <= 0.0 && !s.isActive) ==> r == s)
  {
  }

  /** The damage of one tick: `damagePerSecond * fireRate`. */
  function TickDamage(damagePerSecond: real, fireRate: real): real {
    damagePerSecond * fireRate
  }

  class LaserBeamWeapon {
    var damagePerSecond: real
    var range: real
    const width: real
    const fireRate: real
    var lastDamageTickTime: real
    var cooldown: real
    var currentCooldown: real
    var duration: real
    var currentDuration: real
    var isActive: bool
    var targetEnemy: Option<Enemy>

    function State(): BeamState
      reads this
    {
      BeamState(currentCooldown, currentDuration, isActive, targetEnemy, lastDamageTickTime)
    }

    /** `new LaserBeamWeapon(damagePerSecond, range, width, fireRate, cooldown, duration,
        beamSprite, soundManager)`: idle, ready, without a target. */
    constructor (damagePerSecond: real, range: real, width: real, fireRate: real, cooldown: real, duration: real)
      ensures this.damagePerSecond == damagePerSecond && this.range == range && this.width == width
      ensures this.fireRate == fireRate && this.cooldown == cooldown && this.duration == duration
      ensures State() == BeamState(0.0, 0.0, false, None, 0.0)
    {
      this.damagePerSecond := damagePerSecond;
      this.range := range;
      this.width := width;
      this.fireRate := fireRate;
      lastDamageTickTime := 0.0;
      this.cooldown := cooldown;
      currentCooldown := 0.0;
      this.duration := duration;
      currentDuration := 0.0;
      isActive := false;
      targetEnemy := None;
    }

    /** `update(dt, playerX, playerY, enemies)`: the beam steps as `Stepped` says, the target
        found by the retarget step takes `TickDamage(damagePerSecond, fireRate)` on a tick,
        and no other enemy changes. */
    method Update(m: MathLib, dt: real, px: real, py: real, enemies: seq<Enemy>, log: EventLog) returns (ghost aimed: Option<Enemy>, ghost alive: bool)
      requires m.Valid()
      modifies this`currentCooldown, this`currentDuration, this`isActive, this`targetEnemy, this`lastDamageTickTime
      modifies enemies, TargetSet(targetEnemy), log`hits, log`bossDefeats
      ensures aimed == if old(isActive) then old(Aimed(m, px, py, Held(State(), dt), range, enemies)) else old(targetEnemy)
      ensures alive <==> aimed.Some? && old(aimed.value.IsAlive())
      ensures State() == Stepped(old(State()), aimed, alive, dt, fireRate)
      ensures Effects(old(State()), aimed, alive, dt, fireRate, TickDamage(damagePerSecond, fireRate), enemies, log)
      ensures var t := old(targetEnemy); t.Some? && t.value !in enemies && t != aimed ==> t.value.View() == old(t.value.View())
    {
      if !isActive {
        aimed := targetEnemy;
        alive := aimed.Some? && aimed.value.IsAlive();
        SetState(State().(currentCooldown := Cooled(currentCooldown, dt)));
        return;
      }
      var r;
      r, aimed, alive := RunActive(m, dt, px, py, State(), range, fireRate, TickDamage(damagePerSecond, fireRate), enemies, log);
      SetState(r);
    }

    /** Stores a beam state into the five fields it describes. */
    method SetState(r: BeamState)
      modifies this`currentCooldown, this`currentDuration, this`isActive, this`targetEnemy, this`lastDamageTickTime
      ensures State() == r
    {
      currentCooldown, currentDuration, isActive, targetEnemy, lastDamageTickTime :=
        r.currentCooldown, r.currentDuration, r.isActive, r.target, r.lastDamageTickTime;
    }

    /** What an update does to the enemies and the event log: a tick damages the aimed enemy
        by `amount` and reports the hit; nothing else changes, the aimed enemy included when
        there is no tick. */
    static twostate predicate Effects(s: BeamState, aimed: Option<Enemy>, alive: bool, dt: real, fireRate: real, amount: real, enemies: seq<Enemy>, log: EventLog)
      reads enemies, TargetSet(aimed), log
    {
      && (Ticks(s, aimed, alive, dt, fireRate) ==>
            && aimed.value.View() == Damaged(old(aimed.value.View()), amount)
            && log.hits == old(log.hits) + [Hit(old(aimed.value.x), old(aimed.value.y), amount)]
            && log.bossDefeats == old(log.bossDefeats) + if DefeatReported(old(aimed.value.View()), amount) then 1 else 0)
      && (!Ticks(s, aimed, alive, dt, fireRate) ==> log.hits == old(log.hits) && log.bossDefeats == old(log.bossDefeats))
      && (aimed.Some? && !Ticks(s, aimed, alive, dt, fireRate) ==> aimed.value.View() == old(aimed.value.View()))
      && forall e :: e in enemies && (!Ticks(s, aimed, alive, dt, fireRate) || e != aimed.value) ==> e.View() == old(e.View())
    }

    /** The update of an active beam, from its state `s`: retarget, then tick. */
    static method RunActive(m: MathLib, dt: real, px: real, py: real, s: BeamState, range: real, fireRate: real, amount: real,
                            enemies: seq<Enemy>, log: EventLog) returns (r: BeamState, ghost aimed: Option<Enemy>, ghost alive: bool)
      requires m.Valid() && s.isActive
      modifies enemies, TargetSet(s.target), log`hits, log`bossDefeats
      ensures aimed == old(Aimed(m, px, py, Held(s, dt), range, enemies))
      ensures alive <==> aimed.Some? && old(aimed.value.IsAlive())
      ensures r == Stepped(s, aimed, alive, dt, fireRate)
      ensures Effects(s, aimed, alive, dt, fireRate, amount, enemies, log)
      ensures s.target.Some? && s.target.value !in enemies && s.target != aimed ==>
        s.target.value.View() == old(s.target.value.View())
    {
      var aim := Aim(m, px, py, Held(s, dt), range, enemies);
      aimed := aim;
      var live := aim.Some? && aim.value.IsAlive();
      alive := live;
      var tick := Strike(s, aim, live, dt, fireRate, amount, enemies, log);
      var dur := s.currentDuration - dt;
      r := BeamState(Cooled(s.currentCooldown, dt), dur, dur > 0.0, aim, tick);
    }

    /** The damage tick of `update`: a living target takes `amount` once the tick timer
        reaches `fireRate`, which restarts the timer. */
    static method Strike(s: BeamState, aim: Option<Enemy>, live: bool, dt: real, fireRate: real, amount: real,
                         enemies: seq<Enemy>, log: EventLog) returns (tick: real)
      requires s.isActive && (live ==> aim.Some?)
      modifies TargetSet(aim), log`hits, log`bossDefeats
      ensures tick == Stepped(s, aim, live, dt, fireRate).lastDamageTickTime
      ensures Effects(s, aim, live, dt, fireRate, amount, enemies, log)
      ensures s.target.Some? && s.target != aim ==> s.target.value.View() == old(s.target.value.View())
    {
      tick := s.lastDamageTickTime;
      if live {
        tick := tick + dt;
        if tick >= fireRate {
          aim.value.TakeDamage(amount, log);
          tick := 0.0;
        }
      }
    }

    /** The retarget step of `update`. */
    static method Aim(m: MathLib, px: real, py: real, t: Option<Enemy>, range: real, enemies: seq<Enemy>) returns (aim: Option<Enemy>)
      requires m.Valid()
      ensures aim == Aimed(m, px, py, t, range, enemies)
    {
      aim := t;
      if aim.None? || !aim.value.IsAlive() || m.Dist(px - aim.value.x, py - aim.value.y) > range {
        aim := NearestAliveInRange(m, px, py, enemies, range);
      }
    }

    /** `triggerBeam(playerX, playerY, enemies)`: when ready and idle, look for the nearest
        living enemy within range and, if there is one, switch on; reports whether it did. */
    method TriggerBeam(m: MathLib, px: real, py: real, enemies: seq<Enemy>) returns (fired: bool)
      requires m.Valid()
      modifies this`targetEnemy, this`isActive, this`currentDuration, this`currentCooldown, this`lastDamageTickTime
      ensures State() == Triggered(old(State()), old(InRange(m, px, py, range, enemies)), duration, cooldown)
      ensures fired <==> old(currentCooldown) <= 0.0 && !old(isActive) && old(InRange(m, px, py, range, enemies)).Some?
    {
      fired := false;
      if currentCooldown <= 0.0 && !isActive {
        var found := NearestAliveInRange(m, px, py, enemies, range);
        if found.Some? {
          targetEnemy, isActive, currentDuration, currentCooldown, lastDamageTickTime := found, true, duration, cooldown, 0.0;
          fired := true;
        } else {
          targetEnemy := found;
        }
      }
    }

    /** `increaseDamage(amount)`. */
    method IncreaseDamage(amount: real)
      modifies this`damagePerSecond
      ensures damagePerSecond == old(damagePerSecond) + amount
    {
      damagePerSecond := damagePerSecond + amount;
    }

    /** `increaseRange(amount)`. */
    method IncreaseRange(amount: real)
      modifies this`range
      ensures range == old(range) + amount
    {
      range := range + amount;
    }

    /** `reduceCooldown(amount)`: never below one second. */
    method ReduceCooldown(amount: real)
      modifies this`cooldown
      ensures cooldown == Max(MinCooldown, old(cooldown) - amount)
    {
      cooldown := Max(MinCooldown, cooldown - amount);
    }

    /** `increaseDuration(amount)`. */
    method IncreaseDuration(amount: real)
      modifies this`duration
      ensures duration == old(duration) + amount
    {
      duration := duration + amount;
    }

    /** `getCooldownCurrent()`. */
    function CooldownCurrent(): real
      reads this
    {
      currentCooldown
    }

    /** `getCooldownMax()`. */
    function CooldownMax(): real
      reads this
    {
      cooldown
    }

    /** `getIsActive()`. */
    predicate IsActive()
      reads this
    {
      isActive
    }
  }
}
