/** Enemies and bosses (src/game/Enemy.ts, src/game/Boss.ts).

    `ShooterEnemy` and `Boss` extend `Enemy` in the game; here one class carries a `kind` tag
    and the boss's extra fields. A regular or shooting enemy keeps phase 0 and zero cooldowns,
    which none of its operations reads. */
module Enemies {
  import opened Wrappers
  import opened Geometry
  import opened Events
  import opened Collaborators
  import opened Seqs
  import Bosses

  /** The projectile parameters a shooting enemy is built with. */
  datatype ProjectileStats = ProjectileStats(speed: real, fireRate: real, damage: int, radius: real, lifetime: real)

  datatype EnemyKind =
    | RegularKind
    | ShooterKind(projectile: ProjectileStats)
    | BossKind(name: string, thresholds: seq<real>)

  /** Everything an enemy holds, as a value. */
  datatype EnemyView = EnemyView(
    x: real, y: real, size: real, speed: real, color: string,
    maxHealth: real, health: real, hitTimer: real, goldDrop: int, kind: EnemyKind,
    phase: nat, attackCooldown: real, currentAttackCooldown: real, reportsDefeat: bool)

  /** `isAlive()`. */
  predicate Alive(v: EnemyView) {
    v.health > 0.0
  }

  // ---------------------------------------------------------------------------------------
  // takeDamage

  /** The enemy after `takeDamage(amount)`. */
  function Damaged(v: EnemyView, amount: real): (r: EnemyView)
    ensures 0.0 <= r.health
    ensures amount < v.health ==> r.health == v.health - amount
    ensures Alive(r) <==> amount < v.health
    ensures r == v.(health := r.health, hitTimer := 0.1)
  {
    var h := v.health - amount;
    v.(health := if h < 0.0 then 0.0 else h, hitTimer := 0.1)
  }

  /** Whether `takeDamage(amount)` runs a boss's defeat callback: a boss whose callback was
      set ends the hit with zero health. */
  predicate DefeatReported(v: EnemyView, amount: real) {
    v.kind.BossKind? && v.reportsDefeat && !Alive(Damaged(v, amount))
  }

  /** A defeated boss reports its defeat again on every further hit: there is no once-only
      guard. */
  lemma DefeatReportedEveryHit(v: EnemyView, amount: real)
    requires v.kind.BossKind? && v.reportsDefeat && !Alive(v) && 0.0 <= amount
    ensures DefeatReported(v, amount)
    ensures !Alive(Damaged(v, amount))
  {
  }

  // ---------------------------------------------------------------------------------------
  // update

  /** `Enemy.update(dt, player)`: a living enemy counts its hit flash down and steps toward
      the player at its speed; a dead one does nothing. */
  function Moved(m: MathLib, v: EnemyView, dt: real, px: real, py: real): (r: EnemyView)
    requires m.Valid()
    ensures !Alive(v) ==> r == v
    ensures r == v.(x := r.x, y := r.y, hitTimer := r.hitTimer)
  {
    if !Alive(v) then v
    else
      var hitTimer := if v.hitTimer > 0.0 then v.hitTimer - dt else v.hitTimer;
      var dx := px - v.x;
      var dy := py - v.y;
      var distance := m.Dist(dx, dy);
      if distance > 0.0 then
        v.(hitTimer := hitTimer, x := v.x + (dx / distance) * (v.speed * dt), y := v.y + (dy / distance) * (v.speed * dt))
      else
        v.(hitTimer := hitTimer)
  }

  /** A living enemy away from the player covers exactly `speed * dt` toward it when that
      step is not negative; one standing on the player stays put; the hit flash only counts
      down while it is positive. */
  lemma {:induction false} MovedStepLength(m: MathLib, v: EnemyView, dt: real, px: real, py: real)
    requires m.Valid() && Alive(v)
    ensures 0.0 < m.Dist(px - v.x, py - v.y) && 0.0 <= v.speed * dt ==>
      m.Dist(Moved(m, v, dt, px, py).x - v.x, Moved(m, v, dt, px, py).y - v.y) == v.speed * dt
    ensures m.Dist(px - v.x, py - v.y) == 0.0 ==> Moved(m, v, dt, px, py).x == v.x && Moved(m, v, dt, px, py).y == v.y
    ensures Moved(m, v, dt, px, py).hitTimer == (if v.hitTimer > 0.0 then v.hitTimer - dt else v.hitTimer)
  {
    var dx := px - v.x;
    var dy := py - v.y;
    var k := v.speed * dt;
    if 0.0 < m.Dist(dx, dy) && 0.0 <= k {
      var r := Moved(m, v, dt, px, py);
      StepLength(m, dx, dy, k);
      DistCongruent(m, (dx / m.Dist(dx, dy)) * k, (dy / m.Dist(dx, dy)) * k, r.x - v.x, r.y - v.y);
    }
  }

  /** A step that does not overshoot leaves the enemy exactly `speed * dt` closer to the
      player. */
  lemma {:induction false} MovedCloser(m: MathLib, v: EnemyView, dt: real, px: real, py: real)
    requires m.Valid() && Alive(v)
    requires 0.0 < m.Dist(px - v.x, py - v.y) && 0.0 <= v.speed * dt <= m.Dist(px - v.x, py - v.y)
    ensures m.Dist(px - Moved(m, v, dt, px, py).x, py - Moved(m, v, dt, px, py).y) == m.Dist(px - v.x, py - v.y) - v.speed * dt
  {
    var dx := px - v.x;
    var dy := py - v.y;
    var k := v.speed * dt;
    var r := Moved(m, v, dt, px, py);
    StepToward(m, dx, dy, k);
    DistCongruent(m, dx - (dx / m.Dist(dx, dy)) * k, dy - (dy / m.Dist(dx, dy)) * k, px - r.x, py - r.y);
  }

  /** What one `update` produces: the enemy afterwards, the attack visuals it emitted and
      the damage it dealt to the player, in order. */
  datatype UpdateOutcome = UpdateOutcome(enemy: EnemyView, visuals: seq<VisualRequest>, playerDamage: seq<real>)

  /** `performSpecialAttack(player)`: one visual of radius `2 * size` for 0.5 seconds, and
      `20 + 5 * phase` damage to a player whose circle reaches into that radius. */
  function SpecialAttack(m: MathLib, v: EnemyView, px: real, py: real, psize: real): (r: (VisualRequest, seq<real>))
    requires m.Valid()
    ensures r.0 == VisualRequest(v.x, v.y, v.size * 2.0, 0.5, "red")
    ensures |r.1| <= 1
    ensures r.1 != [] <==> m.Dist(px - v.x, py - v.y) < v.size * 2.0 + psize / 2.0
    ensures r.1 != [] ==> r.1[0] == 20.0 + 5.0 * (v.phase as real)
  {
    var radius := v.size * 2.0;
    var damage := 20.0 + (v.phase as real) * 5.0;
    var visual := VisualRequest(v.x, v.y, radius, 0.5, "red");
    if m.Dist(px - v.x, py - v.y) < radius + psize / 2.0 then (visual, [damage]) else (visual, [])
  }

  /** `onPhaseChange()` on entering phase `v.phase`. */
  function PhaseEntered(v: EnemyView): (r: EnemyView)
    ensures 1 <= v.phase <= 3 ==> r.attackCooldown == v.attackCooldown * 0.8
    ensures v.phase == 1 ==> r.speed == v.speed * 1.2 && r.color == "darkred"
    ensures v.phase == 2 ==> r.speed == v.speed * 1.1 && r.color == "purple"
    ensures v.phase == 3 ==> r.speed == v.speed * 1.1 && r.color == "black"
    ensures !(1 <= v.phase <= 3) ==> r == v
    ensures r == v.(speed := r.speed, color := r.color, attackCooldown := r.attackCooldown)
  {
    match v.phase
    case 1 => v.(speed := v.speed * 1.2, color := "darkred", attackCooldown := v.attackCooldown * 0.8)
    case 2 => v.(speed := v.speed * 1.1, color := "purple", attackCooldown := v.attackCooldown * 0.8)
    case 3 => v.(speed := v.speed * 1.1, color := "black", attackCooldown := v.attackCooldown * 0.8)
    case _ => v
  }

  /** `currentHealth / maxHealth`; a zero maximum gives a ratio no threshold compares with
      (IEEE NaN or infinity), which the search reads as "no threshold reached". */
  function HealthRatio(v: EnemyView): Option<real> {
    if v.maxHealth == 0.0 then None else Some(v.health / v.maxHealth)
  }

  /** `checkPhaseChange()`. */
  function PhaseChecked(v: EnemyView): (r: EnemyView)
    requires v.kind.BossKind?
  {
    var ratio := HealthRatio(v);
    if ratio.None? then v
    else match Bosses.FirstCrossed(ratio.value, v.kind.thresholds, v.phase, 0)
      case NoCrossing => v
      case CrossedAt(i) => PhaseEntered(v.(phase := i + 1))
  }

  /** The phase check moves the phase as `Bosses.NextPhase` says and touches only the
      fields the phase entry changes. */
  lemma PhaseCheckedPhase(v: EnemyView)
    requires v.kind.BossKind?
    ensures var r := PhaseChecked(v);
      && r == v.(phase := r.phase, speed := r.speed, color := r.color, attackCooldown := r.attackCooldown)
      && r.phase == (if HealthRatio(v).None? then v.phase else Bosses.NextPhase(HealthRatio(v).value, v.kind.thresholds, v.phase))
  {
  }

  /** `Boss.update(dt, player)` after the enemy step: a living boss counts its special-attack
      cooldown down while positive, otherwise attacks once and restarts the cooldown, then
      checks for a phase change. */
  function BossStep(m: MathLib, v: EnemyView, dt: real, px: real, py: real, psize: real): (r: UpdateOutcome)
    requires m.Valid() && v.kind.BossKind?
  {
    if !Alive(v) then UpdateOutcome(v, [], [])
    else if v.currentAttackCooldown > 0.0 then
      UpdateOutcome(PhaseChecked(v.(currentAttackCooldown := v.currentAttackCooldown - dt)), [], [])
    else
      var attack := SpecialAttack(m, v, px, py, psize);
      UpdateOutcome(PhaseChecked(v.(currentAttackCooldown := v.attackCooldown)), [attack.0], attack.1)
  }

  /** One `update` of any enemy kind. The shooting enemy's own update is not part of this
      model; it moves as a regular enemy. */
  function Updated(m: MathLib, v: EnemyView, dt: real, px: real, py: real, psize: real): (r: UpdateOutcome)
    requires m.Valid()
  {
    var moved := Moved(m, v, dt, px, py);
    if v.kind.BossKind? then BossStep(m, moved, dt, px, py, psize) else UpdateOutcome(moved, [], [])
  }

  /** An update never changes health, and a dead enemy of any kind is left exactly as it was
      and emits nothing. */
  lemma UpdatedDeadNoOp(m: MathLib, v: EnemyView, dt: real, px: real, py: real, psize: real)
    requires m.Valid()
    ensures Updated(m, v, dt, px, py, psize).enemy.health == v.health
    ensures !Alive(v) ==> Updated(m, v, dt, px, py, psize) == UpdateOutcome(v, [], [])
  {
  }

  /** A living boss attacks exactly when its cooldown has run out; the attack restarts the
      cooldown at the special-attack cooldown the boss had before the phase check, emits one
      visual and deals at most one hit; a waiting boss counts down by `dt`. */
  lemma {:induction false} BossCooldown(m: MathLib, v: EnemyView, dt: real, px: real, py: real, psize: real)
    requires m.Valid() && v.kind.BossKind? && Alive(v)
    ensures var r := Updated(m, v, dt, px, py, psize);
      && r.enemy.phase >= v.phase
      && (v.currentAttackCooldown > 0.0 ==> r.visuals == [] && r.playerDamage == [] && r.enemy.currentAttackCooldown == v.currentAttackCooldown - dt)
      && (v.currentAttackCooldown <= 0.0 ==> |r.visuals| == 1 && |r.playerDamage| <= 1 && r.enemy.currentAttackCooldown == v.attackCooldown)
  {
    var moved := Moved(m, v, dt, px, py);
    PhaseCheckedPhase(moved.(currentAttackCooldown := moved.currentAttackCooldown - dt));
    PhaseCheckedPhase(moved.(currentAttackCooldown := moved.attackCooldown));
  }

  // ---------------------------------------------------------------------------------------
  // collidesWith

  /** `collidesWith(other)`: centre distance below the sum of the two half sizes. */
  predicate CollidesWith(m: MathLib, v: EnemyView, ox: real, oy: real, osize: real)
    requires m.Valid()
  {
    CirclesOverlap(m, v.x, v.y, v.size / 2.0, ox, oy, osize / 2.0)
  }

  /** Two enemies collide with each other or not at all. */
  lemma CollidesWithSymmetric(m: MathLib, a: EnemyView, b: EnemyView)
    requires m.Valid()
    ensures CollidesWith(m, a, b.x, b.y, b.size) == CollidesWith(m, b, a.x, a.y, a.size)
  {
    CirclesOverlapSymmetric(m, a.x, a.y, a.size / 2.0, b.x, b.y, b.size / 2.0);
  }

  // ---------------------------------------------------------------------------------------
  // The class

  class Enemy {
    var x: real
    var y: real
    const size: real
    var speed: real
    var color: string
    const maxHealth: real
    var currentHealth: real
    var hitTimer: real
    const goldDrop: int
    const kind: EnemyKind
    var phase: nat
    var specialAttackCooldown: real
    var currentSpecialAttackCooldown: real
    /** Whether `setOnDefeatCallback` installed a callback; the default one does nothing. */
    var reportsDefeat: bool

    function View(): EnemyView
      reads this
    {
      EnemyView(x, y, size, speed, color, maxHealth, currentHealth, hitTimer, goldDrop, kind,
                phase, specialAttackCooldown, currentSpecialAttackCooldown, reportsDefeat)
    }

    /** `new Enemy(x, y, size, speed, color, maxHealth, .., goldDrop = 0, ..)`. */
    constructor (x: real, y: real, size: real, speed: real, color: string, maxHealth: real, goldDrop: Option<int>)
      ensures View() == EnemyView(x, y, size, speed, color, maxHealth, maxHealth, 0.0,
                                  if goldDrop.Some? then goldDrop.value else 0, RegularKind, 0, 0.0, 0.0, false)
    {
      this.x := x;
      this.y := y;
      this.size := size;
      this.speed := speed;
      this.color := color;
      this.maxHealth := maxHealth;
      currentHealth := maxHealth;
      hitTimer := 0.0;
      this.goldDrop := if goldDrop.Some? then goldDrop.value else 0;
      kind := RegularKind;
      phase := 0;
      specialAttackCooldown := 0.0;
      currentSpecialAttackCooldown := 0.0;
      reportsDefeat := false;
    }

    /** `new ShooterEnemy(..)`: an enemy that also carries its projectile parameters. */
    constructor Shooter(x: real, y: real, size: real, speed: real, color: string, maxHealth: real, goldDrop: int,
                        stats: ProjectileStats)
      ensures View() == EnemyView(x, y, size, speed, color, maxHealth, maxHealth, 0.0, goldDrop,
                                  ShooterKind(stats), 0, 0.0, 0.0, false)
    {
      this.x := x;
      this.y := y;
      this.size := size;
      this.speed := speed;
      this.color := color;
      this.maxHealth := maxHealth;
      currentHealth := maxHealth;
      hitTimer := 0.0;
      this.goldDrop := goldDrop;
      kind := ShooterKind(stats);
      phase := 0;
      specialAttackCooldown := 0.0;
      currentSpecialAttackCooldown := 0.0;
      reportsDefeat := false;
    }

    /** `new Boss(..)`: name, thresholds and cooldown fall back to their defaults, the
        thresholds are sorted descending, the phase starts at 0 and the countdown at the full
        cooldown. */
    constructor Boss(x: real, y: real, size: real, speed: real, color: string, maxHealth: real, goldDrop: int,
                     bossName: Option<string>, phaseThresholds: Option<seq<real>>, attackCooldown: Option<real>)
      ensures var cooldown := if attackCooldown.Some? then attackCooldown.value else Bosses.DefaultAttackCooldown;
        View() == EnemyView(x, y, size, speed, color, maxHealth, maxHealth, 0.0, goldDrop,
                            BossKind(if bossName.Some? then bossName.value else Bosses.DefaultName,
                                     Bosses.SortDescending(if phaseThresholds.Some? then phaseThresholds.value
                                                           else Bosses.DefaultThresholds)),
                            0, cooldown, cooldown, false)
    {
      this.x := x;
      this.y := y;
      this.size := size;
      this.speed := speed;
      this.color := color;
      this.maxHealth := maxHealth;
      currentHealth := maxHealth;
      hitTimer := 0.0;
      this.goldDrop := goldDrop;
      kind := BossKind(if bossName.Some? then bossName.value else Bosses.DefaultName,
                       Bosses.SortDescending(if phaseThresholds.Some? then phaseThresholds.value
                                             else Bosses.DefaultThresholds));
      phase := 0;
      var cooldown := if attackCooldown.Some? then attackCooldown.value else Bosses.DefaultAttackCooldown;
      specialAttackCooldown := cooldown;
      currentSpecialAttackCooldown := cooldown;
      reportsDefeat := false;
    }

    predicate IsAlive()
      reads this
    {
      currentHealth > 0.0
    }

    predicate Collides(m: MathLib, ox: real, oy: real, osize: real)
      requires m.Valid()
      reads this
    {
      CollidesWith(m, View(), ox, oy, osize)
    }

    /** `setOnDefeatCallback(callback)`. */
    method SetOnDefeatCallback()
      requires kind.BossKind?
      modifies this`reportsDefeat
      ensures View() == old(View()).(reportsDefeat := true)
    {
      reportsDefeat := true;
    }

    /** `takeDamage(amount)`: the hit is logged at the enemy's position and a boss left at
        zero health reports its defeat. */
    method TakeDamage(amount: real, log: EventLog)
      modifies this`currentHealth, this`hitTimer, log`hits, log`bossDefeats
      ensures View() == Damaged(old(View()), amount)
      ensures log.hits == old(log.hits) + [Hit(x, y, amount)]
      ensures log.bossDefeats == old(log.bossDefeats) + if DefeatReported(old(View()), amount) then 1 else 0
    {
      currentHealth := currentHealth - amount;
      hitTimer := 0.1;
      log.hits := log.hits + [Hit(x, y, amount)];
      if currentHealth < 0.0 {
        currentHealth := 0.0;
      }
      if kind.BossKind? && !IsAlive() && reportsDefeat {
        log.bossDefeats := log.bossDefeats + 1;
      }
    }

    /** `update(dt, player)`, for every kind. */
    method Update(m: MathLib, dt: real, player: Player, log: EventLog)
      requires m.Valid()
      modifies this, log`visuals, player`damageTaken
      ensures var o := Updated(m, old(View()), dt, player.x, player.y, player.size);
        && View() == o.enemy
        && log.visuals == old(log.visuals) + o.visuals
        && player.damageTaken == old(player.damageTaken) + o.playerDamage
    {
      MoveTowards(m, dt, player.x, player.y);
      if kind.BossKind? && IsAlive() {
        if currentSpecialAttackCooldown > 0.0 {
          currentSpecialAttackCooldown := currentSpecialAttackCooldown - dt;
        } else {
          PerformSpecialAttack(m, player, log);
          currentSpecialAttackCooldown := specialAttackCooldown;
        }
        CheckPhaseChange();
      }
    }

    /** The part of `update` every enemy shares. */
    method MoveTowards(m: MathLib, dt: real, px: real, py: real)
      requires m.Valid()
      modifies this`x, this`y, this`hitTimer
      ensures View() == Moved(m, old(View()), dt, px, py)
    {
      if !IsAlive() {
        return;
      }
      if hitTimer > 0.0 {
        hitTimer := hitTimer - dt;
      }
      var dx := px - x;
      var dy := py - y;
      var distance := m.Dist(dx, dy);
      if distance > 0.0 {
        x := x + (dx / distance) * (speed * dt);
        y := y + (dy / distance) * (speed * dt);
      }
    }

    /** `performSpecialAttack(player)`. */
    method PerformSpecialAttack(m: MathLib, player: Player, log: EventLog)
      requires m.Valid()
      modifies log`visuals, player`damageTaken
      ensures var a := SpecialAttack(m, View(), player.x, player.y, player.size);
        log.visuals == old(log.visuals) + [a.0] && player.damageTaken == old(player.damageTaken) + a.1
    {
      var attackRadius := size * 2.0;
      var attackDamage := 20.0 + (phase as real) * 5.0;
      log.visuals := log.visuals + [VisualRequest(x, y, attackRadius, 0.5, "red")];
      var dx := player.x - x;
      var dy := player.y - y;
      var distance := m.Dist(dx, dy);
      if distance < attackRadius + player.size / 2.0 {
        player.TakeDamage(attackDamage);
      }
    }

    /** `checkPhaseChange()`: the first threshold reached at a phase not yet past it moves
        the boss into the next phase. */
    method CheckPhaseChange()
      requires kind.BossKind?
      modifies this`phase, this`speed, this`color, this`specialAttackCooldown
      ensures View() == PhaseChecked(old(View()))
    {
      if maxHealth == 0.0 {
        return;
      }
      var healthRatio := currentHealth / maxHealth;
      var thresholds := kind.thresholds;
      var i := 0;
      while i < |thresholds|
        invariant 0 <= i <= |thresholds|
        invariant View() == old(View())
        invariant Bosses.FirstCrossed(healthRatio, thresholds, phase, 0) == Bosses.FirstCrossed(healthRatio, thresholds, phase, i)
      {
        if healthRatio <= thresholds[i] && phase <= i {
          phase := i + 1;
          OnPhaseChange();
          return;
        }
        i := i + 1;
      }
    }

    /** `onPhaseChange()`. */
    method OnPhaseChange()
      modifies this`speed, this`color, this`specialAttackCooldown
      ensures View() == PhaseEntered(old(View()))
    {
      if phase == 1 {
        speed := speed * 1.2;
        color := "darkred";
        specialAttackCooldown := specialAttackCooldown * 0.8;
      } else if phase == 2 {
        speed := speed * 1.1;
        color := "purple";
        specialAttackCooldown := specialAttackCooldown * 0.8;
      } else if phase == 3 {
        speed := speed * 1.1;
        color := "black";
        specialAttackCooldown := specialAttackCooldown * 0.8;
      }
    }
  }

  // ---------------------------------------------------------------------------------------
  // Lists of enemies

  /** The views of a list of enemies, in order. */
  function Views(es: seq<Enemy>): (vs: seq<EnemyView>)
    reads es
    ensures |vs| == |es| && forall i :: 0 <= i < |es| ==> vs[i] == es[i].View()
  {
    if es == [] then [] else Views(es[..|es| - 1]) + [es[|es| - 1].View()]
  }
}
