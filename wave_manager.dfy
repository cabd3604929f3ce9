/** Wave and boss progression (src/game/WaveManager.ts).

    Three modes: while a boss is alive or its warning is showing, nothing moves; otherwise the
    wave clock runs, every 60 seconds the wave number rises and the spawn interval shrinks by
    10% down to a floor of 0.5, and every third wave clears the field and announces a boss in
    a random corner. Regular enemies spawn on their own timer just outside the camera, with
    stats that grow linearly with the wave number.

    `Math.random()` results are parameters, each in `[0, 1)` where the game indexes a table
    with it. */
module WaveManagers {
  import opened Wrappers
  import opened Geometry
  import opened Collaborators
  import opened Enemies
  import opened GameStates
  import opened EntityManagers

  // ---------------------------------------------------------------------------------------
  // The wave clock

  /** Seconds per wave. */
  const WaveLength: real := 60.0
  /** A boss comes every this many waves. */
  const BossEvery: int := 3
  /** The spawn interval never shrinks below this. */
  const MinSpawnInterval: real := 0.5
  /** Each wave multiplies the spawn interval by this. */
  const IntervalShrink: real := 0.9

  /** The four numbers the wave logic advances: elapsed wave time, wave number and spawn
      interval (all held in the game state) and the spawn timer (held by the manager). */
  datatype WaveClock = WaveClock(waveTimeElapsed: real, waveNumber: int, enemySpawnInterval: real, enemySpawnTimer: real)

  /** One unguarded step: the new clock, whether a boss warning fires, whether an enemy spawns. */
  datatype Tick = Tick(clock: WaveClock, warn: bool, spawn: bool)

  /** The interval after one more wave. */
  function Shrunk(interval: real): (r: real)
    ensures MinSpawnInterval <= r && (r == MinSpawnInterval || r == IntervalShrink * interval)
  {
    Max(MinSpawnInterval, interval * IntervalShrink)
  }

  /** The step of `update` past its guard: the wave time grows by `dt` and rolls over into a new
      wave once it reaches the wave length; a new wave that is a multiple of three warns of a
      boss; then the spawn timer grows by `dt` and, once it reaches the (possibly just shrunk)
      interval, spawns one enemy and restarts. */
  function Advance(c: WaveClock, dt: real): Tick {
    var elapsed := c.waveTimeElapsed + dt;
    var rolled := elapsed >= WaveLength;
    var wave := if rolled then c.waveNumber + 1 else c.waveNumber;
    var interval := if rolled then Shrunk(c.enemySpawnInterval) else c.enemySpawnInterval;
    var timer := c.enemySpawnTimer + dt;
    var spawn := timer >= interval;
    Tick(WaveClock(if rolled then 0.0 else elapsed, wave, interval, if spawn then 0.0 else timer),
         rolled && wave % BossEvery == 0, spawn)
  }

  /** A wave ends exactly when its time reaches the wave length; the wave number then rises by
      one, the time restarts and the interval shrinks to at least the floor; otherwise the time
      just grows and the wave and interval stay. */
  lemma WaveRollover(c: WaveClock, dt: real)
    ensures var r := Advance(c, dt).clock;
      && (r.waveNumber == c.waveNumber + 1 <==> c.waveTimeElapsed + dt >= WaveLength)
      && (r.waveNumber == c.waveNumber <==> c.waveTimeElapsed + dt < WaveLength)
      && (c.waveTimeElapsed + dt >= WaveLength ==>
            r.waveTimeElapsed == 0.0 && r.enemySpawnInterval == Shrunk(c.enemySpawnInterval))
      && (c.waveTimeElapsed + dt < WaveLength ==>
            r.waveTimeElapsed == c.waveTimeElapsed + dt && r.enemySpawnInterval == c.enemySpawnInterval)
  { }

  /** A boss warning fires exactly on the step that starts a wave whose number is a multiple
      of three. */
  lemma BossEveryThirdWave(c: WaveClock, dt: real)
    ensures var t := Advance(c, dt);
      t.warn <==> t.clock.waveNumber != c.waveNumber && t.clock.waveNumber % BossEvery == 0
  { }

  /** Exactly one enemy spawns when the timer reaches the interval, and the timer restarts;
      otherwise none spawns and the timer keeps counting. */
  lemma SpawnOnTimer(c: WaveClock, dt: real)
    ensures var t := Advance(c, dt);
      && (t.spawn <==> c.enemySpawnTimer + dt >= t.clock.enemySpawnInterval)
      && (t.spawn ==> t.clock.enemySpawnTimer == 0.0)
      && (!t.spawn ==> t.clock.enemySpawnTimer == c.enemySpawnTimer + dt)
  { }

  /** The bounds every frame keeps: a wave number of at least one, elapsed time within the wave,
      an interval at or above the floor, and a spawn timer below the interval. */
  predicate ClockOk(c: WaveClock) {
    && 1 <= c.waveNumber
    && 0.0 <= c.waveTimeElapsed < WaveLength
    && MinSpawnInterval <= c.enemySpawnInterval
    && 0.0 <= c.enemySpawnTimer < c.enemySpawnInterval
  }

  /** The clock the game starts with: wave 1, nothing elapsed, a two-second interval and a
      fresh timer. */
  const StartClock: WaveClock := WaveClock(0.0, 1, 2.0, 0.0)

  /** Any step by a non-negative `dt` keeps the bounds, whatever the step does. */
  lemma {:induction false} AdvanceKeepsClockOk(c: WaveClock, dt: real)
    requires ClockOk(c) && 0.0 <= dt
    ensures ClockOk(Advance(c, dt).clock)
  {
    var t := Advance(c, dt);
    if c.waveTimeElapsed + dt >= WaveLength {
      assert t.clock.enemySpawnInterval == Shrunk(c.enemySpawnInterval);
    }
    assert MinSpawnInterval <= t.clock.enemySpawnInterval;
    if t.spawn {
      assert t.clock.enemySpawnTimer == 0.0;
    } else {
      assert t.clock.enemySpawnTimer == c.enemySpawnTimer + dt < t.clock.enemySpawnInterval;
    }
  }

  /** The clock after a run of unguarded steps. */
  function Run(c: WaveClock, dts: seq<real>): (r: WaveClock)
    decreases |dts|
  {
    if |dts| == 0 then c else Run(Advance(c, dts[0]).clock, dts[1..])
  }

  /** From the start, however many frames of non-negative length pass, the bounds hold. */
  lemma {:induction false} RunKeepsClockOk(c: WaveClock, dts: seq<real>)
    requires ClockOk(c) && forall k :: 0 <= k < |dts| ==> 0.0 <= dts[k]
    ensures ClockOk(Run(c, dts))
    decreases |dts|
  {
    if |dts| > 0 {
      AdvanceKeepsClockOk(c, dts[0]);
      RunKeepsClockOk(Advance(c, dts[0]).clock, dts[1..]);
    }
  }

  /** The interval after `n` more waves: the floor or the geometric value, whichever is
      larger. */
  function ShrunkTimes(interval: real, n: nat): real {
    if n == 0 then interval else Shrunk(ShrunkTimes(interval, n - 1))
  }

  /** The interval shrunk geometrically `n` times, with no floor: `0.9^n * interval`. */
  function Geometric(interval: real, n: nat): real {
    if n == 0 then interval else IntervalShrink * Geometric(interval, n - 1)
  }

  /** One more shrink of a floored interval is the floor of the shrunk interval. */
  lemma ShrunkFloored(g: real)
    ensures Shrunk(Max(MinSpawnInterval, g)) == Max(MinSpawnInterval, IntervalShrink * g)
  { }

  /** Shrinking `n` times with the floor after every wave gives the same interval as shrinking
      geometrically and applying the floor once, because 0.9 times anything below the floor is
      below it too. */
  lemma {:induction false} ShrunkTimesClosedForm(interval: real, n: nat)
    ensures n > 0 ==> ShrunkTimes(interval, n) == Max(MinSpawnInterval, Geometric(interval, n))
  {
    if n > 1 {
      var k := n - 1;
      ShrunkTimesClosedForm(interval, k);
      ShrunkFloored(Geometric(interval, k));
    }
  }

  // ---------------------------------------------------------------------------------------
  // Regular enemies

  /** A `Math.random()` result as the game indexes a table with it. */
  predicate Random(r: real) {
    0.0 <= r < 1.0
  }

  /** The pick `Math.floor(r * 4)` among four entries. */
  function Pick4(r: real): (k: nat)
    requires Random(r)
    ensures k < 4
  {
    var f := (r * 4.0).Floor;
    assert 0 <= f < 4;
    f
  }

  /** The side of the camera a regular enemy appears beyond. */
  datatype Side = Top | Bottom | Left | Right

  function SideOf(r: real): Side
    requires Random(r)
  {
    var k := Pick4(r);
    if k == 0 then Top else if k == 1 then Bottom else if k == 2 then Left else Right
  }

  /** How far outside the camera a regular enemy appears. */
  const SpawnPadding: real := 100.0

  /** The spawn point: beyond the chosen camera edge by the padding (limited to the world on
      that axis), at a random place along that edge's axis, and then clamped into the world. */
  function SpawnPoint(side: Side, r: real, camX: real, camY: real, canvasWidth: real, canvasHeight: real,
                      worldWidth: real, worldHeight: real): (p: (real, real))
    ensures 0.0 <= worldWidth ==> 0.0 <= p.0 <= worldWidth
    ensures 0.0 <= worldHeight ==> 0.0 <= p.1 <= worldHeight
  {
    var raw := match side
      case Top => (r * worldWidth, Max(0.0, camY - SpawnPadding))
      case Bottom => (r * worldWidth, Min(worldHeight, camY + canvasHeight + SpawnPadding))
      case Left => (Max(0.0, camX - SpawnPadding), r * worldHeight)
      case Right => (Min(worldWidth, camX + canvasWidth + SpawnPadding), r * worldHeight);
    (Clamp(raw.0, 0.0, worldWidth), Clamp(raw.1, 0.0, worldHeight))
  }

  /** Where the padded edge lies inside the world, the enemy appears exactly the padding
      beyond the camera on its side: above, below, left or right of the view. */
  lemma SpawnBeyondCamera(side: Side, r: real, camX: real, camY: real, canvasWidth: real, canvasHeight: real,
                          worldWidth: real, worldHeight: real)
    ensures var p := SpawnPoint(side, r, camX, camY, canvasWidth, canvasHeight, worldWidth, worldHeight);
      && (side == Top && 0.0 <= camY - SpawnPadding <= worldHeight ==> p.1 == camY - SpawnPadding)
      && (side == Bottom && 0.0 <= camY + canvasHeight + SpawnPadding <= worldHeight ==>
            p.1 == camY + canvasHeight + SpawnPadding)
      && (side == Left && 0.0 <= camX - SpawnPadding <= worldWidth ==> p.0 == camX - SpawnPadding)
      && (side == Right && 0.0 <= camX + canvasWidth + SpawnPadding <= worldWidth ==>
            p.0 == camX + canvasWidth + SpawnPadding)
  { }

  /** One row of the enemy table: its type, size and base health, speed and gold. */
  datatype EnemyTemplate = EnemyTemplate(kind: EnemyType, size: real, baseHealth: real, baseSpeed: real, baseGold: int)

  /** The four regular enemy types, in the table's order. */
  function Templates(): (ts: seq<EnemyTemplate>)
    ensures |ts| == 4
  {
    [EnemyTemplate(Normal, 20.0, 30.0, 100.0, 5), EnemyTemplate(Fast, 15.0, 20.0, 150.0, 3),
     EnemyTemplate(Tanky, 25.0, 50.0, 70.0, 8), EnemyTemplate(Shooter, 22.0, 25.0, 80.0, 7)]
  }

  function TemplateOf(r: real): EnemyTemplate
    requires Random(r)
  {
    Templates()[Pick4(r)]
  }

  /** `1 + (wave - 1) * rate`. */
  function Multiplier(wave: int, rate: real): real {
    1.0 + ((wave - 1) as real) * rate
  }

  /** Health grows 20% of the base per wave and is rounded down. */
  function HealthAt(base: real, wave: int): int {
    (base * Multiplier(wave, 0.2)).Floor
  }

  /** Speed grows 5% of the base per wave. */
  function SpeedAt(base: real, wave: int): real {
    base * Multiplier(wave, 0.05)
  }

  /** Gold grows 10% of the base per wave and is rounded down. */
  function GoldAt(base: int, wave: int): int {
    ((base as real) * Multiplier(wave, 0.1)).Floor
  }

  /** A shooter's projectile: its damage of 10 grows 10% per wave, rounded down; speed, fire
      rate, radius and lifetime are fixed. */
  function ShooterStats(wave: int): ProjectileStats {
    ProjectileStats(200.0, 2.0, (10.0 * Multiplier(wave, 0.1)).Floor, 6.0, 2.0)
  }

  /** Enemies are 70% of their size on mobile. */
  function SpawnSize(size: real, mobile: bool): real {
    if mobile then size * 0.7 else size
  }

  /** At wave 1 every multiplier is one, so whole-number bases come out unchanged. */
  lemma BaseStatsAtWaveOne(base: real, gold: int)
    requires base == (base.Floor as real)
    ensures HealthAt(base, 1) as real == base && SpeedAt(base, 1) == base && GoldAt(gold, 1) == gold
    ensures ShooterStats(1).damage == 10
  { }

  lemma FloorMonotone(a: real, b: real)
    requires a <= b
    ensures a.Floor <= b.Floor
  { }

  /** A later wave has a multiplier at least as large, and scales a non-negative base to at
      least as much. */
  lemma ScaleMonotone(base: real, rate: real, w1: int, w2: int)
    requires 0.0 <= base && 0.0 <= rate && w1 <= w2
    ensures base * Multiplier(w1, rate) <= base * Multiplier(w2, rate)
  {
    var f1, f2 := Multiplier(w1, rate), Multiplier(w2, rate);
    assert f2 - f1 == ((w2 - w1) as real) * rate;
    assert 0.0 <= f2 - f1;
    assert base * f2 - base * f1 == base * (f2 - f1);
  }

  /** Later waves never bring weaker enemies: health, speed, gold and shooter damage are all
      non-decreasing in the wave number, for non-negative bases. */
  lemma HealthGrowsWithWave(base: real, w1: int, w2: int)
    requires 0.0 <= base && w1 <= w2
    ensures HealthAt(base, w1) <= HealthAt(base, w2)
  {
    ScaleMonotone(base, 0.2, w1, w2);
    FloorMonotone(base * Multiplier(w1, 0.2), base * Multiplier(w2, 0.2));
  }

  lemma SpeedGrowsWithWave(base: real, w1: int, w2: int)
    requires 0.0 <= base && w1 <= w2
    ensures SpeedAt(base, w1) <= SpeedAt(base, w2)
  {
    ScaleMonotone(base, 0.05, w1, w2);
  }

  lemma GoldGrowsWithWave(gold: int, w1: int, w2: int)
    requires 0 <= gold && w1 <= w2
    ensures GoldAt(gold, w1) <= GoldAt(gold, w2)
  {
    ScaleMonotone(gold as real, 0.1, w1, w2);
    FloorMonotone((gold as real) * Multiplier(w1, 0.1), (gold as real) * Multiplier(w2, 0.1));
  }

  lemma DamageGrowsWithWave(w1: int, w2: int)
    requires w1 <= w2
    ensures ShooterStats(w1).damage <= ShooterStats(w2).damage
  {
    ScaleMonotone(10.0, 0.1, w1, w2);
    FloorMonotone(10.0 * Multiplier(w1, 0.1), 10.0 * Multiplier(w2, 0.1));
  }

  /** The enemy `spawnRegularEnemy` hands to the entity manager: placed by `SpawnPoint`, typed
      by the third draw, scaled to the wave, and a shooter carrying its projectile stats. */
  function RegularSpawn(wave: int, mobile: bool, sideDraw: real, posDraw: real, typeDraw: real,
                        camX: real, camY: real, canvasWidth: real, canvasHeight: real,
                        worldWidth: real, worldHeight: real): (v: EnemyView)
    requires Random(sideDraw) && Random(typeDraw)
    ensures 0.0 <= worldWidth ==> 0.0 <= v.x <= worldWidth
    ensures 0.0 <= worldHeight ==> 0.0 <= v.y <= worldHeight
    ensures v.health == v.maxHealth == HealthAt(TemplateOf(typeDraw).baseHealth, wave) as real
    ensures v.speed == SpeedAt(TemplateOf(typeDraw).baseSpeed, wave)
    ensures v.goldDrop == GoldAt(TemplateOf(typeDraw).baseGold, wave)
    ensures v.size == SpawnSize(TemplateOf(typeDraw).size, mobile)
    ensures v.kind.ShooterKind? <==> TemplateOf(typeDraw).kind == Shooter
    ensures v.kind.ShooterKind? ==> v.kind.projectile == ShooterStats(wave)
    ensures !v.kind.BossKind?
  {
    var p := SpawnPoint(SideOf(sideDraw), posDraw, camX, camY, canvasWidth, canvasHeight, worldWidth, worldHeight);
    var t := TemplateOf(typeDraw);
    SpawnedView(p.0, p.1, t.kind, SpawnSize(t.size, mobile), SpeedAt(t.baseSpeed, wave), HealthAt(t.baseHealth, wave) as real,
                GoldAt(t.baseGold, wave), if t.kind == Shooter then Some(ShooterStats(wave)) else None)
  }

  // ---------------------------------------------------------------------------------------
  // The boss

  function CornerOf(r: real): Corner
    requires Random(r)
  {
    [TopLeft, TopRight, BottomLeft, BottomRight][Pick4(r)]
  }

  /** 80, or 50 on mobile. */
  function BossSize(mobile: bool): real {
    if mobile then 50.0 else 80.0
  }

  /** How far from both walls of its corner the boss appears. */
  function BossOffset(mobile: bool): real {
    BossSize(mobile) / 2.0 + 50.0
  }

  predicate IsLeft(c: Corner) {
    c == TopLeft || c == BottomLeft
  }

  predicate IsTop(c: Corner) {
    c == TopLeft || c == TopRight
  }

  /** How far a point lies from the vertical and the horizontal wall that meet at a corner. */
  function WallGaps(c: Corner, p: (real, real), worldWidth: real, worldHeight: real): (real, real) {
    (if IsLeft(c) then p.0 else worldWidth - p.0, if IsTop(c) then p.1 else worldHeight - p.1)
  }

  /** The boss spawn point of a corner. */
  function BossSpawnPoint(c: Corner, offset: real, worldWidth: real, worldHeight: real): (p: (real, real))
    ensures WallGaps(c, p, worldWidth, worldHeight) == (offset, offset)
  {
    match c
    case TopLeft => (offset, offset)
    case TopRight => (worldWidth - offset, offset)
    case BottomLeft => (offset, worldHeight - offset)
    case BottomRight => (worldWidth - offset, worldHeight - offset)
  }

  /** In a world at least twice the offset across, the boss appears inside it, the offset away
      from every wall. */
  lemma BossSpawnInside(c: Corner, offset: real, worldWidth: real, worldHeight: real)
    requires 2.0 * offset <= worldWidth && 2.0 * offset <= worldHeight
    ensures var p := BossSpawnPoint(c, offset, worldWidth, worldHeight);
      offset <= p.0 <= worldWidth - offset && offset <= p.1 <= worldHeight - offset
  {
    var p := BossSpawnPoint(c, offset, worldWidth, worldHeight);
    assert WallGaps(c, p, worldWidth, worldHeight) == (offset, offset);
  }

  /** `500 + (waveNumber / 3 - 1) * 200`, with the division on numbers, not integers. */
  function BossHealth(wave: int): real {
    500.0 + ((wave as real) / 3.0 - 1.0) * 200.0
  }

  /** The boss of the `k`-th boss wave has 200 more health than the one before it, starting
      from 500. */
  lemma BossHealthOnBossWaves(k: int)
    requires 1 <= k
    ensures BossHealth(BossEvery * k) == 500.0 + 200.0 * ((k - 1) as real)
    ensures BossHealth(BossEvery * (k + 1)) == BossHealth(BossEvery * k) + 200.0
  { }

  /** The letters a boss can be named after. */
  const BossLetters: string := "SIMGE"

  /** The decimal digits of a natural number, as a template literal prints it. */
  function NatString(n: nat): (s: string)
    ensures 1 <= |s| && forall k :: 0 <= k < |s| ==> '0' <= s[k] <= '9'
    decreases n
  {
    if n < 10 then ["0123456789"[n]] else NatString(n / 10) + ["0123456789"[n % 10]]
  }

  /** An integer as a template literal prints it. */
  function IntString(n: int): string {
    if n < 0 then "-" + NatString(-n) else NatString(n)
  }

  /** The number a string of decimal digits denotes. */
  function DigitsValue(s: string): nat
    requires forall k :: 0 <= k < |s| ==> '0' <= s[k] <= '9'
  {
    if |s| == 0 then 0 else 10 * DigitsValue(s[..|s| - 1]) + ((s[|s| - 1] as int) - ('0' as int))
  }

  /** Reading the digits back gives the number: the printed wave number names its wave. */
  lemma {:induction false} NatStringRoundTrip(n: nat)
    ensures DigitsValue(NatString(n)) == n
    decreases n
  {
    if n >= 10 {
      NatStringRoundTrip(n / 10);
      var s := NatString(n);
      assert s[..|s| - 1] == NatString(n / 10);
      DigitValue(n % 10);
    } else {
      DigitValue(n);
    }
  }

  /** The digit printed for `d` is read back as `d`. */
  lemma DigitValue(d: nat)
    requires d < 10
    ensures ("0123456789"[d] as int) - ('0' as int) == d
  {
  }

  /** The boss name: `Boss X` for the next princess letter when it is one of S, I, M, G, E, and
      `Wave N Boss` when it is another letter or there is no letter at that index. */
  function BossName(letters: string, index: int, wave: int): (name: string)
    ensures 0 <= index < |letters| && letters[index] in BossLetters ==> name == "Boss " + [letters[index]]
    ensures !(0 <= index < |letters| && letters[index] in BossLetters) ==> name == "Wave " + IntString(wave) + " Boss"
  {
    if 0 <= index < |letters| && letters[index] in BossLetters then "Boss " + [letters[index]]
    else "Wave " + IntString(wave) + " Boss"
  }

  /** The two kinds of name never coincide: a lettered boss is told apart from a numbered one. */
  lemma BossNamesDistinct(letters: string, index: int, wave: int)
    ensures var name := BossName(letters, index, wave);
      (name[..5] == "Boss ") <==> (0 <= index < |letters| && letters[index] in BossLetters)
  {
    var name := BossName(letters, index, wave);
    if !(0 <= index < |letters| && letters[index] in BossLetters) {
      assert name[..5] == "Wave ";
    }
  }

  /** The boss `spawnBossAfterWarning` hands to the entity manager. */
  const BossSpeed: real := 80.0
  const BossGold: int := 100

  // ---------------------------------------------------------------------------------------
  // The manager

  class WaveManager {
    const gameState: GameState
    const entityManager: EntityManager
    const isMobile: bool
    var enemySpawnTimer: real
    var bossSpawnLocation: Option<(real, real)>
    var bossSpawnCorner: Option<Corner>

    /** `new WaveManager(gameState, .., entityManager, onBossDefeat, isMobile)`; the defeat
        callback is the one every boss the entity manager spawns reports through. */
    constructor (gameState: GameState, entityManager: EntityManager, isMobile: bool)
      ensures this.gameState == gameState && this.entityManager == entityManager && this.isMobile == isMobile
      ensures enemySpawnTimer == 0.0 && bossSpawnLocation == None && bossSpawnCorner == None
    {
      this.gameState := gameState;
      this.entityManager := entityManager;
      this.isMobile := isMobile;
      enemySpawnTimer := 0.0;
      bossSpawnLocation := None;
      bossSpawnCorner := None;
    }

    /** The manager shares its game state with the entity manager, whose invariant holds. */
    ghost predicate Valid()
      reads this, entityManager, gameState
    {
      entityManager.gameState == gameState && entityManager.Valid()
    }

    function Clock(): WaveClock
      reads this, gameState
    {
      WaveClock(gameState.waveTimeElapsed, gameState.waveNumber, gameState.enemySpawnInterval, enemySpawnTimer)
    }

    ghost function BossSlot(): set<Enemy>
      reads gameState
    {
      if gameState.currentBoss.Some? then {gameState.currentBoss.value} else {}
    }

    ghost function WarningSlot(): set<BossWarning>
      reads gameState
    {
      if gameState.bossWarning.Some? then {gameState.bossWarning.value} else {}
    }

    /** The guard of `update`: a living boss or a showing warning stops all progression. */
    predicate Holding()
      reads gameState, BossSlot()
    {
      (gameState.currentBoss.Some? && gameState.currentBoss.value.IsAlive()) || gameState.isBossWarningActive
    }

    /** `update(dt, cameraX, cameraY, canvasWidth, canvasHeight)`. While holding nothing
        changes; otherwise the game takes the `Step`. */
    method Update(dt: real, camX: real, camY: real, canvasWidth: real, canvasHeight: real,
                  cornerDraw: real, sideDraw: real, posDraw: real, typeDraw: real)
      requires Valid() && Random(cornerDraw) && Random(sideDraw) && Random(typeDraw)
      modifies this`enemySpawnTimer, this`bossSpawnLocation, this`bossSpawnCorner
      modifies gameState`waveTimeElapsed, gameState`waveNumber, gameState`enemySpawnInterval
      modifies gameState`enemies, gameState`bossWarning, gameState`isBossWarningActive
      ensures Valid()
      ensures old(Holding()) ==> Clock() == old(Clock()) && gameState.enemies == old(gameState.enemies)
      ensures old(Holding()) ==> gameState.isBossWarningActive == old(gameState.isBossWarningActive)
      ensures old(Holding()) ==> gameState.bossWarning == old(gameState.bossWarning)
      ensures old(Holding()) ==> bossSpawnLocation == old(bossSpawnLocation) && bossSpawnCorner == old(bossSpawnCorner)
      ensures !old(Holding()) ==> Stepped(old(Clock()), old(gameState.enemies), old(gameState.bossWarning),
                                          old(bossSpawnLocation), old(bossSpawnCorner), dt, camX, camY,
                                          canvasWidth, canvasHeight, cornerDraw, sideDraw, posDraw, typeDraw)
      ensures gameState.bossWarning.Some? && gameState.bossWarning != old(gameState.bossWarning) ==> fresh(gameState.bossWarning.value)
      ensures forall e <- gameState.enemies :: e in old(gameState.enemies) || fresh(e)
    {
      if (gameState.currentBoss.Some? && gameState.currentBoss.value.IsAlive()) || gameState.isBossWarningActive {
        return;
      }
      Step(dt, camX, camY, canvasWidth, canvasHeight, cornerDraw, sideDraw, posDraw, typeDraw);
    }

    /** What one unguarded step leaves behind, from the clock, enemies, warning and boss spawn
        point before it: the clock has taken the `Advance` step; a warning has cleared the
        enemies, stored the corner of the draw with its spawn point and shown a three-second
        warning; a spawn has appended one regular enemy built by `RegularSpawn` for the new
        wave number; and nothing else of these has changed. */
    ghost predicate Stepped(c0: WaveClock, es0: seq<Enemy>, warning0: Option<BossWarning>,
                            location0: Option<(real, real)>, corner0: Option<Corner>, dt: real,
                            camX: real, camY: real, canvasWidth: real, canvasHeight: real,
                            cornerDraw: real, sideDraw: real, posDraw: real, typeDraw: real)
      requires Random(cornerDraw) && Random(sideDraw) && Random(typeDraw)
      reads this, gameState, gameState.enemies, WarningSlot()
    {
      var t := Advance(c0, dt);
      var before := if t.warn then [] else es0;
      && Clock() == t.clock
      && gameState.isBossWarningActive == t.warn
      && (t.warn ==> var c := CornerOf(cornerDraw);
            && bossSpawnCorner == Some(c)
            && bossSpawnLocation == Some(BossSpawnPoint(c, BossOffset(isMobile), gameState.worldWidth, gameState.worldHeight))
            && gameState.bossWarning.Some? && gameState.bossWarning != warning0
            && gameState.bossWarning.value.corner == c && gameState.bossWarning.value.duration == 3.0
            && gameState.bossWarning.value.canvasWidth == canvasWidth
            && gameState.bossWarning.value.canvasHeight == canvasHeight)
      && (!t.warn ==> bossSpawnLocation == location0 && bossSpawnCorner == corner0 && gameState.bossWarning == warning0)
      && |gameState.enemies| == |before| + (if t.spawn then 1 else 0)
      && gameState.enemies[..|before|] == before
      && (t.spawn ==> gameState.enemies[|before|].View()
                           == RegularSpawn(t.clock.waveNumber, isMobile, sideDraw, posDraw, typeDraw, camX, camY,
                                           canvasWidth, canvasHeight, gameState.worldWidth, gameState.worldHeight))
    }

    /** The body of `update` past its guard. */
    method Step(dt: real, camX: real, camY: real, canvasWidth: real, canvasHeight: real,
                cornerDraw: real, sideDraw: real, posDraw: real, typeDraw: real)
      requires Valid() && Random(cornerDraw) && Random(sideDraw) && Random(typeDraw)
      requires !gameState.isBossWarningActive
      modifies this`enemySpawnTimer, this`bossSpawnLocation, this`bossSpawnCorner
      modifies gameState`waveTimeElapsed, gameState`waveNumber, gameState`enemySpawnInterval
      modifies gameState`enemies, gameState`bossWarning, gameState`isBossWarningActive
      ensures Valid()
      ensures Stepped(old(Clock()), old(gameState.enemies), old(gameState.bossWarning), old(bossSpawnLocation),
                      old(bossSpawnCorner), dt, camX, camY, canvasWidth, canvasHeight, cornerDraw, sideDraw, posDraw, typeDraw)
      ensures gameState.bossWarning.Some? && gameState.bossWarning != old(gameState.bossWarning) ==> fresh(gameState.bossWarning.value)
      ensures forall e <- gameState.enemies :: e in old(gameState.enemies) || fresh(e)
    {
      WaveStep(dt, canvasWidth, canvasHeight, cornerDraw);
      SpawnStep(dt, camX, camY, canvasWidth, canvasHeight, sideDraw, posDraw, typeDraw);
    }

    /** The wave half of `update`: the wave time grows and, at the wave length, rolls over into
        the next wave with a shrunk interval, warning of a boss on every third wave. */
    method WaveStep(dt: real, canvasWidth: real, canvasHeight: real, cornerDraw: real)
      requires Valid() && Random(cornerDraw) && !gameState.isBossWarningActive
      modifies this`bossSpawnLocation, this`bossSpawnCorner
      modifies gameState`waveTimeElapsed, gameState`waveNumber, gameState`enemySpawnInterval
      modifies gameState`enemies, gameState`bossWarning, gameState`isBossWarningActive
      ensures Valid()
      ensures var t := Advance(old(Clock()), dt);
        && gameState.waveTimeElapsed == t.clock.waveTimeElapsed && gameState.waveNumber == t.clock.waveNumber
        && gameState.enemySpawnInterval == t.clock.enemySpawnInterval
        && gameState.isBossWarningActive == t.warn
        && gameState.enemies == (if t.warn then [] else old(gameState.enemies))
        && (t.warn ==> var c := CornerOf(cornerDraw);
              && bossSpawnCorner == Some(c)
              && bossSpawnLocation == Some(BossSpawnPoint(c, BossOffset(isMobile), gameState.worldWidth, gameState.worldHeight))
              && gameState.bossWarning.Some? && fresh(gameState.bossWarning.value)
              && gameState.bossWarning.value.corner == c && gameState.bossWarning.value.duration == 3.0
              && gameState.bossWarning.value.canvasWidth == canvasWidth
              && gameState.bossWarning.value.canvasHeight == canvasHeight)
        && (!t.warn ==> bossSpawnLocation == old(bossSpawnLocation) && bossSpawnCorner == old(bossSpawnCorner)
                        && gameState.bossWarning == old(gameState.bossWarning))
    {
      gameState.waveTimeElapsed := gameState.waveTimeElapsed + dt;
      if gameState.waveTimeElapsed >= WaveLength {
        gameState.waveNumber := gameState.waveNumber + 1;
        gameState.waveTimeElapsed := 0.0;
        gameState.enemySpawnInterval := Max(MinSpawnInterval, gameState.enemySpawnInterval * IntervalShrink);
        // The game's truncating `%` and Dafny's agree on whether the remainder is zero.
        if gameState.waveNumber % BossEvery == 0 {
          TriggerBossWarning(canvasWidth, canvasHeight, cornerDraw);
        }
      }
    }

    /** The spawn half of `update`: the spawn timer grows and, at the current interval, one
        regular enemy appears and the timer restarts. */
    method SpawnStep(dt: real, camX: real, camY: real, canvasWidth: real, canvasHeight: real,
                     sideDraw: real, posDraw: real, typeDraw: real)
      requires Valid() && Random(sideDraw) && Random(typeDraw)
      modifies this`enemySpawnTimer, gameState`enemies
      ensures Valid()
      ensures var spawn := old(enemySpawnTimer) + dt >= gameState.enemySpawnInterval;
        && enemySpawnTimer == (if spawn then 0.0 else old(enemySpawnTimer) + dt)
        && |gameState.enemies| == |old(gameState.enemies)| + (if spawn then 1 else 0)
        && gameState.enemies[..|old(gameState.enemies)|] == old(gameState.enemies)
        && (spawn ==> var e := gameState.enemies[|old(gameState.enemies)|];
              && fresh(e)
              && e.View() == RegularSpawn(gameState.waveNumber, isMobile, sideDraw, posDraw, typeDraw, camX, camY,
                                          canvasWidth, canvasHeight, gameState.worldWidth, gameState.worldHeight))
    {
      enemySpawnTimer := enemySpawnTimer + dt;
      if enemySpawnTimer >= gameState.enemySpawnInterval {
        SpawnRegularEnemy(camX, camY, canvasWidth, canvasHeight, sideDraw, posDraw, typeDraw);
        enemySpawnTimer := 0.0;
      }
    }

    /** `triggerBossWarning(canvasWidth, canvasHeight)`: the enemies go, the corner of the draw
        and its spawn point are stored, and the three-second warning shows. */
    method TriggerBossWarning(canvasWidth: real, canvasHeight: real, cornerDraw: real)
      requires Valid() && Random(cornerDraw)
      modifies this`bossSpawnLocation, this`bossSpawnCorner
      modifies gameState`enemies, gameState`bossWarning, gameState`isBossWarningActive
      ensures Valid() && gameState.enemies == [] && gameState.isBossWarningActive
      ensures bossSpawnCorner == Some(CornerOf(cornerDraw))
      ensures bossSpawnLocation == Some(BossSpawnPoint(CornerOf(cornerDraw), BossOffset(isMobile),
                                                       gameState.worldWidth, gameState.worldHeight))
      ensures gameState.bossWarning.Some? && fresh(gameState.bossWarning.value)
      ensures gameState.bossWarning.value.corner == CornerOf(cornerDraw) && gameState.bossWarning.value.duration == 3.0
      ensures gameState.bossWarning.value.canvasWidth == canvasWidth
      ensures gameState.bossWarning.value.canvasHeight == canvasHeight
    {
      gameState.enemies := [];
      var corner := CornerOf(cornerDraw);
      bossSpawnCorner := Some(corner);
      var offset := BossSize(isMobile) / 2.0 + 50.0;
      var spawn;
      match corner {
        case TopLeft => spawn := (offset, offset);
        case TopRight => spawn := (gameState.worldWidth - offset, offset);
        case BottomLeft => spawn := (offset, gameState.worldHeight - offset);
        case BottomRight => spawn := (gameState.worldWidth - offset, gameState.worldHeight - offset);
      }
      bossSpawnLocation := Some(spawn);
      var warning := new BossWarning(canvasWidth, canvasHeight, corner, 3.0);
      gameState.bossWarning := Some(warning);
      gameState.isBossWarningActive := true;
    }

    /** `spawnRegularEnemy(cameraX, cameraY, canvasWidth, canvasHeight)`, with the side, the
        position along it and the type drawn in that order. */
    method SpawnRegularEnemy(camX: real, camY: real, canvasWidth: real, canvasHeight: real,
                             sideDraw: real, posDraw: real, typeDraw: real)
      requires Valid() && Random(sideDraw) && Random(typeDraw)
      modifies gameState`enemies
      ensures Valid()
      ensures |gameState.enemies| == |old(gameState.enemies)| + 1
      ensures gameState.enemies[..|old(gameState.enemies)|] == old(gameState.enemies)
      ensures fresh(gameState.enemies[|old(gameState.enemies)|])
      ensures gameState.enemies[|old(gameState.enemies)|].View()
        == RegularSpawn(gameState.waveNumber, isMobile, sideDraw, posDraw, typeDraw, camX, camY,
                        canvasWidth, canvasHeight, gameState.worldWidth, gameState.worldHeight)
    {
      var p := SpawnPoint(SideOf(sideDraw), posDraw, camX, camY, canvasWidth, canvasHeight,
                          gameState.worldWidth, gameState.worldHeight);
      var t := TemplateOf(typeDraw);
      var wave := gameState.waveNumber;
      var size := if isMobile then t.size * 0.7 else t.size;
      var stats := if t.kind == Shooter then Some(ShooterStats(wave)) else None;
      entityManager.SpawnEnemy(p.0, p.1, t.kind, size, SpeedAt(t.baseSpeed, wave), HealthAt(t.baseHealth, wave) as real,
                               GoldAt(t.baseGold, wave), stats);
    }

    /** `spawnBossAfterWarning()`: without a stored corner and location nothing happens;
        otherwise the boss of this wave appears there and both are consumed, so a second call
        without a new warning does nothing. */
    method SpawnBossAfterWarning()
      requires Valid()
      modifies this`bossSpawnLocation, this`bossSpawnCorner, gameState`enemies, gameState`currentBoss
      ensures Valid()
      ensures old(bossSpawnLocation.None? || bossSpawnCorner.None?) ==>
        && bossSpawnLocation == old(bossSpawnLocation) && bossSpawnCorner == old(bossSpawnCorner)
        && gameState.enemies == old(gameState.enemies) && gameState.currentBoss == old(gameState.currentBoss)
      ensures old(bossSpawnLocation.Some? && bossSpawnCorner.Some?) ==>
        && bossSpawnLocation == None && bossSpawnCorner == None
        && gameState.currentBoss.Some? && fresh(gameState.currentBoss.value)
        && gameState.enemies == old(gameState.enemies) + [gameState.currentBoss.value]
        && var at := old(bossSpawnLocation.value);
           gameState.currentBoss.value.View()
             == BossView(at.0, at.1, BossSize(isMobile), BossSpeed, BossHealth(gameState.waveNumber), BossGold,
                         BossName(gameState.princessNameLetters, gameState.nextLetterIndex, gameState.waveNumber))
    {
      if bossSpawnLocation.None? || bossSpawnCorner.None? {
        return;
      }
      var at := bossSpawnLocation.value;
      var name := BossName(gameState.princessNameLetters, gameState.nextLetterIndex, gameState.waveNumber);
      entityManager.SpawnBoss(at.0, at.1, BossSize(isMobile), BossSpeed, BossHealth(gameState.waveNumber), BossGold, name);
      bossSpawnLocation := None;
      bossSpawnCorner := None;
    }

    /** `reset()`: the spawn timer, the boss, its warning and its spawn point clear; the wave
        number and the rest of the clock stay. */
    method Reset()
      modifies this`enemySpawnTimer, this`bossSpawnLocation, this`bossSpawnCorner
      modifies gameState`currentBoss, gameState`isBossWarningActive, gameState`bossWarning
      ensures enemySpawnTimer == 0.0 && bossSpawnLocation == None && bossSpawnCorner == None
      ensures gameState.currentBoss == None && !gameState.isBossWarningActive && gameState.bossWarning == None
      ensures gameState.waveNumber == old(gameState.waveNumber)
    {
      enemySpawnTimer := 0.0;
      gameState.currentBoss := None;
      gameState.isBossWarningActive := false;
      gameState.bossWarning := None;
      bossSpawnLocation := None;
      bossSpawnCorner := None;
    }
  }
}
