/** The aggregate every manager of the game reads and writes (src/game/GameState.ts).

    Besides the fields the class declares, the entity and wave managers use further fields of
    the same object (the boss, its warning and projectiles, the attack visuals, the princess
    letters and three more weapon slots); they are fields of this class too and start empty. */
module GameStates {
  import opened Wrappers
  import opened Seqs
  import opened Collaborators
  import opened Enemies
  import opened ExperienceGems
  import opened MagnetPowerUps
  import opened DamageNumbers
  import opened BossAttackVisuals
  import opened Projectiles
  import opened AuraWeapons
  import opened SpinningBladeWeapons
  import opened HomingMissileWeapons
  import opened LaserBeamWeapons
  import opened TimeSlowAbilities

  /** The constructor's optional `initialWeapon`, tagged with its runtime class. */
  datatype InitialWeapon =
    | NoInitialWeapon
    | InitialAura(aura: AuraWeapon)
    | InitialProjectile(projectile: ProjectileWeapon)
    | InitialBlade(blade: SpinningBladeWeapon)

  /** Which of the nine weapon and ability slots are filled. */
  datatype Loadout = Loadout(aura: bool, projectile: bool, blade: bool, homingMissile: bool, laserBeam: bool,
                           explosion: bool, shield: bool, heal: bool, timeSlow: bool)

  /** How many of the three starting-weapon slots are filled. */
  function StartingWeapons(s: Loadout): nat {
    (if s.aura then 1 else 0) + (if s.projectile then 1 else 0) + (if s.blade then 1 else 0)
  }

  /** The slots right after construction: the initial weapon lands in the one slot its class
      names, the three optional abilities in theirs, and nothing else is filled. */
  function InitialSlots(w: InitialWeapon, explosion: bool, shield: bool, heal: bool): (s: Loadout)
    ensures StartingWeapons(s) == if w.NoInitialWeapon? then 0 else 1
    ensures !s.homingMissile && !s.laserBeam && !s.timeSlow
    ensures s.explosion == explosion && s.shield == shield && s.heal == heal
  {
    Loadout(w.InitialAura?, w.InitialProjectile?, w.InitialBlade?, false, false, explosion, shield, heal, false)
  }

  /** The wave counters, flags and magnet effect that construction and `reset` both set. */
  datatype Progress = Progress(waveNumber: int, waveTimeElapsed: real, enemySpawnInterval: real, waveDuration: real,
                               gameOver: bool, isPaused: bool, showShop: bool,
                               activeMagnetRadius: real, activeMagnetDuration: real)

  /** Wave 1, nothing elapsed, a spawn every 2 seconds, 60-second waves, no flag set and no
      magnet effect. */
  const StartCounters := Progress(1, 0.0, 2.0, 60.0, false, false, false, 0.0, 0.0)

  class GameState {
    /** Never reassigned by any code of the game. */
    const player: Player
    const vendor: Vendor
    const worldWidth: real
    const worldHeight: real

    var enemies: seq<Enemy>
    var experienceGems: seq<ExperienceGem>
    var magnetPowerUps: seq<MagnetPowerUp>
    var damageNumbers: seq<DamageNumber>

    var auraWeapon: Option<AuraWeapon>
    var projectileWeapon: Option<ProjectileWeapon>
    var spinningBladeWeapon: Option<SpinningBladeWeapon>
    var explosionAbility: Option<ExplosionAbility>
    var shieldAbility: Option<ShieldAbility>
    var healAbility: Option<HealAbility>

    var waveNumber: int
    var waveTimeElapsed: real
    var enemySpawnInterval: real
    var waveDuration: real
    var gameOver: bool
    var isPaused: bool
    var showShop: bool
    var activeMagnetRadius: real
    var activeMagnetDuration: real

    // Fields the managers use that the class does not declare.
    var homingMissileWeapon: Option<HomingMissileWeapon>
    var laserBeamWeapon: Option<LaserBeamWeapon>
    var timeSlowAbility: Option<TimeSlowAbility>
    var currentBoss: Option<Enemy>
    var isBossWarningActive: bool
    var bossWarning: Option<BossWarning>
    var activeBossAttackVisuals: seq<BossAttackVisual>
    var bossProjectiles: seq<Projectile>
    var princessNameLetters: string
    var nextLetterIndex: int

    function Slots(): Loadout
      reads this
    {
      Loadout(auraWeapon.Some?, projectileWeapon.Some?, spinningBladeWeapon.Some?, homingMissileWeapon.Some?,
              laserBeamWeapon.Some?, explosionAbility.Some?, shieldAbility.Some?, healAbility.Some?,
              timeSlowAbility.Some?)
    }

    function Counters(): Progress
      reads this
    {
      Progress(waveNumber, waveTimeElapsed, enemySpawnInterval, waveDuration, gameOver, isPaused, showShop,
               activeMagnetRadius, activeMagnetDuration)
    }

    constructor (player: Player, vendor: Vendor, worldWidth: real, worldHeight: real, initialWeapon: InitialWeapon,
                 initialExplosionAbility: Option<ExplosionAbility>, initialShieldAbility: Option<ShieldAbility>,
                 initialHealAbility: Option<HealAbility>)
      ensures this.player == player && this.vendor == vendor
      ensures this.worldWidth == worldWidth && this.worldHeight == worldHeight
      ensures auraWeapon == (if initialWeapon.InitialAura? then Some(initialWeapon.aura) else None)
      ensures projectileWeapon == (if initialWeapon.InitialProjectile? then Some(initialWeapon.projectile) else None)
      ensures spinningBladeWeapon == (if initialWeapon.InitialBlade? then Some(initialWeapon.blade) else None)
      ensures explosionAbility == initialExplosionAbility && shieldAbility == initialShieldAbility
      ensures healAbility == initialHealAbility
      ensures Slots() == InitialSlots(initialWeapon, initialExplosionAbility.Some?, initialShieldAbility.Some?, initialHealAbility.Some?)
      ensures enemies == [] && experienceGems == [] && magnetPowerUps == [] && damageNumbers == []
      ensures Counters() == StartCounters
      ensures currentBoss == None && !isBossWarningActive && bossWarning == None
      ensures activeBossAttackVisuals == [] && bossProjectiles == []
      ensures princessNameLetters == [] && nextLetterIndex == 0
    {
      this.player := player;
      this.vendor := vendor;
      auraWeapon := None;
      projectileWeapon := None;
      spinningBladeWeapon := None;
      explosionAbility := None;
      shieldAbility := None;
      healAbility := initialHealAbility;
      match initialWeapon {
        case NoInitialWeapon =>
        case InitialAura(w) => auraWeapon := Some(w);
        case InitialProjectile(w) => projectileWeapon := Some(w);
        case InitialBlade(w) => spinningBladeWeapon := Some(w);
      }
      explosionAbility := initialExplosionAbility;
      shieldAbility := initialShieldAbility;
      enemies := [];
      experienceGems := [];
      magnetPowerUps := [];
      damageNumbers := [];
      this.worldWidth := worldWidth;
      this.worldHeight := worldHeight;
      waveNumber := 1;
      waveTimeElapsed := 0.0;
      enemySpawnInterval := 2.0;
      waveDuration := 60.0;
      gameOver := false;
      isPaused := false;
      showShop := false;
      activeMagnetRadius := 0.0;
      activeMagnetDuration := 0.0;
      homingMissileWeapon := None;
      laserBeamWeapon := None;
      timeSlowAbility := None;
      currentBoss := None;
      isBossWarningActive := false;
      bossWarning := None;
      activeBossAttackVisuals := [];
      bossProjectiles := [];
      princessNameLetters := [];
      nextLetterIndex := 0;
    }

    /** `reset()`: the counters return to their starting values, the four declared lists
        empty, and the six declared slots clear; the player, vendor and world size are
        constants, and the fields `reset` does not assign keep their values. */
    method Reset()
      modifies this`enemies, this`experienceGems, this`magnetPowerUps, this`damageNumbers
      modifies this`waveNumber, this`waveTimeElapsed, this`enemySpawnInterval, this`waveDuration
      modifies this`gameOver, this`isPaused, this`showShop, this`activeMagnetRadius, this`activeMagnetDuration
      modifies this`auraWeapon, this`projectileWeapon, this`spinningBladeWeapon
      modifies this`explosionAbility, this`shieldAbility, this`healAbility
      ensures enemies == [] && experienceGems == [] && magnetPowerUps == [] && damageNumbers == []
      ensures Counters() == StartCounters
      ensures auraWeapon == None && projectileWeapon == None && spinningBladeWeapon == None
      ensures explosionAbility == None && shieldAbility == None && healAbility == None
      ensures homingMissileWeapon == old(homingMissileWeapon) && laserBeamWeapon == old(laserBeamWeapon)
      ensures timeSlowAbility == old(timeSlowAbility)
      ensures currentBoss == old(currentBoss) && isBossWarningActive == old(isBossWarningActive)
      ensures bossWarning == old(bossWarning)
      ensures activeBossAttackVisuals == old(activeBossAttackVisuals) && bossProjectiles == old(bossProjectiles)
      ensures princessNameLetters == old(princessNameLetters) && nextLetterIndex == old(nextLetterIndex)
    {
      ClearLists();
      RestartCounters();
      ClearSlots();
    }

    method ClearLists()
      modifies this`enemies, this`experienceGems, this`magnetPowerUps, this`damageNumbers
      ensures enemies == [] && experienceGems == [] && magnetPowerUps == [] && damageNumbers == []
    {
      enemies := [];
      experienceGems := [];
      magnetPowerUps := [];
      damageNumbers := [];
    }

    method RestartCounters()
      modifies this`waveNumber, this`waveTimeElapsed, this`enemySpawnInterval, this`waveDuration
      modifies this`gameOver, this`isPaused, this`showShop, this`activeMagnetRadius, this`activeMagnetDuration
      ensures Counters() == StartCounters
    {
      waveNumber := 1;
      waveTimeElapsed := 0.0;
      enemySpawnInterval := 2.0;
      waveDuration := 60.0;
      gameOver := false;
      isPaused := false;
      showShop := false;
      activeMagnetRadius := 0.0;
      activeMagnetDuration := 0.0;
    }

    method ClearSlots()
      modifies this`auraWeapon, this`projectileWeapon, this`spinningBladeWeapon
      modifies this`explosionAbility, this`shieldAbility, this`healAbility
      ensures auraWeapon == None && projectileWeapon == None && spinningBladeWeapon == None
      ensures explosionAbility == None && shieldAbility == None && healAbility == None
    {
      auraWeapon := None;
      projectileWeapon := None;
      spinningBladeWeapon := None;
      explosionAbility := None;
      shieldAbility := None;
      healAbility := None;
    }
  }
}
