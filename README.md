# A verified model of the simulation core of a survival-arcade game

The game is a top-down survival arcade for the browser. A player walks through a 2000 x 2000
world while waves of enemies close in. Weapons and abilities fight them off: an aura, homing
missiles, a laser beam, spinning blades, explosions and a time-slow. Defeated enemies drop
experience gems, gold and now and then a magnet pickup. Every third wave brings a boss with a
warning, a corner spawn point, phases and a special attack. This project models the part of
the game that runs once per frame: timers, counters, entity lists, small state machines, input
normalisation, and the few rules embedded in the UI. Dafny proves properties about that model.

## How the model is built

- **One module per source file.** Each module carries the source file's name, e.g.
  `WaveManagers` for `src/game/WaveManager.ts`. An object whose fields the game updates in
  place is a `class` with those fields, plus `modifies` clauses on its methods. Every method is
  proved against a pure function of the old state, and that function's properties are lemmas.
- **Enemy kinds.** `Enemy`, `ShooterEnemy` and `Boss` are one class, `Enemies.Enemy`, tagged
  with its kind. A boss's extra fields live in the same class. `Enemy.View()` is the value of
  all the fields, and the per-frame rules are functions on those values.
- **Square roots and angles.** `Math.sqrt`, `Math.cos` and `Math.sin` are the fields of a
  `Geometry.MathLib` value passed to every member that needs a distance or an angle. Its
  `Valid()` states the only laws the proofs use: the square-root law and cos² + sin² = 1.
  Distances, times, speeds and positions are `real`.
- **Random draws and clocks.** `Math.random()`, `performance.now()` and
  `requestAnimationFrame` ids are parameters. A draw that indexes a table is required to lie in
  [0, 1).
- **Callbacks.** The enemies' callbacks `onTakeDamage`, `onAddBossAttackVisual` and
  `onDefeatCallback` become appends to an `Events.EventLog` object, which records hits, visual
  requests and boss defeats.
- **When callbacks take effect.** The entity manager turns the logged hits and visual requests
  into damage numbers and attack visuals just before the filters that age them
  (`EntityManager.ts:163` and `:166`). In the game, each callback pushes onto the same list at
  once. Nothing reads those lists in between, so both orders give the same lists.
- **Collaborators.** The player is a small class in `Collaborators` with exactly the surface
  this core uses: position, size, magnet radius, liveness, and logs of damage taken, gold
  gained and experience gained. Liveness is an unknown rule over the damage taken. The
  classes the core refers to but that are not part of this model are empty placeholders: `ProjectileWeapon`, `ExplosionAbility`, `ShieldAbility`,
  `HealAbility`, `Vendor` and `BossWarning`.
- **Revisions.** The source files come from different revisions. Each is modelled as
  written, except where the revisions clash; the model then follows the later one, and
  "## Left out" says where:
  - `GameState` gets the extra fields that the entity and wave managers use: the boss, its
    warning and projectiles, the attack visuals, the princess letters, and three more weapon
    slots.
  - `GameEngine` is the early single-weapon loop. Its enemy construction and drawing do not
    match the `Enemy` revision; see "Engine enemies and drawing" under Left out.
  - `Enemy.update` takes no separation vector. The entity manager computes the separation
    forces, and `Separation.ForcesBalanced` proves they sum to zero, but they move no enemy.
  - `ExperienceGem` has no `update` in its revision, although the entity manager calls one.
    The model treats that call as doing nothing.
  - The game's own collision tests are predicates (`Collides`, `Touches`), defined as the
    source writes them: a distance strictly below the sum of the relevant radii.

Some behaviour of the source is stated as written, although it looks unintended:

- **Aura.** The aura hits dead enemies that are still in range
  (`DamageZones.AuraHitsDeadEnemies`).
- **Boss defeat.** A dead boss reports its defeat again on every further hit
  (`Enemies.DefeatReportedEveryHit`).
- **`addBlade`.** This upgrade does not start with `blade`, so it is offered without a
  spinning-blade weapon (`GameCanvases.AddBladeAlwaysOffered`).
- **Blade hit key.** The blade weapon keys its cooldown table by the enemy's position and the
  blade's angle. A turning blade therefore hits the same enemy again on the next frame, and
  two enemies on one spot throttle each other (`SpinningBladeWeapons.TurningBladeHitsAgain`,
  `SpinningBladeWeapons.SharedSpotThrottles`; see Findings).
- **`GameState.reset`.** It leaves the missile, laser and time-slow slots as they were
  (`GameStates.GameState.Reset`).

## Model

| member | source | states |
|---|---|---|
| AuraWeapons.AuraWeapon.constructor | src/game/AuraWeapon.ts:9-14 | stores damage, radius and interval; the accumulator starts at 0 |
| AuraWeapons.AuraWeapon.Update | src/game/AuraWeapon.ts:16-32 | a firing update (accumulator plus `dt` reaches the interval) resets the accumulator to 0 and strikes every enemy whose distance is below `radius + size/2`; otherwise the accumulator grows by `dt` and no enemy or event changes |
| DamageZones.DamageZone | src/game/AuraWeapon.ts:22-30 | every enemy of the list ends as the zone strike leaves it (damaged once when inside, unchanged otherwise), and the hits and boss defeats are logged in list order; the same pass serves Explosion.ts:41-51 |
| DamageZones.StrikeOne | src/game/Explosion.ts:42-49 | one enemy is struck exactly when it passes the alive check (explosion only) and its distance to the centre is below `radius + size/2` |
| DamageZones.ZoneHitsContent | src/game/AuraWeapon.ts:22-30 | the pass logs exactly one hit of the zone's damage for each enemy inside it, at that enemy's position, and nothing else; at most one defeat per enemy |
| DamageZones.StruckEffect | src/game/Explosion.ts:41-51 | an enemy outside the zone, or a dead one in an alive-only zone, is untouched; one inside ends with `max(0, health - damage)` and nothing but health and hit flash changes |
| DamageZones.AuraHitsDeadEnemies | src/game/AuraWeapon.ts:22-30 | the aura has no alive check: a dead enemy still in range is hit again and logs another damage number |
| Explosions.Explosion.constructor | src/game/Explosion.ts:13-22 | stores position, radius, damage, duration and colour; nothing elapsed and no damage dealt yet |
| Explosions.Explosion.Update | src/game/Explosion.ts:24-27 | the elapsed time grows by `dt`; the result is true exactly while it is below the duration |
| Explosions.Explosion.DealDamage | src/game/Explosion.ts:38-53 | the first call strikes every living enemy in the circle and sets the done flag even when nothing was hit; later calls change nothing |
| Enemies.Damaged | src/game/Enemy.ts:98-112 | health drops by the amount and is floored at 0; the enemy stays alive exactly when the amount was below its health; the hit flash is set to 0.1 and nothing else changes |
| Enemies.DefeatReportedEveryHit | src/game/Boss.ts:41-47 | a boss with a defeat callback that is already dead runs the callback again on every further hit |
| Enemies.Moved | src/game/Enemy.ts:34-51 | a dead enemy is left as it is; an update changes only position and hit flash |
| Enemies.MovedStepLength | src/game/Enemy.ts:38-50 | a living enemy away from the player moves exactly `speed * dt`; one on the player stays put; the hit flash counts down only while positive |
| Enemies.MovedCloser | src/game/Enemy.ts:43-50 | a step that does not overshoot leaves the enemy exactly `speed * dt` closer to the player |
| Enemies.SpecialAttack | src/game/Boss.ts:113-128 | one red visual of radius `2 * size` for 0.5 s; `20 + 5 * phase` damage exactly when the player's circle reaches into that radius |
| Enemies.PhaseEntered | src/game/Boss.ts:91-111 | phases 1, 2 and 3 multiply speed by 1.2, 1.1 and 1.1, set the colours darkred, purple and black and cut the attack cooldown by 20%; any other phase changes nothing |
| Enemies.PhaseCheckedPhase | src/game/Boss.ts:79-89 | the phase check moves the phase to the first threshold reached at a phase not past it and touches only phase, speed, colour and cooldown |
| Enemies.UpdatedDeadNoOp | src/game/Boss.ts:49-62 | an update never changes health; a dead enemy of any kind is left as it was and emits nothing |
| Enemies.BossCooldown | src/game/Boss.ts:52-61 | a living boss waits while its countdown is positive (counting down by `dt`) and otherwise attacks once and restarts the countdown; the phase never goes down |
| Enemies.CollidesWithSymmetric | src/game/Enemy.ts:122-127 | collision between two enemies is symmetric |
| Enemies.Enemy.constructor | src/game/Enemy.ts:20-32 | full health, no hit flash, gold drop defaulting to 0 |
| Enemies.Enemy.Shooter | src/game/EntityManager.ts:41-45 | a shooting enemy starts like a regular one and carries its projectile parameters |
| Enemies.Enemy.Boss | src/game/Boss.ts:16-34 | name, thresholds and cooldown default to "Mega Enemy", [0.75, 0.5, 0.25] and 5; thresholds sorted descending; phase 0; countdown at the full cooldown |
| Enemies.Enemy.SetOnDefeatCallback | src/game/Boss.ts:37-39 | only the defeat callback changes |
| Enemies.Enemy.TakeDamage | src/game/Enemy.ts:98-112 | the enemy becomes `Damaged(old, amount)`, one hit is logged at its position, and a boss left at zero health with a callback reports its defeat |
| Enemies.Enemy.Update | src/game/Boss.ts:49-62 | the enemy, the visuals and the player damage become those of the `Updated` outcome for the old state |
| Enemies.Enemy.MoveTowards | src/game/Enemy.ts:34-51 | the enemy becomes `Moved(old, dt, player)` |
| Enemies.Enemy.PerformSpecialAttack | src/game/Boss.ts:113-128 | appends the attack visual and the damage `SpecialAttack` gives |
| Enemies.Enemy.CheckPhaseChange | src/game/Boss.ts:79-89 | the boss becomes `PhaseChecked(old)` |
| Enemies.Enemy.OnPhaseChange | src/game/Boss.ts:91-111 | the boss becomes `PhaseEntered(old)` |
| Bosses.Insert | src/game/Boss.ts:28 | inserting into a descending list keeps it descending and adds exactly the one element |
| Bosses.SortDescending | src/game/Boss.ts:28 | the thresholds end up in descending order and are a permutation of the given ones |
| Bosses.FirstCrossed | src/game/Boss.ts:81-88 | the search stops at the first index (from the start) whose threshold the ratio has reached at a phase not past it, or reports that there is none |
| Bosses.NextPhaseNeverDecreases | src/game/Boss.ts:79-89 | the phase never goes down |
| Bosses.NextPhaseBounded | src/game/Boss.ts:81-88 | a phase within the thresholds stays within them |
| Bosses.NextPhaseStep | src/game/Boss.ts:79-89 | with descending thresholds the phase rises by at most one per check, and rises exactly when the ratio has reached the current phase's threshold |
| Bosses.PhaseAfterCalls | src/game/Boss.ts:79-89 | from phase 0, the phase after any number of checks is at most the number of checks and at most the number of thresholds |
| Bosses.DefaultThresholdsSorted | src/game/Boss.ts:21-28 | the default thresholds are already descending |
| DamageNumbers.AliveIffVisible | src/game/DamageNumber.ts:22-28 | with a positive lifetime a damage number is kept exactly while its opacity is positive, and the opacity never exceeds 1 |
| DamageNumbers.DamageNumber.constructor | src/game/DamageNumber.ts:11-20 | stores position, value, colour, lifetime and drift speed; nothing lived yet and fully opaque |
| DamageNumbers.DamageNumber.Update | src/game/DamageNumber.ts:22-28 | the time lived grows by `dt`, the number drifts by `velocityY * dt`, the opacity is the linear fade of the time lived, and the result is true exactly while it is below the lifetime |
| BossAttackVisuals.BossAttackVisual.constructor | src/game/BossAttackVisual.ts:10-18 | stores position, radius, duration and colour; nothing elapsed; the culling size is twice the radius |
| BossAttackVisuals.BossAttackVisual.Update | src/game/BossAttackVisual.ts:20-23 | the elapsed time grows by `dt`; the result is true exactly while it is below the duration |
| ExperienceGems.PulledStep | src/game/ExperienceGem.ts:33-44 | a pull at distance 0 leaves the gem where it is; otherwise the gem covers exactly `pullSpeed * dt`, even past the target |
| ExperienceGems.PulledCloser | src/game/ExperienceGem.ts:33-44 | a pull that does not reach the target leaves the gem exactly `pullSpeed * dt` closer |
| ExperienceGems.ExperienceGem.constructor | src/game/ExperienceGem.ts:9-15 | size 10, yellow, the given position and value |
| ExperienceGems.ExperienceGem.PullTowards | src/game/ExperienceGem.ts:33-44 | the gem moves to the `Pulled` position for its old position |
| MagnetPowerUps.MagnetPowerUp.constructor | src/game/MagnetPowerUp.ts:12-20 | size 20, light blue, the given duration and radius; the countdown starts at the duration |
| MagnetPowerUps.MagnetPowerUp.Update | src/game/MagnetPowerUp.ts:22-25 | the countdown drops by `dt`; the result is true exactly while it stays positive |
| Projectiles.Projectile.constructor | src/game/Projectile.ts:19-32 | the given fields, a size twice the radius, age 0 and no trail |
| Projectiles.Projectile.Update | src/game/Projectile.ts:34-50 | the projectile moves by `direction * speed * dt` and ages by `dt`; a trail particle is left at the new position and the trail fades; the result is true exactly while the age stays below the lifetime |
| HomingMissiles.NormalisedUnit | src/game/HomingMissile.ts:65-70 | normalising a vector of positive length gives a vector of length 1 |
| HomingMissiles.TurnedDirection | src/game/HomingMissile.ts:52-72 | a target at the missile's own position leaves the direction unchanged; a steered vector of positive length becomes a unit direction; with `turnSpeed * dt == 1` the missile points straight at the target |
| HomingMissiles.HomingMissile.constructor | src/game/HomingMissile.ts:19-42 | with no target the missile points straight up; with a target at positive distance it points at the target with a unit direction |
| HomingMissiles.HomingMissile.Update | src/game/HomingMissile.ts:44-88 | the missile ages by `dt`; a missing or dead target is replaced by the nearest living enemy; the missile turns toward that target (`Turned`); it then flies along its new direction and leaves a fading trail; the result is true exactly while the age stays below the lifetime |
| HomingMissiles.HomingMissile.Turn | src/game/HomingMissile.ts:53-71 | the steering step computes `Turned`, the direction whose properties `TurnedDirection` states |
| MissileFates.FirstCollision | src/game/HomingMissileWeapon.ts:76-82 | the index found is always that of an enemy in the list |
| MissileFates.FirstCollisionIsFirst | src/game/HomingMissileWeapon.ts:76-82 | the missile strikes the enemy found and none before it; nothing is found exactly when it strikes no living enemy |
| MissileFates.Survivors | src/game/HomingMissileWeapon.ts:72-84 | the filter never lengthens the list |
| MissileFates.SurvivorsKept | src/game/HomingMissileWeapon.ts:72-84 | the filter keeps exactly the missiles whose test passed, and a list without repeats stays without repeats |
| MissileFates.SurvivorsSnoc | src/game/HomingMissileWeapon.ts:72-84 | testing one more missile adds it to the survivors exactly when it was kept |
| MissileFates.AfterFate | src/game/HomingMissileWeapon.ts:78-80 | after a missile's fate the struck enemy, and only it, has taken the missile's damage; an expired or kept missile leaves every enemy as it was |
| MissileFates.FlightExtend | src/game/HomingMissileWeapon.ts:72-84 | one more missile's fate, as `Fated` states it, extends the flight of the missiles before it |
| MissileFates.RetargetedNearest | src/game/HomingMissile.ts:47-50 | a missile whose old target is set and alive keeps it; any other missile takes the living enemy nearest to it, the first such in list order, and has no target exactly when no enemy is alive |
| MissileFates.FlightFated | src/game/HomingMissileWeapon.ts:72-84 | in a flight every missile, in list order, kept its old target when that was set and alive, by the enemies as the missiles before it left them, and otherwise re-acquired the nearest living enemy (`Retargeted`); it flew as `Flown` says from its starting state toward that target; it expired exactly when its age reached its lifetime; otherwise it struck exactly the `FirstCollision` enemy of the enemies as the missiles before it left them, or struck nothing and was kept; the enemies after it are `AfterFate` of those before |
| MissileFates.LoggedExtend | src/game/HomingMissileWeapon.ts:72-84 | the reports of a flight one missile longer are those of the shorter flight followed by that missile's own hit and boss defeat |
| MissileFates.LoggedStep | src/game/HomingMissileWeapon.ts:72-84 | a log that held the reports of the missiles so far, and then gained one more missile's reports, holds the reports of the longer flight |
| MissileFates.FlightHitsPerStrike | src/game/HomingMissileWeapon.ts:76-82 | a flight reports exactly one hit per missile that struck an enemy, and no more boss defeats than strikes |
| HomingMissileWeapons.HomingMissileWeapon.constructor | src/game/HomingMissileWeapon.ts:18-29 | no missiles, the fire timer at 0, the given parameters |
| HomingMissileWeapons.HomingMissileWeapon.Update | src/game/HomingMissileWeapon.ts:31-85 | the timer resets exactly when it reaches the fire rate and there are enemies, and otherwise grows by `dt`; the list the filter walks is the old missiles followed, only on a firing frame with a living enemy, by `numMissilesPerShot` fresh missiles at the player's position aimed at the living enemy nearest the player, each pointing along the normalised vector from the player to where it stood, when it stands apart from the player; each missile of that list meets its fate in order as `Flight` states (keeping a living target or re-acquiring the nearest living enemy, flown, expired exactly at its lifetime, else striking exactly the `FirstCollision` enemy, which alone is damaged, or kept having struck nothing); the missiles left are exactly the kept ones; a missile whose target is not in the list kept it exactly when it is alive; the enemies end as the last missile left them; the log gains exactly `FlightHits` (each struck enemy's position with the missile's damage, in strike order) and `FlightDefeats` (one boss defeat per strike that leaves a boss without health) |
| HomingMissileWeapons.HomingMissileWeapon.LaunchedUnit | src/game/HomingMissileWeapon.ts:55-66 | a missile launched at a target standing apart from the player points along a direction of length 1 |
| HomingMissileWeapons.HomingMissileWeapon.VolleyedPush | src/game/HomingMissileWeapon.ts:55-66 | pushing one more missile in its launch state (its launch parameters, and the normalised vector toward the target) onto a volley gives a volley one longer, with the missiles in flight before it unchanged |
| HomingMissileWeapons.HomingMissileWeapon.Fire | src/game/HomingMissileWeapon.ts:32-70 | the fire timer advances by `dt` or restarts at 0 when it reaches the fire rate with enemies present, and only then is the volley pushed after the missiles in flight, each missile pointing along the normalised vector toward the nearest living enemy; every missile of the list is an old one or a fresh one |
| HomingMissileWeapons.HomingMissileWeapon.FlyAndKeep | src/game/HomingMissileWeapon.ts:72-84 | the missiles left in flight are exactly the ones the filter keeps, each met its fate in order as `Flight` states, the fire timer takes its new value, and the log gains exactly `FlightHits` (each struck enemy's position with the missile's damage, in strike order) and `FlightDefeats` (one boss defeat per strike that leaves a boss without health) |
| HomingMissileWeapons.HomingMissileWeapon.SetState | src/game/HomingMissileWeapon.ts:72 | the missile list and the fire timer take their new values; no enemy, no missile and no target changes |
| HomingMissileWeapons.HomingMissileWeapon.FlyAll | src/game/HomingMissileWeapon.ts:72-84 | every missile keeps or re-acquires its target, flies and meets its fate in order as `Flight` states; a missile whose target is not in the list kept it exactly when it is alive; the kept list is the `Survivors` of the fates and has no repeats; every missile ends in the state the flight gives it; the enemies end as the last missile left them; the log gains exactly `FlightHits` (each struck enemy's position with the missile's damage, in strike order) and `FlightDefeats` (one boss defeat per strike that leaves a boss without health) |
| HomingMissileWeapons.HomingMissileWeapon.FlyStep | src/game/HomingMissileWeapon.ts:73-83 | the filter's test of the `i`-th missile extends the flight by its fate and the kept list by the missile when it is kept; the missiles after it are untouched; its hit and boss defeat, if any, follow those logged before it |
| HomingMissileWeapons.HomingMissileWeapon.AdvanceOne | src/game/HomingMissileWeapon.ts:73-83 | the `i`-th missile keeps or re-acquires its target and meets its fate as `Fated` says; the missiles before it keep the states they flew to and their targets stand still; those after it keep their starting states; the log gains the missile's hit and boss defeat, if any (`FateHits`, `FateDefeats`) |
| HomingMissileWeapons.HomingMissileWeapon.AdvanceAmong | src/game/HomingMissileWeapon.ts:73-83 | the `i`-th missile of the list meets its fate as `Fated` says; every other missile and where its target stands stay as they were; a target outside the enemy list was kept exactly when it is alive; the log gains the missile's hit and boss defeat, if any (`FateHits`, `FateDefeats`) |
| HomingMissileWeapons.HomingMissileWeapon.Launch | src/game/HomingMissileWeapon.ts:37-69 | `numMissilesPerShot` fresh missiles (none for a negative count) launched from the player's position with the weapon's radius, speed, base damage, lifetime and turn speed, all aimed at the living enemy nearest to the player, pointing at it along the unit vector from the player to it when the two stand apart, or none when no enemy is alive; the enemies and the missiles in flight are unchanged |
| HomingMissileWeapons.HomingMissileWeapon.LaunchOne | src/game/HomingMissileWeapon.ts:38-68 | one search for the nearest living enemy, and a push at it when there is one; the volley grows by one fresh missile exactly when a target exists |
| HomingMissileWeapons.HomingMissileWeapon.Aim | src/game/HomingMissileWeapon.ts:38-53 | the search finds the volley's target, the living enemy nearest to the player; the enemies do not change |
| HomingMissileWeapons.HomingMissileWeapon.PushAt | src/game/HomingMissileWeapon.ts:54-67 | with an enemy found, the volley grows by one fresh missile in its launch state; with none it stays as it was; the enemies and where the target stands do not change |
| HomingMissileWeapons.HomingMissileWeapon.PushVolley | src/game/HomingMissileWeapon.ts:55-66 | one push extends the volley by exactly one fresh missile in its launch state, after the missiles already in the list |
| HomingMissileWeapons.HomingMissileWeapon.Push | src/game/HomingMissileWeapon.ts:55-66 | one fresh missile in its launch state, pointing along the normalised vector toward the target, joins the end of the list, which keeps no repeats |
| HomingMissileWeapons.HomingMissileWeapon.Advance | src/game/HomingMissileWeapon.ts:73-83 | the missile keeps its target exactly when that is set and alive, and otherwise re-acquires the living enemy nearest to where it starts; it flies; it is dropped as expired exactly when its age reached its lifetime; otherwise it strikes exactly the `FirstCollision` enemy, if any, which alone takes the damage; no enemy moves; the log gains the missile's hit and boss defeat, if any (`FateHits`, `FateDefeats`) |
| HomingMissileWeapons.HomingMissileWeapon.StrikeFate | src/game/HomingMissileWeapon.ts:76-83 | a live missile's fate is a strike on exactly the `FirstCollision` enemy or kept; the enemies end as `AfterFate` says; the log gains the struck enemy's position with the missile's damage, and a boss defeat when that leaves a boss without health (`FateHits`, `FateDefeats`) |
| HomingMissileWeapons.HomingMissileWeapon.Fly | src/game/HomingMissileWeapon.ts:73 | the missile's target becomes `Reacquired` of the old one, as `update` checks it; the missile flies as `Flown` says and lives on exactly while its age is below its lifetime; the enemies do not change |
| HomingMissileWeapons.HomingMissileWeapon.Strike | src/game/HomingMissileWeapon.ts:76-82 | only the `FirstCollision` enemy takes the missile's damage, with one hit and at most one boss defeat logged; every other enemy is unchanged |
| HomingMissileWeapons.HomingMissileWeapon.IncreaseDamage | src/game/HomingMissileWeapon.ts:93-96 | the damage grows by the amount |
| HomingMissileWeapons.HomingMissileWeapon.DecreaseFireRate | src/game/HomingMissileWeapon.ts:98-101 | the fire rate drops by the amount but never below 0.1 |
| HomingMissileWeapons.HomingMissileWeapon.IncreaseMissilesPerShot | src/game/HomingMissileWeapon.ts:103-106 | the volley size grows by the amount |
| SpinningBlades.OrbitPointDistance | src/game/SpinningBlade.ts:29-30 | the point placed at an angle on the orbit lies exactly the orbit distance from the player |
| SpinningBlades.BladeMovedOnOrbit | src/game/SpinningBlade.ts:26-31 | after an update the angle has advanced by `rotationSpeed * dt`; the blade is exactly `orbitDistance` from the player; nothing but angle and position changed |
| SpinningBlades.SpinningBlade.constructor | src/game/SpinningBlade.ts:14-24 | the given orbit, speed, damage, radius and angle; gray; the position at the origin until the first update |
| SpinningBlades.SpinningBlade.Update | src/game/SpinningBlade.ts:26-31 | the blade's new state is `BladeMoved` of the old one, whose orbit properties `BladeMovedOnOrbit` states |
| SpinningBladeWeapons.SweptBounded | src/game/SpinningBladeWeapon.ts:51-57 | after the clean-up every entry is at most twice the cooldown old; every younger entry is kept with its time; no entry is added |
| SpinningBladeWeapons.EnemyStepGate | src/game/SpinningBladeWeapon.ts:38-48 | a blade hits an enemy exactly when the enemy is alive, touches it and passes the gate for its key; the hit damages that enemy by the blade's damage, records `now` for the key and logs one hit at the enemy's position; without a hit nothing changes; other enemies and other keys are never touched |
| SpinningBladeWeapons.EnemyPassOnlyDamages | src/game/SpinningBladeWeapon.ts:38-48 | a blade's pass over the enemies changes only their health and hit flash, and never raises health when the damage is not negative |
| SpinningBladeWeapons.Frame | src/game/SpinningBladeWeapon.ts:34-58 | one update over the enemies leaves the enemy list as long as it was |
| SpinningBladeWeapons.OneBladeOneEnemy | src/game/SpinningBladeWeapon.ts:34-58 | a frame of one blade over one enemy is its move, that blade's single step at the enemy, then the sweep |
| SpinningBladeWeapons.OneBladeTwoEnemies | src/game/SpinningBladeWeapon.ts:34-58 | a frame of one blade over two enemies is its move, its steps at the first then the second enemy, then the sweep |
| SpinningBladeWeapons.TurningBladeHitsAgain | src/game/SpinningBladeWeapon.ts:40-46 | with the game's key, which contains the blade angle, a turning blade that touches a standing enemy on two frames in a row hits it on both, however close together the frames are |
| SpinningBladeWeapons.SharedSpotThrottles | src/game/SpinningBladeWeapon.ts:40-46 | with the game's key, which contains the enemy's position, a blade touching two living enemies on one spot in one frame hits only the first |
| SpinningBladeWeapons.PairKeyHitsOnce | src/game/SpinningBladeWeapon.ts:38-57 | with one key per enemy and blade, the same two frames within one cooldown hit the enemy only on the first |
| SpinningBladeWeapons.PairKeySeparatesSpot | src/game/SpinningBladeWeapon.ts:38-48 | with one key per enemy and blade, two distinct living enemies on one spot are both hit in the same frame |
| SpinningBladeWeapons.StableKeyThrottles | src/game/SpinningBladeWeapon.ts:43-57 | a key that stays the same from frame to frame, once hit at time `t`, survives every clean-up up to one cooldown later and fails the gate until then |
| SpinningBladeWeapons.SpinningBladeWeapon.constructor | src/game/SpinningBladeWeapon.ts:14-23 | the given parameters, a 0.2 s cooldown, an empty hit table, and `numBlades` fresh evenly spaced blades |
| SpinningBladeWeapons.SpinningBladeWeapon.CreateBlades | src/game/SpinningBladeWeapon.ts:25-32 | `numBlades` fresh distinct blades (none for a negative count); blade `i` sits at angle `2 * PI / numBlades * i` with the weapon's parameters |
| SpinningBladeWeapons.SpinningBladeWeapon.Update | src/game/SpinningBladeWeapon.ts:34-58 | every blade moves along its orbit (`BladeMoved`); then blade by blade every enemy meets it in order under the game's key `${enemy.x}_${enemy.y}_${blade.angle}`; the enemies, the hit table and the log end up exactly as `Frame` computes from the old state, the table swept last |
| SpinningBladeWeapons.SpinningBladeWeapon.TryHit | src/game/SpinningBladeWeapon.ts:39-47 | one blade meeting one enemy does exactly what `EnemyStep` describes under the game's key, whose gate, damage, table entry and logged hit `EnemyStepGate` states |
| SpinningBladeWeapons.SpinningBladeWeapon.SweepTable | src/game/SpinningBladeWeapon.ts:52-57 | the clean-up loop leaves exactly `Swept`, the entries at most twice the cooldown old |
| SpinningBladeWeapons.SpinningBladeWeapon.IncreaseDamage | src/game/SpinningBladeWeapon.ts:66-70 | the base damage grows by the amount and every blade now deals it; nothing else about the blades changes |
| SpinningBladeWeapons.SpinningBladeWeapon.AddBlade | src/game/SpinningBladeWeapon.ts:72-76 | one more blade, and all of them rebuilt fresh and evenly spaced from angle 0 |
| SpinningBladeWeapons.EvenSpacing | src/game/SpinningBladeWeapon.ts:27-30 | the first blade is at angle 0 and consecutive blades are `2 * PI / n` apart |
| LaserBeamWeapons.AimedEligible | src/game/LaserBeamWeapon.ts:47-50 | after the retarget step the beam holds a living enemy within range, or none, and then no enemy of the list is alive within range; a target that is still alive and in range is never dropped |
| LaserBeamWeapons.SteppedShape | src/game/LaserBeamWeapon.ts:34-60 | the cooldown counts down when positive; an idle beam changes nothing else and never ticks; an active beam runs its duration down by `dt`, switches off exactly when it reaches 0, and holds the retargeted enemy; a tick restarts the timer, which stays in `[0, fireRate)` |
| LaserBeamWeapons.ExpiringUpdateTicks | src/game/LaserBeamWeapon.ts:40-58 | in the update where the duration runs out the beam drops its target and switches off, yet the retarget step still finds an enemy and that enemy still takes a damage tick |
| LaserBeamWeapons.TriggeredShape | src/game/LaserBeamWeapon.ts:95-110 | a ready, idle beam with an enemy in reach switches on for the full duration, restarts the cooldown and the tick timer and locks on that enemy; with none in reach it stays off without a target; a beam that is not ready is unchanged |
| LaserBeamWeapons.LaserBeamWeapon.constructor | src/game/LaserBeamWeapon.ts:19-32 | the given parameters; idle, ready, no target |
| LaserBeamWeapons.LaserBeamWeapon.Update | src/game/LaserBeamWeapon.ts:34-60 | the beam's new state is `Stepped` of the old one; an active beam aims at `Aimed` of the target it still holds; on a tick that target alone takes `damagePerSecond * fireRate`, with one hit logged; no other enemy changes, nor the aimed one without a tick, nor an old target that is neither aimed at nor in the list |
| LaserBeamWeapons.LaserBeamWeapon.Strike | src/game/LaserBeamWeapon.ts:52-58 | a living target adds `dt` to the tick timer and takes the tick damage once the timer reaches `fireRate`, which restarts it; `Effects` holds; a target the beam held before and does not strike now is unchanged |
| LaserBeamWeapons.LaserBeamWeapon.Aim | src/game/LaserBeamWeapon.ts:48-50 | the retarget step computes `Aimed`, whose guarantees `AimedEligible` states |
| LaserBeamWeapons.LaserBeamWeapon.TriggerBeam | src/game/LaserBeamWeapon.ts:95-110 | the beam's new state is `Triggered` of the old one and the nearest living enemy within range; the result is true exactly when the beam was ready, idle and found an enemy |
| LaserBeamWeapons.LaserBeamWeapon.IncreaseDamage | src/game/LaserBeamWeapon.ts:137-140 | the damage per second grows by the amount |
| LaserBeamWeapons.LaserBeamWeapon.IncreaseRange | src/game/LaserBeamWeapon.ts:142-145 | the range grows by the amount |
| LaserBeamWeapons.LaserBeamWeapon.ReduceCooldown | src/game/LaserBeamWeapon.ts:147-150 | the cooldown drops by the amount but never below 1 s |
| LaserBeamWeapons.LaserBeamWeapon.IncreaseDuration | src/game/LaserBeamWeapon.ts:152-155 | the duration grows by the amount |
| TimeSlowAbilities.SlowTable | src/game/TimeSlowAbility.ts:51-59 | the table after the walk holds exactly the old keys plus every enemy of the list, and keeps every old entry's speed |
| TimeSlowAbilities.SlowTableRecords | src/game/TimeSlowAbility.ts:51-59 | each enemy the walk records is recorded with the speed it had before the walk, even when it is listed twice |
| TimeSlowAbilities.SlowThenRestore | src/game/TimeSlowAbility.ts:51-72 | slowing a list from an empty table and then restoring it gives every enemy of the list back exactly its old speed, whatever the factor; an enemy that was not in the list is left alone |
| TimeSlowAbilities.Advanced | src/game/TimeSlowAbility.ts:25-36 | the cooldown counts down while positive; an idle ability changes nothing else; an active one runs its duration down by `dt` and stays on exactly while it does not expire |
| TimeSlowAbilities.TimeSlowAbility.constructor | src/game/TimeSlowAbility.ts:14-23 | the given factor, duration and cooldown; idle, ready, with an empty table |
| TimeSlowAbilities.TimeSlowAbility.Update | src/game/TimeSlowAbility.ts:25-36 | the state advances as `Advanced` says; when the duration runs out every enemy of the list held in the table gets its recorded speed back and the table is emptied; otherwise no enemy and no entry changes; an idle ability never holds entries |
| TimeSlowAbilities.TimeSlowAbility.TriggerSlow | src/game/TimeSlowAbility.ts:38-49 | it fires exactly when ready and idle; it then switches on for the full duration, restarts the cooldown, records the untracked enemies as `SlowTable` says and slows just those; when it does not fire nothing changes |
| TimeSlowAbilities.TimeSlowAbility.ApplySlowEffect | src/game/TimeSlowAbility.ts:51-59 | the new table is `SlowTable` of the old one; only speeds change, and an enemy is slowed by the factor exactly when the table did not hold it |
| TimeSlowAbilities.TimeSlowAbility.SlowEnemy | src/game/TimeSlowAbility.ts:56 | the enemy's speed is multiplied by the factor and nothing else about it changes |
| TimeSlowAbilities.TimeSlowAbility.Deactivate | src/game/TimeSlowAbility.ts:61-72 | the ability switches off and its table is emptied; every enemy of the list held in the table gets its recorded speed back; no other enemy and no timer changes |
| TimeSlowAbilities.TimeSlowAbility.RestoreSpeeds | src/game/TimeSlowAbility.ts:64-68 | each enemy held in the table gets its recorded speed back; every other enemy and field is unchanged |
| TimeSlowAbilities.TimeSlowAbility.IncreaseSlowFactor | src/game/TimeSlowAbility.ts:74-81 | the factor drops by the amount but never below 0.05; enemies already slowed keep their speed |
| TimeSlowAbilities.TimeSlowAbility.IncreaseDuration | src/game/TimeSlowAbility.ts:83-86 | the duration grows by the amount |
| TimeSlowAbilities.TimeSlowAbility.ReduceCooldown | src/game/TimeSlowAbility.ts:88-91 | the cooldown drops by the amount but never below 5 s |
| Targeting.ClosestIsNearest | src/game/HomingMissile.ts:138-155 | the pick is an eligible enemy at minimum distance, strictly nearer than every eligible enemy before it; there is no pick exactly when no enemy is eligible |
| Targeting.NearestAlive | src/game/HomingMissileWeapon.ts:38-52 | the running-minimum loop from `Infinity` ends on `Closest` over the living enemies, the enemy `ClosestIsNearest` describes |
| Targeting.NearestAliveInRange | src/game/LaserBeamWeapon.ts:112-129 | the loop starting from `range + 1` ends on `Closest` over the living enemies within range |
| Trails.FadeTrail | src/game/Projectile.ts:43-47 | the filtered trail is never longer; every particle kept is visible and is the faded copy of an old one; every old particle whose faded copy is visible is kept |
| Trails.FadeTrailAppend | src/game/Projectile.ts:43-47 | fading distributes over concatenation: each particle fades and is kept on its own |
| Trails.TrailStepShape | src/game/Projectile.ts:39-47 | an update fades the old particles and appends the new one last, which survives exactly when `dt < 0.2` and `0.9 * radius > 1`; the trail grows by at most one particle per update |
| Timers.ReadyAfter | src/game/LaserBeamWeapon.ts:35-37 | with positive steps the cooldown is over once the elapsed steps add up to its start value, and it never drops below `-dt` |
| Timers.StaysCool | src/game/TimeSlowAbility.ts:26-28 | a cooldown at or below zero no longer changes |
| Separation.PushLength | src/game/EntityManager.ts:104-127 | a pair closer than 1.5 times the sum of its radii is pushed with a force of length `(overlap / separationRadius) * 100`, in `(0, 100]`, along the random angle when the two share one spot; a farther pair is not pushed |
| Separation.PushZeroIff | src/game/EntityManager.ts:104-127 | the push is zero exactly for the pairs at least the separation radius apart |
| Separation.ForcesBalanced | src/game/EntityManager.ts:92-129 | the separation forces of all the enemies sum to zero |
| Separation.SeparationForces | src/game/EntityManager.ts:92-129 | the nested loop computes `Forces`, which `ForcesBalanced` shows balanced |
| EntityManagers.InCameraViewBoxes | src/game/EntityManager.ts:26-34 | the culling test is a strict overlap of the entity's box with the camera rectangle grown by 50 on every side; an entity whose centre is on screen passes; one wholly beyond the margin on some side fails |
| EntityManagers.EnemyPhaseViews | src/game/EntityManager.ts:131-144 | each enemy of the loop ends up as `Updated` makes it, independently of the others |
| EntityManagers.EnemyPhaseQuiet | src/game/EntityManager.ts:131-144 | without a boss in the list no visual is requested and every hit the player takes is the flat contact damage of 5 |
| EntityManagers.EnemyPhaseContact | src/game/EntityManager.ts:140-143 | without a boss in the list the player takes exactly one hit per enemy that touches them after its move |
| EntityManagers.DefeatedSplit | src/game/EntityManager.ts:181-189 | every enemy is either a survivor or defeated, never both; the survivors are exactly the living enemies and the defeated exactly the dead ones; the gold handed out is the defeated enemies' drops |
| EntityManagers.ProjectileFates | src/game/EntityManager.ts:169-178 | every boss projectile has exactly one fate: it stays, it hits the player, or it ran out of lifetime |
| EntityManagers.MagnetTick | src/game/EntityManager.ts:192-198 | a finished effect is left alone; a running one loses `dt` and its radius drops to 0 exactly when the time is used up |
| EntityManagers.EffectiveRadius | src/game/EntityManager.ts:201 | the pull radius is the larger of the player's own and the effect's |
| EntityManagers.MagnetExpired | src/game/EntityManager.ts:192-201 | once the countdown has run out only the player's own radius pulls |
| EntityManagers.GemMoved | src/game/EntityManager.ts:206-213 | a gem is pulled exactly when the radius is positive and the gem is strictly inside it; otherwise it stays where it is |
| EntityManagers.LastPickupOverwrites | src/game/EntityManager.ts:224-233 | picking up overwrites rather than stacks: with no pickup the effect is untouched; otherwise it holds exactly the values of the last pickup touched, whatever it was before |
| EntityManagers.SpawnedView | src/game/EntityManager.ts:37-49 | a shooter with projectile parameters becomes a cyan shooting enemy carrying those parameters; anything else becomes a red regular enemy; both start at full health with the given gold drop |
| EntityManagers.BossView | src/game/EntityManager.ts:51-66 | the boss is red, at full health, in phase 0, with the default thresholds, reporting its defeat |
| EntityManagers.EntityManager.constructor | src/game/EntityManager.ts:19-23 | the manager works on the given game state |
| EntityManagers.EntityManager.SpawnEnemy | src/game/EntityManager.ts:37-49 | exactly one fresh enemy, the `SpawnedView` of the arguments, is appended to the enemies |
| EntityManagers.EntityManager.SpawnBoss | src/game/EntityManager.ts:51-66 | a fresh boss, the `BossView` of the arguments, is appended to the enemies and becomes the current boss |
| EntityManagers.EntityManager.SpawnExperienceGem | src/game/EntityManager.ts:68-71 | exactly one fresh gem with the given position and value is appended |
| EntityManagers.EntityManager.SpawnMagnetPowerUp | src/game/EntityManager.ts:73-76 | exactly one fresh pickup at the position, lasting 5 s with radius 300, is appended |
| EntityManagers.EntityManager.AddDamageNumber | src/game/EntityManager.ts:78-80 | exactly one fresh number with the position, value and colour and the default lifetime is appended |
| EntityManagers.EntityManager.AddBossAttackVisual | src/game/EntityManager.ts:82-84 | the visual is appended to the active visuals |
| EntityManagers.EntityManager.AddBossProjectile | src/game/EntityManager.ts:86-88 | the projectile is appended to the boss projectiles |
| EntityManagers.EntityManager.Update | src/game/EntityManager.ts:91-234 | one frame, phase by phase in the game's order; every list keeps each object once and the blade and missile weapons keep their invariants |
| EntityManagers.EntityManager.UpdateEnemies | src/game/EntityManager.ts:131-144 | the enemies end up as `EnemyPhase` says; the visuals they requested and every damage the player took are appended in call order |
| EntityManagers.EntityManager.UpdateWeapons | src/game/EntityManager.ts:147-157 | the weapons and abilities each run their own update, in the game's order, leaving the game state's own fields as they were and keeping the missile and blade weapons' invariants |
| EntityManagers.EntityManager.TickMagnets | src/game/EntityManager.ts:160 | every pickup's countdown drops by `dt` |
| EntityManagers.EntityManager.DrainHits | src/game/EntityManager.ts:78-80 | every hit logged since the last frame becomes a fresh damage number in the default colour and lifetime, in order, at the hit's position and showing its amount |
| EntityManagers.EntityManager.FilterDamageNumbers | src/game/EntityManager.ts:163 | every number ages and drifts; the ones still within their lifetime stay, in order |
| EntityManagers.EntityManager.DrainVisuals | src/game/EntityManager.ts:82-84 | every visual request logged since the last frame becomes a fresh attack visual, in order, with the requested position, radius, duration and colour |
| EntityManagers.EntityManager.FilterVisuals | src/game/EntityManager.ts:166 | every visual ages; the ones still within their duration stay, in order |
| EntityManagers.EntityManager.FilterBossProjectiles | src/game/EntityManager.ts:169-178 | every projectile steps; an expired one is dropped; a live one touching the player deals its damage and is dropped; the rest stay, in order |
| EntityManagers.EntityManager.ClearDefeated | src/game/EntityManager.ts:181-189 | only the living enemies stay, in order; the `k`-th defeated enemy leaves a gem worth 10 at its position and hands over its gold, and leaves a default magnet there when the `k`-th draw is below 0.1 |
| EntityManagers.EntityManager.CountDownMagnet | src/game/EntityManager.ts:192-198 | the effect's radius and duration become `MagnetTick` of the old ones |
| EntityManagers.EntityManager.CollectGems | src/game/EntityManager.ts:201-221 | with the larger of the two radii every gem moves as `GemMoved` says; a gem that then touches the player is removed and its value handed over; the rest stay, in order |
| EntityManagers.EntityManager.CollectMagnets | src/game/EntityManager.ts:224-233 | the pickups the player touches are removed and the rest stay, in order; the effect becomes `LastPickup`, the values of the last one touched |
| EntityManagers.EntityManager.Reset | src/game/EntityManager.ts:310-318 | the six entity lists are empty and there is no current boss |
| WaveManagers.Shrunk | src/game/WaveManager.ts:53 | a new wave's spawn interval is never below 0.5, and is either 0.5 or 90% of the old one |
| WaveManagers.WaveRollover | src/game/WaveManager.ts:49-53 | a wave ends exactly when its time reaches 60 s; the wave number then rises by one, the time restarts and the interval shrinks; otherwise the time just grows and the wave and interval stay |
| WaveManagers.BossEveryThirdWave | src/game/WaveManager.ts:50-58 | a boss warning fires exactly on the step that starts a wave whose number is a multiple of three |
| WaveManagers.SpawnOnTimer | src/game/WaveManager.ts:61-65 | one enemy spawns exactly when the timer reaches the current interval, and the timer then restarts; otherwise the timer keeps counting |
| WaveManagers.AdvanceKeepsClockOk | src/game/WaveManager.ts:49-65 | a step by a non-negative `dt` keeps the wave number at least 1, the wave time within the wave, the interval at or above 0.5 and the spawn timer below the interval |
| WaveManagers.RunKeepsClockOk | src/game/WaveManager.ts:44-66 | those bounds hold after any number of unguarded frames of non-negative length |
| WaveManagers.ShrunkFloored | src/game/WaveManager.ts:53 | shrinking an interval already floored at 0.5 is flooring the shrunk interval |
| WaveManagers.ShrunkTimesClosedForm | src/game/WaveManager.ts:53 | after `n` waves the interval is the larger of 0.5 and 0.9^n times the start, as if the floor were applied once |
| WaveManagers.Pick4 | src/game/WaveManager.ts:72 | `Math.floor(r * 4)` of a draw in [0, 1) is a valid index into a four-entry table |
| WaveManagers.SpawnPoint | src/game/WaveManager.ts:138-167 | in a world of non-negative size the spawn point lies inside the world |
| WaveManagers.SpawnBeyondCamera | src/game/WaveManager.ts:144-160 | where the padded edge lies inside the world, the enemy appears exactly 100 beyond the camera on its side |
| WaveManagers.Templates | src/game/WaveManager.ts:183-189 | there are exactly four regular enemy types |
| WaveManagers.BaseStatsAtWaveOne | src/game/WaveManager.ts:193-200 | at wave 1 every multiplier is one: whole-number base health, speed and gold, and a shooter damage of 10, come out unchanged |
| WaveManagers.ScaleMonotone | src/game/WaveManager.ts:193-196 | a later wave has a multiplier at least as large, so it scales a non-negative base to at least as much |
| WaveManagers.HealthGrowsWithWave | src/game/WaveManager.ts:193-198 | enemy health never falls from one wave to a later one |
| WaveManagers.SpeedGrowsWithWave | src/game/WaveManager.ts:194-199 | enemy speed never falls from one wave to a later one |
| WaveManagers.GoldGrowsWithWave | src/game/WaveManager.ts:195-200 | enemy gold never falls from one wave to a later one |
| WaveManagers.DamageGrowsWithWave | src/game/WaveManager.ts:196-209 | shooter projectile damage never falls from one wave to a later one |
| WaveManagers.RegularSpawn | src/game/WaveManager.ts:138-216 | the enemy handed over lies in the world, has the drawn type's health, speed and gold scaled to the wave and rounded down as the game does, its size (70% on mobile), and is a shooter carrying the wave's projectile stats exactly when the type is the shooter; it is never a boss |
| WaveManagers.BossSpawnPoint | src/game/WaveManager.ts:78-97 | the boss appears at the offset from both walls that meet at the drawn corner |
| WaveManagers.BossSpawnInside | src/game/WaveManager.ts:78-97 | in a world at least twice the offset across, the boss appears inside the world, at least the offset away from every wall |
| WaveManagers.BossHealthOnBossWaves | src/game/WaveManager.ts:111 | the boss of the `k`-th boss wave has 500 + 200(k-1) health, 200 more than the one before |
| WaveManagers.NatString | src/game/WaveManager.ts:124 | a printed wave number is a non-empty string of decimal digits |
| WaveManagers.NatStringRoundTrip | src/game/WaveManager.ts:124 | reading the printed digits back gives the wave number |
| WaveManagers.BossName | src/game/WaveManager.ts:115-125 | the boss is `Boss X` when the next princess letter is one of S, I, M, G, E, and `Wave N Boss` for any other letter or a missing one |
| WaveManagers.BossNamesDistinct | src/game/WaveManager.ts:115-125 | a name starts with `Boss ` exactly when it was named after a letter, so lettered and numbered bosses are told apart |
| WaveManagers.WaveManager.constructor | src/game/WaveManager.ts:27-42 | the manager starts with a zero spawn timer and no stored boss corner or spawn point |
| WaveManagers.WaveManager.Update | src/game/WaveManager.ts:44-66 | while a boss is alive or its warning shows, nothing changes; otherwise the clock takes the `Advance` step, a warning clears the enemies and stores the corner, its spawn point and a three-second warning, a spawn appends one `RegularSpawn` enemy for the new wave, and nothing else changes |
| WaveManagers.WaveManager.Step | src/game/WaveManager.ts:49-65 | the same unguarded step as `Update` states |
| WaveManagers.WaveManager.WaveStep | src/game/WaveManager.ts:49-59 | the wave half of the step: the wave time, wave number and interval as `Advance` gives them, with the boss warning on every third wave |
| WaveManagers.WaveManager.SpawnStep | src/game/WaveManager.ts:61-65 | the spawn half: the timer grows and, once it reaches the interval, one `RegularSpawn` enemy is appended and the timer restarts |
| WaveManagers.WaveManager.TriggerBossWarning | src/game/WaveManager.ts:68-102 | the enemies are cleared, the drawn corner and its spawn point are stored, and a fresh three-second warning for that corner and canvas shows |
| WaveManagers.WaveManager.SpawnRegularEnemy | src/game/WaveManager.ts:138-217 | exactly one fresh enemy, the `RegularSpawn` of the draws, is appended |
| WaveManagers.WaveManager.SpawnBossAfterWarning | src/game/WaveManager.ts:104-136 | without a stored corner and point nothing happens; otherwise a fresh boss of this wave's size, speed 80, health and gold 100, with its name, appears at the stored point; it becomes the current boss and the stored corner and point are consumed |
| WaveManagers.WaveManager.Reset | src/game/WaveManager.ts:219-226 | the spawn timer, current boss, warning and stored spawn point clear, and the wave number stays |
| GameStates.InitialSlots | src/game/GameState.ts:55-71 | the initial weapon fills at most the one starting-weapon slot its class names; the three optional abilities fill exactly their own slots; the missile, laser and time-slow slots start empty |
| GameStates.GameState.constructor | src/game/GameState.ts:42-91 | the slots are `InitialSlots` of the arguments, holding the given objects; all lists are empty; the counters are wave 1, no time elapsed, a 2 s interval, 60 s waves, no flag set and no magnet effect |
| GameStates.GameState.Reset | src/game/GameState.ts:93-114 | the counters return to their starting values, the four declared lists empty and the six declared slots clear; the missile, laser and time-slow slots, the boss, its warning, its projectiles, the attack visuals and the princess letters keep their values |
| GameStates.GameState.ClearLists | src/game/GameState.ts:94-97 | enemies, gems, magnets and damage numbers are empty |
| GameStates.GameState.RestartCounters | src/game/GameState.ts:98-106 | the counters are back at their starting values |
| GameStates.GameState.ClearSlots | src/game/GameState.ts:108-113 | the aura, projectile, blade, explosion, shield and heal slots are empty |
| InputHandlers.LowerChar | src/game/InputHandler.ts:15 | `toLowerCase` on ASCII letters: `A`-`Z` go to `a`-`z` and every other character is left alone, so no ASCII upper-case letter remains |
| InputHandlers.Lower | src/game/InputHandler.ts:15 | `toLowerCase` on ASCII letters: the name keeps its length, each character is `LowerChar` of the one it replaces, and no ASCII upper-case letter remains |
| InputHandlers.LowerKeepsLowerCase | src/game/InputHandler.ts:15 | a name already in lower case is left as it is |
| InputHandlers.LowerIdempotent | src/game/InputHandler.ts:41 | lower-casing twice is lower-casing once |
| InputHandlers.KeyDown | src/game/InputHandler.ts:14-16 | after a key goes down its lower-cased name is in the set and no other name has changed |
| InputHandlers.KeyUp | src/game/InputHandler.ts:18-20 | after a key goes up its lower-cased name is absent and no other name has changed |
| InputHandlers.PressedIgnoresCase | src/game/InputHandler.ts:40-42 | asking about a key in any case gives the same answer |
| InputHandlers.PressedAfterDown | src/game/InputHandler.ts:14-42 | a key that went down is pressed, whatever case it went down or is asked about in |
| InputHandlers.DownThenUp | src/game/InputHandler.ts:14-20 | a down then an up of the same key in any cases leaves it unpressed, and leaves the set as it was when the key was not pressed before |
| InputHandlers.KeyStepsKeepLowerCase | src/game/InputHandler.ts:14-31 | pressing and releasing keep every name in the set lower case |
| InputHandlers.Axis | src/game/InputHandler.ts:55-66 | one keyboard axis lies in [-1, 1]; it is zero when both or neither of its keys are pressed, negative when only the negative key is and positive when only the positive one is |
| InputHandlers.KeyboardAxes | src/game/InputHandler.ts:55-66 | opposing keys (`w`/`s`, `a`/`d` and the arrows) cancel; a lone key gives a unit step along its axis, with y growing downwards |
| InputHandlers.LimitedLength | src/game/InputHandler.ts:69-74 | the returned vector never has a length above 1; a vector no longer than 1 comes back as it is; a longer one keeps its direction and gets length exactly 1 |
| InputHandlers.TouchOverridesKeys | src/game/InputHandler.ts:49-53 | a non-zero touch vector overrides the keyboard: the keys make no difference |
| InputHandlers.DiagonalIsUnit | src/game/InputHandler.ts:55-74 | up and right together give a vector of length exactly 1 pointing right and up |
| InputHandlers.InputHandler.constructor | src/game/InputHandler.ts:7-12 | both key sets start empty, the touch vector is zero and the window listeners are installed |
| InputHandlers.InputHandler.HandleKeyDown | src/game/InputHandler.ts:14-16 | the key set becomes `KeyDown` of the old one and stays lower case |
| InputHandlers.InputHandler.HandleKeyUp | src/game/InputHandler.ts:18-20 | the key set becomes `KeyUp` of the old one and stays lower case |
| InputHandlers.InputHandler.SimulateKeyDown | src/game/InputHandler.ts:22-26 | the key joins both the key set and the touch key set, lower-cased |
| InputHandlers.InputHandler.SimulateKeyUp | src/game/InputHandler.ts:28-32 | the key leaves both sets |
| InputHandlers.InputHandler.SetTouchMove | src/game/InputHandler.ts:35-38 | the touch vector is stored as given |
| InputHandlers.InputHandler.MovementVector | src/game/InputHandler.ts:45-77 | the result has length at most 1 and is the touch vector when it is non-zero, else the keyboard axes, scaled down to length 1 when longer |
| InputHandlers.InputHandler.Destroy | src/game/InputHandler.ts:79-82 | the window listeners are removed |
| GameEngines.CameraAxis | src/game/GameEngine.ts:85-90 | when the canvas fits in the world the camera stays inside `[0, world - canvas]`; away from the walls it centres the player; near a wall it stops at that wall |
| GameEngines.PlayerOnScreen | src/game/GameEngine.ts:85-90 | when the canvas fits in the world, a player inside the world is within the camera's view |
| GameEngines.SpawnView | src/game/GameEngine.ts:76 | the spawned enemy is a living regular enemy of size 20, speed 100 and 30 health, at the given position |
| GameEngines.SpawnPlace | src/game/GameEngine.ts:42-75 | the spawn position always lies inside the 2000 x 2000 world |
| GameEngines.MovedAll | src/game/GameEngine.ts:93 | every enemy takes its own step toward the player, independently of the others and in list order |
| GameEngines.ContactHits | src/game/GameEngine.ts:103-107 | the contact loop deals no more hits than there are enemies, and each hit is 5 |
| GameEngines.ContactCount | src/game/GameEngine.ts:103-107 | the player takes exactly one hit per enemy whose circle overlaps theirs |
| GameEngines.ContactStep | src/game/GameEngine.ts:103-107 | the contact loop one enemy further adds a hit of 5 exactly when that enemy touches the player |
| GameEngines.ContactTotal | src/game/GameEngine.ts:103-107 | the damage of one frame adds up to 5 times the number of enemies touching the player |
| GameEngines.AuraPass | src/game/GameEngine.ts:110 | an aura that does not fire leaves every enemy as it was; one that fires strikes each enemy as its zone says |
| GameEngines.SurvivorsAreKept | src/game/GameEngine.ts:113 | the filter of the living is the list kept by the flags of the living enemies |
| GameEngines.SurvivorsKept | src/game/GameEngine.ts:113 | filtering distinct regular enemies keeps them distinct and regular, takes nothing from outside the list and leaves the views of the living |
| GameEngines.SurvivorsAreTheLiving | src/game/GameEngine.ts:113 | every survivor is alive and comes from the list, and every living enemy of the list survives |
| GameEngines.Delta | src/game/GameEngine.ts:166 | the frame delta in seconds is a thousandth of the elapsed milliseconds, negative exactly when the clock went backwards |
| GameEngines.Deltas | src/game/GameEngine.ts:165-173 | a run of frames has one delta per frame |
| GameEngines.DeltasTelescope | src/game/GameEngine.ts:165-173 | over any run of frames the deltas add up to the time between the start and the last frame, in seconds |
| GameEngines.GameEngine.constructor | src/game/GameEngine.ts:27-36 | the player starts in the centre of the world, size 30, with no damage taken and the given health rule; the aura deals 10 within 100 every 0.5 s; there are no enemies, no frame and no game over, and the camera and timers are at zero |
| GameEngines.GameEngine.Update | src/game/GameEngine.ts:79-120 | once the game is over nothing changes. Otherwise the player moves and the camera follows. The enemies move and the spawn timer may add one enemy. The player takes 5 per touching enemy, and the aura fires or ticks. Only the living stay, and the game is over exactly when the player has died |
| GameEngines.GameEngine.Step | src/game/GameEngine.ts:82-119 | the same frame as `Update` states, past the game-over guard |
| GameEngines.GameEngine.Follow | src/game/GameEngine.ts:82-90 | the player is where its own update put it and the camera is `CameraAxis` on both axes |
| GameEngines.GameEngine.SpawnPosition | src/game/GameEngine.ts:42-74 | the position is `SpawnPlace` of the draws around the current camera |
| GameEngines.GameEngine.SpawnPhase | src/game/GameEngine.ts:96-100 | the timer restarts when it reaches the interval and otherwise grows by `dt`; exactly then one `SpawnView` enemy is appended |
| GameEngines.GameEngine.Purge | src/game/GameEngine.ts:113-119 | only the living enemies stay, and the game is over once the player has died |
| GameEngines.GameEngine.Living | src/game/GameEngine.ts:113 | the survivors are distinct regular enemies of the list whose views are `Survivors` of the old views |
| GameEngines.GameEngine.MoveAll | src/game/GameEngine.ts:93 | the enemies' views become `MovedAll`; no visual is requested and the player takes no damage |
| GameEngines.GameEngine.MoveOne | src/game/GameEngine.ts:93 | one regular enemy takes its step toward the player |
| GameEngines.GameEngine.SpawnTick | src/game/GameEngine.ts:96-100 | the timer grows by `dt` and once it reaches the interval one enemy spawns at the given position and the timer restarts |
| GameEngines.GameEngine.SpawnEnemy | src/game/GameEngine.ts:76 | exactly one fresh regular enemy at the position is appended |
| GameEngines.GameEngine.HitPlayer | src/game/GameEngine.ts:103-107 | the player's damage log grows by `ContactHits` of the enemies |
| GameEngines.GameEngine.HitOne | src/game/GameEngine.ts:104-106 | the player takes 5 exactly when they collide with this enemy |
| GameEngines.GameEngine.GameLoop | src/game/GameEngine.ts:165-173 | the frame time is stored, one `Update` with the delta since the last frame runs, and the next frame's id is stored |
| GameEngines.GameEngine.Init | src/game/GameEngine.ts:38-40 | the first frame runs at time 0 and its successor's id is stored |
| GameEngines.GameEngine.Stop | src/game/GameEngine.ts:175-180 | the stored frame is cancelled exactly when its id is present and not 0; the input listeners are always removed |
| GameOverScreens.ButtonRect | src/game/GameOverScreen.ts:20-26 | the restart button is 200 x 60, centred horizontally, its top edge 70 below the middle of the canvas |
| GameOverScreens.ClickHits | src/game/GameOverScreen.ts:42-48 | a click hits exactly when it lies within 100 of the centre horizontally and between 70 and 130 below the middle, edges included |
| GameOverScreens.DrawnButtonIsHitArea | src/game/GameOverScreen.ts:20-48 | a click restarts the game exactly when it lands on the button that was drawn, while the canvas keeps its size |
| GameOverScreens.Canvas.constructor | src/game/GameOverScreen.ts:3 | a canvas starts with its size and no click handler |
| GameOverScreens.GameOverScreen.constructor | src/game/GameOverScreen.ts:1-9 | the screen starts with its handler inactive and the restart callback not yet called |
| GameOverScreens.GameOverScreen.Activate | src/game/GameOverScreen.ts:33-52 | the first call installs this screen's handler on the canvas; a call while active changes nothing; afterwards the handler is active |
| GameOverScreens.GameOverScreen.ClearClickListener | src/game/GameOverScreen.ts:54-57 | the canvas loses its handler and the screen may install it again |
| GameOverScreens.GameOverScreen.Click | src/game/GameOverScreen.ts:37-51 | the restart callback runs once exactly when this screen's handler is installed and the click, relative to the canvas's box, hits the button; otherwise nothing happens |
| GameCanvases.OptionKeptMeaning | src/components/GameCanvas.tsx:58-69 | an upgrade passes the filter exactly when every slot whose prefix it starts with is filled |
| GameCanvases.OptionFlags | src/components/GameCanvas.tsx:58-69 | one verdict per upgrade, in list order, each the filter's verdict on that upgrade |
| GameCanvases.LevelUpOptionsExact | src/components/GameCanvas.tsx:27-70 | an upgrade is offered exactly when it is one of the 27 upgrades and every slot its prefix names is filled; the offer keeps the list's order |
| GameCanvases.UpgradeIdsDistinct | src/components/GameCanvas.tsx:28-56 | no upgrade id is listed twice |
| GameCanvases.UnprefixedAlwaysOffered | src/components/GameCanvas.tsx:58-69 | an upgrade carrying no slot prefix is offered whatever the loadout |
| GameCanvases.AddBladeAlwaysOffered | src/components/GameCanvas.tsx:41-61 | `addBlade` does not start with `blade`, so it is offered even with no spinning-blade weapon |
| GameCanvases.OfferedAt | src/components/GameCanvas.tsx:58-69 | an upgrade of the list that the filter keeps is offered |
| GameCanvases.EverythingFilledOffersAll | src/components/GameCanvas.tsx:27-70 | with every slot filled every upgrade is offered, in the list's order |
| GameCanvases.LevelUpOptionsGrow | src/components/GameCanvas.tsx:58-69 | filling more slots never withdraws an upgrade |
| GameCanvases.ItemKeptMeaning | src/components/GameCanvas.tsx:165-176 | a shop item stays on offer exactly when it buys no slot that is already filled |
| GameCanvases.ItemFlags | src/components/GameCanvas.tsx:165-176 | one verdict per shop item, in list order, each the filter's verdict on that item |
| GameCanvases.ShopOfferExact | src/components/GameCanvas.tsx:72-83 | an item is offered exactly when it is one of the ten shop items and buys no filled slot; the offer keeps the shop's order |
| GameCanvases.HealthPotionAlwaysOffered | src/components/GameCanvas.tsx:82 | the health potion, 50 gold, is always offered |
| GameCanvases.SlotItemOffered | src/components/GameCanvas.tsx:165-176 | a slot's item is offered exactly while that slot is empty |
| GameCanvases.ShopOfferShrinks | src/components/GameCanvas.tsx:165-176 | filling more slots never puts an item back on offer |
| GameCanvases.LevelUpChoice | src/components/GameCanvas.tsx:148-155 | a level-up shows three of the available upgrades, or all of them when fewer are available, none twice, each one the loadout allows, for any shuffle |
| GameCanvases.TouchVector | src/components/GameCanvas.tsx:220-235 | a drag within the 5-pixel dead zone stops the player; a longer one moves along the drag's direction with length `min(distance, 100) / 100`; the vector is never longer than 1 |
| GameCanvases.SameDirection | src/components/GameCanvas.tsx:229-230 | scaling a drag by a non-negative factor over its positive length keeps its direction |
| GameCanvases.Engine.constructor | src/components/GameCanvas.tsx:89 | the engine holds its game state and input handler and is not paused |
| GameCanvases.Engine.Pause | src/components/GameCanvas.tsx:154 | the engine is paused |
| GameCanvases.Engine.Resume | src/components/GameCanvas.tsx:160 | the engine runs again |
| GameCanvases.GameCanvas.constructor | src/components/GameCanvas.tsx:89-100 | no screen is shown, no options or items are listed, the gold is 0 and no touch has started |
| GameCanvases.GameCanvas.HandleLevelUp | src/components/GameCanvas.tsx:148-155 | without an engine nothing happens; otherwise at most three distinct allowed upgrades, the first three of the shuffle, are shown and the engine pauses |
| GameCanvases.GameCanvas.HandleSelectUpgrade | src/components/GameCanvas.tsx:157-161 | the level-up screen closes and the engine, when there is one, resumes |
| GameCanvases.GameCanvas.HandleOpenShop | src/components/GameCanvas.tsx:163-180 | the passed items are ignored: the shop shows its own list filtered by the engine's slots, with the given gold |
| GameCanvases.GameCanvas.HandleCloseShop | src/components/GameCanvas.tsx:182-185 | the shop screen closes |
| GameCanvases.GameCanvas.HandleAbilityPress | src/components/GameCanvas.tsx:196-198 | with an engine the key goes down on its input handler, in both key sets; without one nothing changes |
| GameCanvases.GameCanvas.HandleAbilityRelease | src/components/GameCanvas.tsx:201-203 | with an engine the key goes up on its input handler, in both key sets; without one nothing changes |
| GameCanvases.GameCanvas.HandleTouchStart | src/components/GameCanvas.tsx:206-211 | a single touch on a mobile screen with an engine records where it started and stops the player; otherwise nothing changes |
| GameCanvases.GameCanvas.HandleTouchMove | src/components/GameCanvas.tsx:213-236 | while a single touch is down on a mobile screen, the player's touch vector becomes `TouchVector` of the drag from where it started; otherwise nothing changes |
| GameCanvases.GameCanvas.HandleTouchEnd | src/components/GameCanvas.tsx:238-242 | on a mobile screen with an engine the player stops and the touch is forgotten; otherwise nothing changes |

## Left out

- **Drawing.** Every `draw` method and canvas call is pure rendering: gradients, shadows, text
  and the pulsing alpha.
- **Sound.** `SoundManager` is Web Audio synthesis.
- **React.** The presentation components (HUD, minimap, shop and level-up screens, dialogs,
  buttons) are left out. So are the leaderboard's `localStorage`, the localisation context, the
  toasts and the build configuration.
- **Effects that become parameters.** `Math.random()`, `performance.now()` and
  `requestAnimationFrame`. The shuffle of `handleLevelUp` (a sort with a random comparator) is
  a parameter too: any reordering of the available upgrades.
- **Listener registration.** Window listeners are a flag that construction sets and
  `destroy` clears. The restart callback of the game-over screen is a counter of its calls.
- **Floating point.** Numbers are real numbers, with no rounding, NaN or infinity. `sqrt`,
  `cos` and `sin` are known to the proofs only through the laws of `Geometry.MathLib`.
- **Text.** Translated names and descriptions of upgrades and shop items are not modelled.
  The items keep their ids, costs and kinds.
- **Unseen modules.** The modules the core calls but that are not part of this model:
  - `Player`: its own `update`, and how `takeDamage`, `gainGold` and `gainExperience` change
    its state. The model records the calls. Whether the player is alive is decided by a rule
    over the damage taken so far, `Collaborators.Player.survives`. That rule is a parameter,
    and nothing is assumed about it, so no modelled run knows whether a hit kills the player.
    `Player.collidesWith` is assumed to be the centre-distance rule of `Enemy.ts:122-127`:
    the two centres lie closer than the sum of the half-sizes (`Collaborators.Player.CollidesWith`).
    Every contact result (`EnemyPhaseContact`, `EnemyPhaseQuiet`, `ContactCount`,
    `ContactStep`, `ContactTotal`, `HitOne`) rests on that assumption.
  - `ShooterEnemy`: its own `update` and firing. A shooter carries its projectile parameters
    and moves like a regular enemy. Boss projectiles enter only through `addBossProjectile`.
  - `BossWarning`, `SpriteManager`, `Vendor` and `utils`: `clamp` is modelled as
    `Geometry.Clamp`.
  - `ProjectileWeapon`, `ExplosionAbility`, `ShieldAbility` and `HealAbility`: the entity
    manager's calls to their `update` are left out.
  - `ExperienceGem.update`: the entity manager calls it every frame, but the revision of
    `ExperienceGem` modelled here defines no such method. The call is modelled as doing
    nothing. A revision's `update` that moves or ages a gem is not modelled. In the source as
    given, `gem.update(deltaTime)` at `EntityManager.ts:159` throws a TypeError on the first
    frame that holds a gem; the model runs that frame as if the call did nothing.
- **Princess letters.** `GameState.ts` declares neither `princessNameLetters` nor
  `nextLetterIndex`. The model starts them at `[]` and `0`, and nothing modelled ever fills
  the letters. So every modelled boss is named `Wave N Boss`, and `BossName`'s lettered
  branch, with the lettered half of `BossNamesDistinct`, is reached by no modelled run. In
  the source as given both fields are `undefined`, and that read at WaveManager.ts:115
  throws.
- **Engine enemies and drawing.** `GameEngine.ts:76` builds its enemies without the sound
  manager and without the damage callback that the `Enemy` revision modelled here takes, and
  `GameEngine.ts:146` calls `enemy.draw` without the engine argument that `Enemy.ts:56` reads.
  So, as given, the loop throws at the first aura hit (`this.soundManager.playSound` at
  `Enemy.ts:101`) or at the first draw of a living enemy, before `GameEngine.ts:172` requests
  the next frame. The model runs the frame the later `Enemy` revision would give: the aura
  strikes and its hits are logged (`AuraPass`, `Update`), and `GameLoop` records the next
  frame's id. Drawing is not modelled.
- **Forwarding handlers.** `GameCanvas.handlePurchaseItem` only forwards to the engine's
  `purchaseItem`, which is not part of this model. `handleSelectUpgrade` is modelled except
  for the engine's `applyUpgrade`.
- **Weakly stated members.**
  - EntityManagers.EntityManager.Update: is stated only as keeping the lists' and weapons'
    invariants. Each phase method states its own effect, but the phases' contracts are not
    composed into one postcondition for the whole frame. The same holds for the phase
    wrappers it calls.
  - EntityManagers.EntityManager.UpdateWeapons: states that the weapon updates leave the game
    state's fields alone and keep the missile and blade weapons' invariants. What each weapon
    does is stated by its own `Update`, and not restated here.
  - GameEngines.GameEngine.Init: states only the stored frame time and frame id.
    `GameEngines.GameEngine.GameLoop` states the frame it runs.
  - HomingMissiles.HomingMissile.constructor: with the target at the missile's own position,
    the source divides by a zero distance and gets NaN. The model keeps the default
    direction (0, -1).
  - SpinningBladeWeapons.SpinningBladeWeapon.Update: reads the clock once per frame, as `now`.
    The source calls `performance.now()` again for every hit and once more for the clean-up.
    The readings of one frame differ by far less than the cooldown, so the model uses one.
  - InputHandlers.Lower: lower-cases ASCII letters only. JavaScript's `toLowerCase` also
    folds other letters (`Ä` to `ä`), and turns `İ` into two characters. The movement and
    ability keys the game asks about are all ASCII.
  - InputHandlers.LowerChar: maps one character, so it leaves every non-ASCII letter
    unchanged, for the reason given for `Lower`.

## Findings

| source | as written | input that shows it | evidently intended | confidence | as-written member | corrected member |
|---|---|---|---|---|---|---|
| src/game/SpinningBladeWeapon.ts:40-46 | the hit key is `${enemy.x}_${enemy.y}_${blade.angle}`; a turning blade has a new angle every frame, so the key of its next frame is not in the table and the 0.2 s cooldown never stops a turning blade from hitting the same enemy on the next frame; two living enemies on one spot share a key instead, so only the first is hit (`SharedSpotThrottles`) | an enemy at (100, 100) hit at time 10 by a blade turning 3 rad/s; one frame later (1/60 s, the blade turned by 0.05 rad) the new key is absent and the enemy is hit again | one key per enemy and blade, so a pair is hit at most once per 0.2 s and every enemy on a spot is hit | high; not executed | SpinningBladeWeapons.TurningBladeHitsAgain | SpinningBladeWeapons.PairKeyHitsOnce |
