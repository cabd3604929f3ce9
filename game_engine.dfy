/** The single-weapon game loop (src/game/GameEngine.ts): a player in a 2000 x 2000 world,
    a camera that follows it, regular enemies that spawn every 2 seconds and deal 5 damage
    on contact, and an aura weapon around the player.

    The player's own `update` (reading the input handler and moving) belongs to Player.ts,
    which is not part of this model: its result, the player's new position, is a parameter.
    Animation frame ids and the frame time come in as parameters too, and the two
    `Math.random()` draws of `spawnEnemy` are parameters in [0, 1). */
module GameEngines {
  import opened Wrappers
  import opened Geometry
  import opened Seqs
  import opened Events
  import opened Collaborators
  import opened Enemies
  import opened DamageZones
  import opened AuraWeapons
  import opened InputHandlers
  import opened EntityManagers
  import opened WaveManagers

  const WorldWidth: real := 2000.0
  const WorldHeight: real := 2000.0
  /** `enemySpawnInterval`, which nothing reassigns. */
  const SpawnInterval: real := 2.0

  // ---------------------------------------------------------------------------------------
  // The camera

  /** One camera coordinate: the player's coordinate less half the canvas, clamped to
      `[0, world - canvas]`. */
  function CameraAxis(p: real, canvas: real, world: real): (r: real)
    ensures canvas <= world ==> 0.0 <= r <= world - canvas
    ensures canvas / 2.0 <= p <= world - canvas / 2.0 ==> r == p - canvas / 2.0
    ensures canvas <= world && p < canvas / 2.0 ==> r == 0.0
    ensures canvas <= world && world - canvas / 2.0 < p ==> r == world - canvas
  {
    Clamp(p - canvas / 2.0, 0.0, world - canvas)
  }

  /** When the canvas fits in the world, a player inside the world is on the screen. */
  lemma PlayerOnScreen(p: real, canvas: real, world: real)
    requires 0.0 <= canvas <= world && 0.0 <= p <= world
    ensures CameraAxis(p, canvas, world) <= p <= CameraAxis(p, canvas, world) + canvas
  {
  }

  // ---------------------------------------------------------------------------------------
  // Spawning

  /** `new Enemy(x, y, 20, 100, 'red', 30)`, the enemy `spawnEnemy` pushes. */
  function SpawnView(x: real, y: real): (v: EnemyView)
    ensures v.x == x && v.y == y && v.health == v.maxHealth == 30.0 && Alive(v)
    ensures v.size == 20.0 && v.speed == 100.0 && v.kind == RegularKind && !v.reportsDefeat
  {
    EnemyView(x, y, 20.0, 100.0, "red", 30.0, 30.0, 0.0, 0, RegularKind, 0, 0.0, 0.0, false)
  }

  /** Where `spawnEnemy` places its enemy: beyond a camera edge as the wave manager places
      its enemies, clamped to the world. */
  function SpawnPlace(sideDraw: real, posDraw: real, camX: real, camY: real, canvasWidth: real,
                      canvasHeight: real): (p: (real, real))
    requires Random(sideDraw)
    ensures 0.0 <= p.0 <= WorldWidth && 0.0 <= p.1 <= WorldHeight
  {
    SpawnPoint(SideOf(sideDraw), posDraw, camX, camY, canvasWidth, canvasHeight, WorldWidth, WorldHeight)
  }

  // ---------------------------------------------------------------------------------------
  // The phases of `update` on values

  /** Every enemy after `enemy.update(dt, player)`. */
  function MovedAll(m: MathLib, vs: seq<EnemyView>, dt: real, px: real, py: real): (r: seq<EnemyView>)
    requires m.Valid()
    ensures |r| == |vs| && forall k :: 0 <= k < |vs| ==> r[k] == Moved(m, vs[k], dt, px, py)
  {
    seq(|vs|, k requires 0 <= k < |vs| => Moved(m, vs[k], dt, px, py))
  }

  /** The damage the contact loop deals, in list order: 5 for each enemy the player's
      circle overlaps. */
  function ContactHits(m: MathLib, vs: seq<EnemyView>, px: real, py: real, psize: real): (r: seq<real>)
    requires m.Valid()
    ensures |r| <= |vs|
    ensures forall k :: 0 <= k < |r| ==> r[k] == ContactDamage
  {
    if vs == [] then []
    else
      var n := |vs| - 1;
      ContactHits(m, vs[..n], px, py, psize) + if Touches(m, vs[n], px, py, psize) then [ContactDamage] else []
  }

  /** The player takes exactly one hit per enemy it touches. */
  lemma {:induction false} ContactCount(m: MathLib, vs: seq<EnemyView>, px: real, py: real, psize: real)
    requires m.Valid()
    ensures |ContactHits(m, vs, px, py, psize)| == Count(Touching(m, vs, px, py, psize))
  {
    if vs != [] {
      var n := |vs| - 1;
      var t := Touches(m, vs[n], px, py, psize);
      ContactCount(m, vs[..n], px, py, psize);
      TouchingSnoc(m, vs[..n], vs[n], px, py, psize);
      assert vs[..n] + [vs[n]] == vs;
      KeepSnoc(vs[..n], Touching(m, vs[..n], px, py, psize), vs[n], t);
    }
  }

  /** The contact loop one enemy further along. */
  lemma ContactStep(m: MathLib, vs: seq<EnemyView>, i: nat, px: real, py: real, psize: real)
    requires m.Valid() && i < |vs|
    ensures ContactHits(m, vs[..i + 1], px, py, psize) ==
      ContactHits(m, vs[..i], px, py, psize) + if Touches(m, vs[i], px, py, psize) then [ContactDamage] else []
  {
    assert vs[..i + 1][..i] == vs[..i];
  }

  /** The damage of one update adds up to 5 times the number of enemies touching the player. */
  lemma {:induction false} ContactTotal(m: MathLib, vs: seq<EnemyView>, px: real, py: real, psize: real)
    requires m.Valid()
    ensures Sum(ContactHits(m, vs, px, py, psize)) == ContactDamage * Count(Touching(m, vs, px, py, psize)) as real
  {
    if vs != [] {
      var n := |vs| - 1;
      var t := Touches(m, vs[n], px, py, psize);
      ContactTotal(m, vs[..n], px, py, psize);
      var h := ContactHits(m, vs[..n], px, py, psize);
      var tail := if t then [ContactDamage] else [];
      SumAppend(h, tail);
      TouchingSnoc(m, vs[..n], vs[n], px, py, psize);
      assert vs[..n] + [vs[n]] == vs;
      CountSnoc(Touching(m, vs[..n], px, py, psize), t);
      assert Sum(tail) == if t then ContactDamage else 0.0 by {
        assert tail != [] ==> tail[..0] == [];
      }
    }
  }

  /** The enemies the pass leaves with the aura's verdict applied. */
  function AuraPass(m: MathLib, fires: bool, z: Zone, vs: seq<EnemyView>, amount: real): (r: seq<EnemyView>)
    requires m.Valid()
    ensures |r| == |vs|
    ensures !fires ==> r == vs
    ensures fires ==> forall k :: 0 <= k < |vs| ==> r[k] == Struck(m, z, vs[k], amount)
  {
    if fires then StruckAll(m, z, vs, amount) else vs
  }

  /** The enemies the filter keeps: the living ones. */
  function Survivors(vs: seq<EnemyView>): seq<EnemyView> {
    if vs == [] then [] else Survivors(vs[..|vs| - 1]) + if Alive(vs[|vs| - 1]) then [vs[|vs| - 1]] else []
  }

  /** The survivors are the list filtered by the flags of the living. */
  lemma {:induction false} SurvivorsAreKept(vs: seq<EnemyView>)
    ensures Survivors(vs) == Keep(vs, LifeIs(vs, true))
  {
    if vs != [] {
      var n := |vs| - 1;
      SurvivorsAreKept(vs[..n]);
      assert LifeIs(vs, true)[..n] == LifeIs(vs[..n], true);
    }
  }

  /** Filtering a list of distinct regular enemies keeps them distinct and regular, takes
      nothing from outside the list, and leaves the views of the living. */
  lemma SurvivorsKept(es: seq<Enemy>)
    requires Distinct(es) && forall e <- es :: e.kind == RegularKind
    ensures var r := Keep(es, LifeIs(Views(es), true));
      && Distinct(r) && (forall e <- r :: e in es && e.kind == RegularKind)
      && Views(r) == Survivors(Views(es))
  {
    var flags := LifeIs(Views(es), true);
    KeepDistinct(es, flags);
    KeepViews(es, flags);
    SurvivorsAreKept(Views(es));
    forall e | e in Keep(es, flags)
      ensures e in es
    {
      KeepMember(es, flags, e);
    }
  }

  /** The views of enemies none of whose fields changed are the same views. */
  twostate lemma {:induction false} ViewsUnchanged(es: seq<Enemy>)
    requires forall e <- es :: unchanged(e)
    ensures Views(es) == old(Views(es))
  {
    if es != [] {
      var n := |es| - 1;
      forall e | e in es[..n]
        ensures unchanged(e)
      {
        assert e in es;
      }
      ViewsUnchanged(es[..n]);
      assert es[n] in es;
    }
  }

  /** The filter keeps exactly the living enemies: every survivor is alive and comes from the
      list, and every living enemy of the list survives. */
  lemma SurvivorsAreTheLiving(vs: seq<EnemyView>)
    ensures forall v <- Survivors(vs) :: Alive(v) && v in vs
    ensures forall i :: 0 <= i < |vs| && Alive(vs[i]) ==> vs[i] in Survivors(vs)
  {
    SurvivorsAreKept(vs);
    var flags := LifeIs(vs, true);
    forall v | v in Survivors(vs)
      ensures Alive(v) && v in vs
    {
      KeepMember(vs, flags, v);
    }
    forall i | 0 <= i < |vs| && Alive(vs[i])
      ensures vs[i] in Survivors(vs)
    {
      KeepMember(vs, flags, vs[i]);
    }
  }

  // ---------------------------------------------------------------------------------------
  // The frame clock

  /** `deltaTime = (currentTime - lastTime) / 1000`, in seconds, with no clamp. */
  function Delta(lastTime: real, currentTime: real): (dt: real)
    ensures dt * 1000.0 == currentTime - lastTime
    ensures dt < 0.0 <==> currentTime < lastTime
  {
    (currentTime - lastTime) / 1000.0
  }

  /** The frame times seen after `start`, the last one or `start` itself. */
  function LastFrame(start: real, times: seq<real>): real {
    if times == [] then start else times[|times| - 1]
  }

  /** The deltas of a run of frames starting from `start`, each frame's measured from the
      one before. */
  function Deltas(start: real, times: seq<real>): (ds: seq<real>)
    ensures |ds| == |times|
  {
    if times == [] then []
    else
      var n := |times| - 1;
      Deltas(start, times[..n]) + [Delta(LastFrame(start, times[..n]), times[n])]
  }

  /** The deltas telescope: over any run of frames they add up to the time elapsed between
      the start and the last frame, in seconds. */
  lemma {:induction false} DeltasTelescope(start: real, times: seq<real>)
    ensures Sum(Deltas(start, times)) == (LastFrame(start, times) - start) / 1000.0
  {
    if times != [] {
      var n := |times| - 1;
      DeltasTelescope(start, times[..n]);
      var ds := Deltas(start, times);
      assert ds[..n] == Deltas(start, times[..n]);
    }
  }

  // ---------------------------------------------------------------------------------------
  // The engine

  class GameEngine {
    /** `ctx.canvas.width` and `ctx.canvas.height`. */
    const canvasWidth: real
    const canvasHeight: real
    const player: Player
    const inputHandler: InputHandler
    const auraWeapon: AuraWeapon
    /** Where the enemies' damage callbacks would report; the engine installs none. */
    const log: EventLog

    var lastTime: real
    var animationFrameId: Option<int>
    var enemies: seq<Enemy>
    var enemySpawnTimer: real
    var gameOver: bool
    var cameraX: real
    var cameraY: real
    /** Every `cancelAnimationFrame` call, in order. */
    var cancelledFrames: seq<int>

    /** The engine only ever holds regular enemies, each once. */
    ghost predicate Valid()
      reads this`enemies
    {
      Distinct(enemies) && forall e <- enemies :: e.kind == RegularKind
    }

    /** The player starts in the centre of the world; the aura deals 10 within 100 every
        0.5 seconds. */
    constructor (canvasWidth: real, canvasHeight: real, survives: seq<real> -> bool)
      ensures Valid()
      ensures this.canvasWidth == canvasWidth && this.canvasHeight == canvasHeight
      ensures fresh(player) && fresh(inputHandler) && fresh(auraWeapon) && fresh(log)
      ensures player.x == WorldWidth / 2.0 && player.y == WorldHeight / 2.0 && player.size == 30.0
      ensures player.survives == survives && player.damageTaken == []
      ensures inputHandler.Valid() && inputHandler.listening && inputHandler.keys == {}
      ensures auraWeapon.damage == 10.0 && auraWeapon.radius == 100.0 && auraWeapon.attackInterval == 0.5
      ensures auraWeapon.lastAttackTime == 0.0
      ensures lastTime == 0.0 && animationFrameId == None && enemies == [] && enemySpawnTimer == 0.0
      ensures !gameOver && cameraX == 0.0 && cameraY == 0.0 && cancelledFrames == []
    {
      this.canvasWidth := canvasWidth;
      this.canvasHeight := canvasHeight;
      inputHandler := new InputHandler();
      player := new Player(WorldWidth / 2.0, WorldHeight / 2.0, 30.0, 0.0, survives);
      auraWeapon := new AuraWeapon(10.0, 100.0, 0.5);
      log := new EventLog();
      lastTime := 0.0;
      animationFrameId := None;
      enemies := [];
      enemySpawnTimer := 0.0;
      gameOver := false;
      cameraX := 0.0;
      cameraY := 0.0;
      cancelledFrames := [];
    }

    /** Everything `update` leaves behind, given the state before it: nothing changes once
        the game is over; otherwise the player moves, the camera follows, and the rest of the
        frame runs as `Advanced` says, a spawned enemy placed around the new camera. */
    ghost predicate Ticked(m: MathLib, dt: real, nx: real, ny: real, sideDraw: real, posDraw: real,
                           over0: bool, vs0: seq<EnemyView>, timer0: real, camera0: (real, real),
                           position0: (real, real), damage0: seq<real>, fires: bool, lastAttack0: real,
                           hits0: seq<Hit>, defeats0: nat)
      requires m.Valid() && Random(sideDraw)
      reads this`enemies, this`enemySpawnTimer, this`gameOver, this`cameraX, this`cameraY, enemies
      reads player, auraWeapon, log
    {
      if over0 then
        && gameOver && Views(enemies) == vs0 && enemySpawnTimer == timer0
        && cameraX == camera0.0 && cameraY == camera0.1 && player.x == position0.0 && player.y == position0.1
        && player.damageTaken == damage0 && auraWeapon.lastAttackTime == lastAttack0
        && log.hits == hits0 && log.bossDefeats == defeats0
      else
        var camX := CameraAxis(nx, canvasWidth, WorldWidth);
        var camY := CameraAxis(ny, canvasHeight, WorldHeight);
        && player.x == nx && player.y == ny && cameraX == camX && cameraY == camY
        && Advanced(m, dt, vs0, timer0, SpawnPlace(sideDraw, posDraw, camX, camY, canvasWidth, canvasHeight),
                    damage0, fires, lastAttack0, hits0, defeats0)
    }

    /** Everything `update` leaves behind once the player and the camera have moved, from the
        enemies' views `vs0` and the spawn timer `timer0`: the enemies move toward the player,
        one enemy appears at `at` when the timer reaches the interval, and `Struck` holds. */
    ghost predicate Advanced(m: MathLib, dt: real, vs0: seq<EnemyView>, timer0: real, at: (real, real),
                             damage0: seq<real>, fires: bool, lastAttack0: real, hits0: seq<Hit>, defeats0: nat)
      requires m.Valid()
      reads this`enemies, this`enemySpawnTimer, this`gameOver, enemies, player, auraWeapon, log
    {
      var spawn := timer0 + dt >= SpawnInterval;
      var v2 := MovedAll(m, vs0, dt, player.x, player.y) + if spawn then [SpawnView(at.0, at.1)] else [];
      && enemySpawnTimer == (if spawn then 0.0 else timer0 + dt)
      && Struck(m, dt, v2, damage0, fires, lastAttack0, hits0, defeats0)
    }

    /** Everything the second half of `update` leaves behind, from the enemies' views `v2`
        once they have moved and spawned: 5 damage per enemy touching the player, the aura's
        pass when `fires`, the living kept and the game over once the player has died. */
    ghost predicate Struck(m: MathLib, dt: real, v2: seq<EnemyView>, damage0: seq<real>, fires: bool,
                           lastAttack0: real, hits0: seq<Hit>, defeats0: nat)
      requires m.Valid()
      reads this`enemies, this`gameOver, enemies, player, auraWeapon, log
    {
      && player.damageTaken == damage0 + ContactHits(m, v2, player.x, player.y, player.size)
      && Culled(m, dt, v2, fires, lastAttack0, hits0, defeats0)
    }

    /** What the aura, the filter of the living and the game-over check leave behind, from
        the enemies' views `vs`: the aura's timer and the event log as `AuraLogged` says, the
        survivors of the aura's pass, and game over exactly when the player has died. */
    ghost predicate Culled(m: MathLib, dt: real, vs: seq<EnemyView>, fires: bool, lastAttack0: real,
                           hits0: seq<Hit>, defeats0: nat)
      requires m.Valid()
      reads this`enemies, this`gameOver, enemies, player, auraWeapon, log
    {
      && AuraLogged(m, dt, vs, fires, lastAttack0, hits0, defeats0)
      && Views(enemies) == Survivors(AuraPass(m, fires, Zone(player.x, player.y, auraWeapon.radius, false), vs, auraWeapon.damage))
      && gameOver == !player.IsAlive()
    }

    /** The aura's timer restarts when it fires and otherwise advances by `dt`; when it fires,
        the log gains the hits and the boss defeats of its pass over `vs`. */
    ghost predicate AuraLogged(m: MathLib, dt: real, vs: seq<EnemyView>, fires: bool, lastAttack0: real,
                               hits0: seq<Hit>, defeats0: nat)
      requires m.Valid()
      reads player, auraWeapon, log
    {
      var z := Zone(player.x, player.y, auraWeapon.radius, false);
      && auraWeapon.lastAttackTime == (if fires then 0.0 else lastAttack0 + dt)
      && log.hits == hits0 + (if fires then ZoneHits(m, z, vs, auraWeapon.damage) else [])
      && log.bossDefeats == defeats0 + (if fires then ZoneDefeats(m, z, vs, auraWeapon.damage) else 0)
    }

    /** `update(deltaTime)`, with `(nx, ny)` where the player's own update puts it. */
    method Update(m: MathLib, dt: real, nx: real, ny: real, sideDraw: real, posDraw: real)
      requires m.Valid() && Valid() && Random(sideDraw)
      modifies this`cameraX, this`cameraY, this`enemies, this`enemySpawnTimer, this`gameOver
      modifies enemies, player`x, player`y, player`damageTaken, auraWeapon`lastAttackTime
      modifies log`hits, log`bossDefeats, log`visuals
      ensures Valid()
      ensures Ticked(m, dt, nx, ny, sideDraw, posDraw, old(gameOver), old(Views(enemies)), old(enemySpawnTimer),
                     old((cameraX, cameraY)), old((player.x, player.y)), old(player.damageTaken),
                     old(auraWeapon.Fires(dt)), old(auraWeapon.lastAttackTime), old(log.hits), old(log.bossDefeats))
      ensures old(gameOver) ==> gameOver
    {
      if gameOver {
        return;
      }
      Step(m, dt, nx, ny, sideDraw, posDraw);
    }

    /** `update` past its game-over guard. The place of an enemy `spawnEnemy` would push is
        worked out as soon as the camera has moved; it is used only when the timer fires. */
    method Step(m: MathLib, dt: real, nx: real, ny: real, sideDraw: real, posDraw: real)
      requires m.Valid() && Valid() && Random(sideDraw) && !gameOver
      modifies this`cameraX, this`cameraY, this`enemies, this`enemySpawnTimer, this`gameOver
      modifies enemies, player`x, player`y, player`damageTaken, auraWeapon`lastAttackTime
      modifies log`hits, log`bossDefeats, log`visuals
      ensures Valid()
      ensures Ticked(m, dt, nx, ny, sideDraw, posDraw, false, old(Views(enemies)), old(enemySpawnTimer),
                     old((cameraX, cameraY)), old((player.x, player.y)), old(player.damageTaken),
                     old(auraWeapon.Fires(dt)), old(auraWeapon.lastAttackTime), old(log.hits), old(log.bossDefeats))
    {
      ghost var vs0, timer0, damage0 := Views(enemies), enemySpawnTimer, player.damageTaken;
      ghost var fires, lastAttack0, hits0, defeats0 := auraWeapon.Fires(dt), auraWeapon.lastAttackTime, log.hits, log.bossDefeats;
      Follow(nx, ny);
      var x, y := SpawnPosition(sideDraw, posDraw);
      Advance(m, dt, x, y, SpawnPlace(sideDraw, posDraw, CameraAxis(nx, canvasWidth, WorldWidth),
                                      CameraAxis(ny, canvasHeight, WorldHeight), canvasWidth, canvasHeight),
              vs0, timer0, damage0, fires, lastAttack0, hits0, defeats0);
    }

    /** The player's own update, seen as where it leaves the player, then the camera
        centred on the player and clamped to the world. */
    method Follow(nx: real, ny: real)
      modifies player`x, player`y, this`cameraX, this`cameraY
      ensures player.x == nx && player.y == ny
      ensures cameraX == CameraAxis(nx, canvasWidth, WorldWidth) && cameraY == CameraAxis(ny, canvasHeight, WorldHeight)
    {
      player.x := nx;
      player.y := ny;
      cameraX := player.x - canvasWidth / 2.0;
      cameraY := player.y - canvasHeight / 2.0;
      cameraX := Clamp(cameraX, 0.0, WorldWidth - canvasWidth);
      cameraY := Clamp(cameraY, 0.0, WorldHeight - canvasHeight);
    }

    /** The position `spawnEnemy` computes: a side from `Math.floor(Math.random() * 4)`, a
        point beyond that edge of the camera (padded by 100), clamped to the world. */
    method SpawnPosition(sideDraw: real, posDraw: real) returns (x: real, y: real)
      requires Random(sideDraw)
      ensures (x, y) == SpawnPlace(sideDraw, posDraw, cameraX, cameraY, canvasWidth, canvasHeight)
    {
      var side := Pick4(sideDraw);
      var spawnX, spawnY;
      if side == 0 {
        spawnX := posDraw * WorldWidth;
        spawnY := Max(0.0, cameraY - SpawnPadding);
      } else if side == 1 {
        spawnX := posDraw * WorldWidth;
        spawnY := Min(WorldHeight, cameraY + canvasHeight + SpawnPadding);
      } else if side == 2 {
        spawnX := Max(0.0, cameraX - SpawnPadding);
        spawnY := posDraw * WorldHeight;
      } else {
        spawnX := Min(WorldWidth, cameraX + canvasWidth + SpawnPadding);
        spawnY := posDraw * WorldHeight;
      }
      x := Clamp(spawnX, 0.0, WorldWidth);
      y := Clamp(spawnY, 0.0, WorldHeight);
    }

    /** The rest of `update` once the camera has moved: the enemies move, the spawn timer
        runs (a new enemy goes to `(x, y)`), and the contact damage, the aura, the filter and
        the game-over check follow. The ghost parameters name the state it starts from. */
    method Advance(m: MathLib, dt: real, x: real, y: real, ghost at: (real, real), ghost vs0: seq<EnemyView>,
                   ghost timer0: real, ghost damage0: seq<real>, ghost fires: bool, ghost lastAttack0: real,
                   ghost hits0: seq<Hit>, ghost defeats0: nat)
      requires m.Valid() && Valid() && !gameOver && at.0 == x && at.1 == y
      requires vs0 == Views(enemies) && timer0 == enemySpawnTimer && damage0 == player.damageTaken
      requires fires == auraWeapon.Fires(dt) && lastAttack0 == auraWeapon.lastAttackTime
      requires hits0 == log.hits && defeats0 == log.bossDefeats
      modifies this`enemies, this`enemySpawnTimer, this`gameOver, enemies, player`damageTaken
      modifies auraWeapon`lastAttackTime, log`hits, log`bossDefeats, log`visuals
      ensures Valid()
      ensures Advanced(m, dt, vs0, timer0, at, damage0, fires, lastAttack0, hits0, defeats0)
    {
      ghost var vs1 := MovedAll(m, vs0, dt, player.x, player.y);
      MoveAll(m, dt, player, enemies, log);
      Clash(m, dt, x, y, vs1, timer0, damage0, fires, lastAttack0, hits0, defeats0);
    }

    /** The spawn timer runs, then the contact damage, the aura, the filter and the
        game-over check, over the enemies as they have moved (`vs1`). */
    method Clash(m: MathLib, dt: real, x: real, y: real, ghost vs1: seq<EnemyView>, ghost timer0: real,
                 ghost damage0: seq<real>, ghost fires: bool, ghost lastAttack0: real, ghost hits0: seq<Hit>,
                 ghost defeats0: nat)
      requires m.Valid() && Valid() && !gameOver
      requires vs1 == Views(enemies) && timer0 == enemySpawnTimer && damage0 == player.damageTaken
      requires fires == auraWeapon.Fires(dt) && lastAttack0 == auraWeapon.lastAttackTime
      requires hits0 == log.hits && defeats0 == log.bossDefeats
      modifies this`enemies, this`enemySpawnTimer, this`gameOver, enemies, player`damageTaken
      modifies auraWeapon`lastAttackTime, log`hits, log`bossDefeats
      ensures Valid()
      ensures var spawn := timer0 + dt >= SpawnInterval;
        && enemySpawnTimer == (if spawn then 0.0 else timer0 + dt)
        && Struck(m, dt, vs1 + (if spawn then [SpawnView(x, y)] else []), damage0, fires, lastAttack0, hits0, defeats0)
    {
      SpawnPhase(dt, x, y, vs1, timer0);
      Strike(m, dt, vs1 + (if timer0 + dt >= SpawnInterval then [SpawnView(x, y)] else []),
             damage0, fires, lastAttack0, hits0, defeats0);
    }

    /** The enemy the spawn timer adds when it runs for `dt`: none before the interval is
        reached, or else one at `(x, y)`. */
    ghost function Spawns(dt: real, x: real, y: real): seq<EnemyView>
      reads this`enemySpawnTimer
    {
      if enemySpawnTimer + dt >= SpawnInterval then [SpawnView(x, y)] else []
    }

    /** The spawn timer, with the views of the list it leaves, from the views `vs1` and the
        timer `timer0` it starts from. */
    method SpawnPhase(dt: real, x: real, y: real, ghost vs1: seq<EnemyView>, ghost timer0: real)
      requires Valid() && vs1 == Views(enemies) && timer0 == enemySpawnTimer
      modifies this`enemies, this`enemySpawnTimer
      ensures Valid()
      ensures enemySpawnTimer == (if timer0 + dt >= SpawnInterval then 0.0 else timer0 + dt)
      ensures Views(enemies) == vs1 + (if timer0 + dt >= SpawnInterval then [SpawnView(x, y)] else [])
      ensures forall i :: 0 <= i < |enemies| ==> enemies[i] in old(enemies) || fresh(enemies[i])
    {
      ghost var es1 := enemies;
      SpawnTick(dt, x, y);
      ViewsUnchanged(es1);
      if enemies != es1 {
        ghost var e := enemies[|es1|];
        assert enemies == es1 + [e];
        ViewsAppend(es1, [e]);
      }
    }

    /** The contact damage, then the aura, the filter and the game-over check, from the
        state the ghost parameters name. */
    method Strike(m: MathLib, dt: real, ghost v2: seq<EnemyView>, ghost damage0: seq<real>, ghost fires: bool,
                  ghost lastAttack0: real, ghost hits0: seq<Hit>, ghost defeats0: nat)
      requires m.Valid() && Valid() && !gameOver
      requires v2 == Views(enemies) && damage0 == player.damageTaken
      requires fires == auraWeapon.Fires(dt) && lastAttack0 == auraWeapon.lastAttackTime
      requires hits0 == log.hits && defeats0 == log.bossDefeats
      modifies this`enemies, this`gameOver, enemies, player`damageTaken, auraWeapon`lastAttackTime
      modifies log`hits, log`bossDefeats
      ensures Valid()
      ensures Struck(m, dt, v2, damage0, fires, lastAttack0, hits0, defeats0)
    {
      HitPlayer(m, player, enemies, v2);
      Cull(m, dt, v2, fires, lastAttack0, hits0, defeats0);
    }

    /** The aura, the filter that keeps the living, and the game-over check. */
    method Cull(m: MathLib, dt: real, ghost vs: seq<EnemyView>, ghost fires: bool, ghost lastAttack0: real,
                ghost hits0: seq<Hit>, ghost defeats0: nat)
      requires m.Valid() && Valid() && !gameOver
      requires vs == Views(enemies) && fires == auraWeapon.Fires(dt) && lastAttack0 == auraWeapon.lastAttackTime
      requires hits0 == log.hits && defeats0 == log.bossDefeats
      modifies this`enemies, this`gameOver, enemies, auraWeapon`lastAttackTime, log`hits, log`bossDefeats
      ensures Valid()
      ensures Culled(m, dt, vs, fires, lastAttack0, hits0, defeats0)
    {
      RunAura(m, dt, vs, fires, lastAttack0, hits0, defeats0);
      Purge(AuraPass(m, fires, Zone(player.x, player.y, auraWeapon.radius, false), vs, auraWeapon.damage));
    }

    /** `enemies = enemies.filter(e => e.isAlive)`, then game over once the player has died. */
    method Purge(ghost ws: seq<EnemyView>)
      requires Valid() && ws == Views(enemies)
      modifies this`enemies, this`gameOver
      ensures Valid()
      ensures Views(enemies) == Survivors(ws)
      ensures gameOver == (old(gameOver) || !player.IsAlive())
      ensures forall e <- enemies :: e in old(enemies)
    {
      var survivors := Living(enemies);
      enemies := survivors;
      if !player.IsAlive() {
        gameOver := true;
      }
      ViewsUnchanged(survivors);
    }

    /** `enemies.filter(e => e.isAlive)` over distinct regular enemies. */
    static method Living(es: seq<Enemy>) returns (survivors: seq<Enemy>)
      requires Distinct(es) && forall e <- es :: e.kind == RegularKind
      ensures Distinct(survivors) && forall e <- survivors :: e in es && e.kind == RegularKind
      ensures Views(survivors) == Survivors(Views(es))
    {
      survivors := EntityManager.FilterByLife(es, true);
      SurvivorsKept(es);
    }

    /** `auraWeapon.update(deltaTime, player.x, player.y, enemies)`. */
    method RunAura(m: MathLib, dt: real, ghost vs: seq<EnemyView>, ghost fires: bool, ghost lastAttack0: real,
                   ghost hits0: seq<Hit>, ghost defeats0: nat)
      requires m.Valid() && Valid()
      requires vs == Views(enemies) && fires == auraWeapon.Fires(dt) && lastAttack0 == auraWeapon.lastAttackTime
      requires hits0 == log.hits && defeats0 == log.bossDefeats
      modifies enemies, auraWeapon`lastAttackTime, log`hits, log`bossDefeats
      ensures AuraLogged(m, dt, vs, fires, lastAttack0, hits0, defeats0)
      ensures Views(enemies) == AuraPass(m, fires, Zone(player.x, player.y, auraWeapon.radius, false), vs, auraWeapon.damage)
    {
      auraWeapon.Update(m, dt, player.x, player.y, enemies, log);
    }

    /** `enemies.forEach(enemy => enemy.update(deltaTime, player))` over regular enemies,
        which move and neither request a visual nor hurt the player. */
    static method MoveAll(m: MathLib, dt: real, player: Player, es: seq<Enemy>, log: EventLog)
      requires m.Valid() && Distinct(es) && forall e <- es :: e.kind == RegularKind
      modifies es, log`visuals, player`damageTaken
      ensures Views(es) == MovedAll(m, old(Views(es)), dt, player.x, player.y)
      ensures log.visuals == old(log.visuals) && player.damageTaken == old(player.damageTaken)
    {
      ghost var vs := Views(es);
      ghost var after := MovedAll(m, vs, dt, player.x, player.y);
      var i := 0;
      while i < |es|
        invariant 0 <= i <= |es|
        invariant forall k :: 0 <= k < i ==> es[k].View() == after[k]
        invariant forall k :: i <= k < |es| ==> es[k].View() == vs[k]
        invariant log.visuals == old(log.visuals) && player.damageTaken == old(player.damageTaken)
      {
        MoveOne(m, dt, player, es[i], log);
        i := i + 1;
      }
    }

    /** One regular enemy's `update`. */
    static method MoveOne(m: MathLib, dt: real, player: Player, e: Enemy, log: EventLog)
      requires m.Valid() && e.kind == RegularKind
      modifies e, log`visuals, player`damageTaken
      ensures e.View() == Moved(m, old(e.View()), dt, player.x, player.y)
      ensures log.visuals == old(log.visuals) && player.damageTaken == old(player.damageTaken)
    {
      e.Update(m, dt, player, log);
    }

    /** The spawn timer: it grows by `dt`, and once it reaches the interval one enemy spawns and
        the timer restarts at 0. */
    method SpawnTick(dt: real, x: real, y: real)
      requires Valid()
      modifies this`enemies, this`enemySpawnTimer
      ensures Valid()
      ensures var spawn := old(enemySpawnTimer) + dt >= SpawnInterval;
        && enemySpawnTimer == (if spawn then 0.0 else old(enemySpawnTimer) + dt)
        && (!spawn ==> enemies == old(enemies))
        && (spawn ==> Spawned(old(enemies), x, y) && fresh(enemies[|old(enemies)|]))
    {
      enemySpawnTimer := enemySpawnTimer + dt;
      if enemySpawnTimer >= SpawnInterval {
        SpawnEnemy(x, y);
        enemySpawnTimer := 0.0;
      }
    }

    /** The list is `es` with one new enemy at its end, at `(x, y)`. */
    ghost predicate Spawned(es: seq<Enemy>, x: real, y: real)
      reads this, enemies
    {
      && |enemies| == |es| + 1 && enemies[..|es|] == es && enemies[|es|] !in es
      && enemies[|es|].View() == SpawnView(x, y)
    }

    /** The push of `spawnEnemy`, once its position is known: one new regular enemy at the
        end of the list. */
    method SpawnEnemy(x: real, y: real)
      requires Valid()
      modifies this`enemies
      ensures Valid() && Spawned(old(enemies), x, y) && fresh(enemies[|old(enemies)|])
    {
      var e := new Enemy(x, y, 20.0, 100.0, "red", 30.0, None);
      DistinctAppend(enemies, e);
      enemies := enemies + [e];
    }

    /** The contact loop: 5 damage for every enemy the player collides with. */
    static method HitPlayer(m: MathLib, player: Player, es: seq<Enemy>, ghost vs: seq<EnemyView>)
      requires m.Valid() && vs == Views(es)
      modifies player`damageTaken
      ensures player.damageTaken == old(player.damageTaken) + ContactHits(m, vs, player.x, player.y, player.size)
    {
      ghost var d0 := player.damageTaken;
      var i := 0;
      while i < |es|
        invariant 0 <= i <= |es|
        invariant player.damageTaken == d0 + ContactHits(m, vs[..i], player.x, player.y, player.size)
      {
        ContactStep(m, vs, i, player.x, player.y, player.size);
        AppendAssoc(d0, ContactHits(m, vs[..i], player.x, player.y, player.size),
                    if Touches(m, vs[i], player.x, player.y, player.size) then [ContactDamage] else []);
        HitOne(m, player, es[i], vs[i], player.damageTaken);
        i := i + 1;
      }
      assert vs[..|es|] == vs;
    }

    /** One step of the contact loop: 5 damage when the player collides with `e`. */
    static method HitOne(m: MathLib, player: Player, e: Enemy, ghost v: EnemyView, ghost d: seq<real>)
      requires m.Valid() && v == e.View() && d == player.damageTaken
      modifies player`damageTaken
      ensures player.damageTaken == d + if Touches(m, v, player.x, player.y, player.size) then [ContactDamage] else []
    {
      var enemy := e.View();
      if player.CollidesWith(m, enemy.x, enemy.y, enemy.size) {
        player.TakeDamage(ContactDamage);
      }
    }

    /** `gameLoop(currentTime)`: the delta since the last frame, one update, and the next
        frame requested (its id is `frameId`). */
    method GameLoop(m: MathLib, currentTime: real, nx: real, ny: real, sideDraw: real, posDraw: real, frameId: int)
      requires m.Valid() && Valid() && Random(sideDraw)
      modifies this`cameraX, this`cameraY, this`enemies, this`enemySpawnTimer, this`gameOver
      modifies this`lastTime, this`animationFrameId
      modifies enemies, player`x, player`y, player`damageTaken, auraWeapon`lastAttackTime
      modifies log`hits, log`bossDefeats, log`visuals
      ensures Valid()
      ensures lastTime == currentTime && animationFrameId == Some(frameId)
      ensures Ticked(m, Delta(old(lastTime), currentTime), nx, ny, sideDraw, posDraw, old(gameOver), old(Views(enemies)),
                     old(enemySpawnTimer), old((cameraX, cameraY)), old((player.x, player.y)), old(player.damageTaken),
                     old(auraWeapon.Fires(Delta(lastTime, currentTime))), old(auraWeapon.lastAttackTime),
                     old(log.hits), old(log.bossDefeats))
      ensures old(gameOver) ==> gameOver
    {
      var deltaTime := Delta(lastTime, currentTime);
      lastTime := currentTime;
      // The next frame is requested after `update` and `draw` in the source; `update` never
      // touches `animationFrameId`, so recording it first leaves the same state. This is the
      // frame the later `Enemy` revision gives: with the engine's own enemy construction and
      // `draw` call, the source throws at the first aura hit or enemy draw instead.
      animationFrameId := Some(frameId);
      Update(m, deltaTime, nx, ny, sideDraw, posDraw);
    }

    /** `init()`: the first frame, at time 0. */
    method Init(m: MathLib, nx: real, ny: real, sideDraw: real, posDraw: real, frameId: int)
      requires m.Valid() && Valid() && Random(sideDraw)
      modifies this`cameraX, this`cameraY, this`enemies, this`enemySpawnTimer, this`gameOver
      modifies this`lastTime, this`animationFrameId
      modifies enemies, player`x, player`y, player`damageTaken, auraWeapon`lastAttackTime
      modifies log`hits, log`bossDefeats, log`visuals
      ensures Valid()
      ensures lastTime == 0.0 && animationFrameId == Some(frameId)
    {
      GameLoop(m, 0.0, nx, ny, sideDraw, posDraw, frameId);
    }

    /** `stop()`: the stored frame is cancelled only when its id is truthy (present and not
        0); the input handler's listeners are always removed. */
    method Stop()
      modifies this`cancelledFrames, inputHandler`listening
      ensures cancelledFrames == old(cancelledFrames) +
        if animationFrameId.Some? && animationFrameId.value != 0 then [animationFrameId.value] else []
      ensures !inputHandler.listening
    {
      if animationFrameId.Some? && animationFrameId.value != 0 {
        cancelledFrames := cancelledFrames + [animationFrameId.value];
      }
      inputHandler.Destroy();
    }
  }
}
