/** The game's React screen (src/components/GameCanvas.tsx), reduced to its logic: which
    level-up upgrades and which shop items it offers, how many upgrades a level-up shows,
    and how a drag on a touch screen becomes the player's movement vector.

    Upgrade ids that belong to a weapon or ability start with that slot's prefix and are
    offered only while the slot is filled; the shop offers a slot's item only while the slot
    is empty. The engine the screen talks to is a later revision than GameEngine.ts; the
    model gives it only what the screen uses: its game state, its input handler and whether
    it is paused. */
module GameCanvases {
  import opened Wrappers
  import opened Geometry
  import opened Seqs
  import opened GameStates
  import opened InputHandlers

  /** The weapon and ability slots of the game state. */
  datatype Slot = Aura | Projectile | Blade | HomingMissile | LaserBeam | Explosion | Shield | Heal | TimeSlow

  /** The id prefix of the upgrades that need a slot filled. */
  function Prefix(s: Slot): string {
    match s
    case Aura => "aura"
    case Projectile => "projectile"
    case Blade => "blade"
    case HomingMissile => "homingMissile"
    case LaserBeam => "laserBeam"
    case Explosion => "explosion"
    case Shield => "shield"
    case Heal => "heal"
    case TimeSlow => "timeSlow"
  }

  /** `s.startsWith(p)`, one character at a time. */
  predicate StartsWith(s: string, p: string)
    decreases |p|
  {
    p == [] || (s != [] && s[0] == p[0] && StartsWith(s[1..], p[1..]))
  }

  /** Whether a loadout holds something in a slot. */
  predicate Filled(l: Loadout, s: Slot) {
    match s
    case Aura => l.aura
    case Projectile => l.projectile
    case Blade => l.blade
    case HomingMissile => l.homingMissile
    case LaserBeam => l.laserBeam
    case Explosion => l.explosion
    case Shield => l.shield
    case Heal => l.heal
    case TimeSlow => l.timeSlow
  }

  /** Every slot filled in `a` is filled in `b`. */
  predicate Includes(a: Loadout, b: Loadout) {
    forall s: Slot :: Filled(a, s) ==> Filled(b, s)
  }

  const NothingFilled := Loadout(false, false, false, false, false, false, false, false, false)
  const EverythingFilled := Loadout(true, true, true, true, true, true, true, true, true)

  // ---------------------------------------------------------------------------------------
  // Level-up options

  /** The ids of every upgrade, in the order `getLevelUpOptions` lists them. */
  const UpgradeIds: seq<string> := [
    "auraDamage", "playerSpeed", "playerHealth", "projectileDamage", "projectileFireRate",
    "homingMissileDamage", "homingMissileFireRate", "homingMissileCount", "laserBeamDamage",
    "laserBeamRange", "dashCooldown", "bladeDamage", "addBlade", "explosionDamage",
    "explosionCooldown", "explosionRadius", "shieldHealth", "shieldRegen", "shieldCooldown",
    "healAmount", "healCooldown", "timeSlowFactor", "timeSlowDuration", "timeSlowCooldown",
    "playerMagnetRadius", "experienceBoost", "goldBoost"]

  /** The filter of `getLevelUpOptions`: an upgrade is kept unless one of the prefixes it
      starts with names an empty slot. */
  function OptionKept(id: string, filled: Loadout): bool {
    if StartsWith(id, "aura") && !filled.aura then false
    else if StartsWith(id, "projectile") && !filled.projectile then false
    else if StartsWith(id, "blade") && !filled.blade then false
    else if StartsWith(id, "homingMissile") && !filled.homingMissile then false
    else if StartsWith(id, "laserBeam") && !filled.laserBeam then false
    else if StartsWith(id, "explosion") && !filled.explosion then false
    else if StartsWith(id, "shield") && !filled.shield then false
    else if StartsWith(id, "heal") && !filled.heal then false
    else if StartsWith(id, "timeSlow") && !filled.timeSlow then false
    else true
  }

  /** An upgrade is an option exactly when every slot whose prefix it carries is filled. */
  lemma {:induction false} OptionKeptMeaning(id: string, filled: Loadout)
    ensures OptionKept(id, filled) <==> forall s: Slot :: StartsWith(id, Prefix(s)) ==> Filled(filled, s)
  {
    if OptionKept(id, filled) {
      forall s: Slot | StartsWith(id, Prefix(s)) ensures Filled(filled, s) {
        match s
        case Aura =>
        case Projectile =>
        case Blade =>
        case HomingMissile =>
        case LaserBeam =>
        case Explosion =>
        case Shield =>
        case Heal =>
        case TimeSlow =>
      }
    } else if StartsWith(id, "aura") && !filled.aura {
      assert Prefix(Aura) == "aura";
    } else if StartsWith(id, "projectile") && !filled.projectile {
      assert Prefix(Projectile) == "projectile";
    } else if StartsWith(id, "blade") && !filled.blade {
      assert Prefix(Blade) == "blade";
    } else if StartsWith(id, "homingMissile") && !filled.homingMissile {
      assert Prefix(HomingMissile) == "homingMissile";
    } else if StartsWith(id, "laserBeam") && !filled.laserBeam {
      assert Prefix(LaserBeam) == "laserBeam";
    } else if StartsWith(id, "explosion") && !filled.explosion {
      assert Prefix(Explosion) == "explosion";
    } else if StartsWith(id, "shield") && !filled.shield {
      assert Prefix(Shield) == "shield";
    } else if StartsWith(id, "heal") && !filled.heal {
      assert Prefix(Heal) == "heal";
    } else {
      assert Prefix(TimeSlow) == "timeSlow";
    }
  }

  /** The filter's outcome for each upgrade, in list order. */
  function OptionFlags(filled: Loadout): (r: seq<bool>)
    ensures |r| == |UpgradeIds| && forall i :: 0 <= i < |r| ==> r[i] == OptionKept(UpgradeIds[i], filled)
  {
    seq(|UpgradeIds|, i requires 0 <= i < |UpgradeIds| => OptionKept(UpgradeIds[i], filled))
  }

  /** `getLevelUpOptions(gameState)`, by id, for a game state with the given slots filled. */
  function LevelUpOptions(filled: Loadout): seq<string> {
    Keep(UpgradeIds, OptionFlags(filled))
  }

  /** An upgrade is offered exactly when it is one of the game's upgrades and every slot
      whose prefix it carries is filled; the offer lists them in the game's order. */
  lemma LevelUpOptionsExact(filled: Loadout, id: string)
    ensures id in LevelUpOptions(filled) <==> id in UpgradeIds && forall s: Slot :: StartsWith(id, Prefix(s)) ==> Filled(filled, s)
    ensures Sublist(LevelUpOptions(filled), UpgradeIds)
  {
    KeepMember(UpgradeIds, OptionFlags(filled), id);
    OptionKeptMeaning(id, filled);
    KeepSublist(UpgradeIds, OptionFlags(filled));
  }

  /** No upgrade is listed twice. */
  lemma UpgradeIdsDistinct()
    ensures Distinct(UpgradeIds)
  {
  }

  /** Upgrades without a slot prefix (`playerSpeed`, `playerHealth`, `dashCooldown`,
      `playerMagnetRadius`, `experienceBoost`, `goldBoost` and `addBlade`) are offered
      whatever the loadout. */
  lemma UnprefixedAlwaysOffered(filled: Loadout, id: string)
    requires id in UpgradeIds && forall s: Slot :: !StartsWith(id, Prefix(s))
    ensures id in LevelUpOptions(filled)
  {
    LevelUpOptionsExact(filled, id);
  }

  /** `addBlade` does not start with `blade`, so it is offered even while the game state
      holds no spinning-blade weapon. */
  lemma AddBladeAlwaysOffered(filled: Loadout)
    ensures "addBlade" in LevelUpOptions(filled)
  {
    OfferedAt(filled, 12, "addBlade");
  }

  /** An upgrade the filter keeps is offered. */
  lemma OfferedAt(filled: Loadout, i: nat, id: string)
    requires i < |UpgradeIds| && UpgradeIds[i] == id && OptionKept(id, filled)
    ensures id in LevelUpOptions(filled)
  {
    KeepMember(UpgradeIds, OptionFlags(filled), id);
  }

  /** With every slot filled, every upgrade is offered in the game's order. */
  lemma EverythingFilledOffersAll()
    ensures LevelUpOptions(EverythingFilled) == UpgradeIds
  {
    KeepAll(UpgradeIds, OptionFlags(EverythingFilled));
  }

  /** Filling more slots never withdraws an upgrade. */
  lemma LevelUpOptionsGrow(a: Loadout, b: Loadout, id: string)
    requires Includes(a, b) && id in LevelUpOptions(a)
    ensures id in LevelUpOptions(b)
  {
    LevelUpOptionsExact(a, id);
    LevelUpOptionsExact(b, id);
  }

  // ---------------------------------------------------------------------------------------
  // Shop items

  datatype ItemKind = Weapon | Ability | Consumable

  /** A shop item without its translated name and description. */
  datatype ShopItem = ShopItem(id: string, cost: nat, kind: ItemKind)

  /** `getShopItems()`: every item, in the order the shop lists them. */
  const ShopItems: seq<ShopItem> := [
    ShopItem("buy_aura_weapon", 100, Weapon),
    ShopItem("buy_projectile_weapon", 100, Weapon),
    ShopItem("buy_spinning_blade_weapon", 100, Weapon),
    ShopItem("buy_homing_missile_weapon", 120, Weapon),
    ShopItem("buy_laser_beam_weapon", 150, Weapon),
    ShopItem("buy_explosion_ability", 150, Ability),
    ShopItem("buy_shield_ability", 150, Ability),
    ShopItem("buy_heal_ability", 120, Ability),
    ShopItem("buy_time_slow_ability", 180, Ability),
    ShopItem("buy_health_potion", 50, Consumable)]

  const HealthPotion := ShopItem("buy_health_potion", 50, Consumable)

  /** The id of the item that fills a slot. */
  function BuyId(s: Slot): string {
    match s
    case Aura => "buy_aura_weapon"
    case Projectile => "buy_projectile_weapon"
    case Blade => "buy_spinning_blade_weapon"
    case HomingMissile => "buy_homing_missile_weapon"
    case LaserBeam => "buy_laser_beam_weapon"
    case Explosion => "buy_explosion_ability"
    case Shield => "buy_shield_ability"
    case Heal => "buy_heal_ability"
    case TimeSlow => "buy_time_slow_ability"
  }

  /** The filter of `handleOpenShop`: an item is withdrawn when it buys a slot that is
      already filled. */
  function ItemKept(id: string, filled: Loadout): bool {
    if id == "buy_aura_weapon" && filled.aura then false
    else if id == "buy_projectile_weapon" && filled.projectile then false
    else if id == "buy_spinning_blade_weapon" && filled.blade then false
    else if id == "buy_homing_missile_weapon" && filled.homingMissile then false
    else if id == "buy_laser_beam_weapon" && filled.laserBeam then false
    else if id == "buy_explosion_ability" && filled.explosion then false
    else if id == "buy_shield_ability" && filled.shield then false
    else if id == "buy_heal_ability" && filled.heal then false
    else if id == "buy_time_slow_ability" && filled.timeSlow then false
    else true
  }

  /** An item stays on offer exactly when it buys no slot that is filled. */
  lemma {:induction false} ItemKeptMeaning(id: string, filled: Loadout)
    ensures ItemKept(id, filled) <==> forall s: Slot :: id == BuyId(s) ==> !Filled(filled, s)
  {
    if ItemKept(id, filled) {
      forall s: Slot | id == BuyId(s) ensures !Filled(filled, s) {
        match s
        case Aura =>
        case Projectile =>
        case Blade =>
        case HomingMissile =>
        case LaserBeam =>
        case Explosion =>
        case Shield =>
        case Heal =>
        case TimeSlow =>
      }
    } else if id == "buy_aura_weapon" && filled.aura {
      assert BuyId(Aura) == id;
    } else if id == "buy_projectile_weapon" && filled.projectile {
      assert BuyId(Projectile) == id;
    } else if id == "buy_spinning_blade_weapon" && filled.blade {
      assert BuyId(Blade) == id;
    } else if id == "buy_homing_missile_weapon" && filled.homingMissile {
      assert BuyId(HomingMissile) == id;
    } else if id == "buy_laser_beam_weapon" && filled.laserBeam {
      assert BuyId(LaserBeam) == id;
    } else if id == "buy_explosion_ability" && filled.explosion {
      assert BuyId(Explosion) == id;
    } else if id == "buy_shield_ability" && filled.shield {
      assert BuyId(Shield) == id;
    } else if id == "buy_heal_ability" && filled.heal {
      assert BuyId(Heal) == id;
    } else {
      assert BuyId(TimeSlow) == id;
    }
  }

  function ItemFlags(filled: Loadout): (r: seq<bool>)
    ensures |r| == |ShopItems| && forall i :: 0 <= i < |r| ==> r[i] == ItemKept(ShopItems[i].id, filled)
  {
    seq(|ShopItems|, i requires 0 <= i < |ShopItems| => ItemKept(ShopItems[i].id, filled))
  }

  /** The items `handleOpenShop` shows for a game state with the given slots filled. */
  function ShopOffer(filled: Loadout): seq<ShopItem> {
    Keep(ShopItems, ItemFlags(filled))
  }

  /** An item is offered exactly when it is one of the shop's items and buys no slot that is
      filled; the offer lists them in the shop's order. */
  lemma ShopOfferExact(filled: Loadout, item: ShopItem)
    ensures item in ShopOffer(filled) <==> item in ShopItems && forall s: Slot :: item.id == BuyId(s) ==> !Filled(filled, s)
    ensures Sublist(ShopOffer(filled), ShopItems)
  {
    KeepMember(ShopItems, ItemFlags(filled), item);
    ItemKeptMeaning(item.id, filled);
    KeepSublist(ShopItems, ItemFlags(filled));
  }

  /** The health potion buys no slot, so it is always offered. */
  lemma HealthPotionAlwaysOffered(filled: Loadout)
    ensures HealthPotion in ShopOffer(filled)
  {
    assert ShopItems[9] == HealthPotion;
    KeepMember(ShopItems, ItemFlags(filled), HealthPotion);
  }

  /** A slot's item is offered exactly while the slot is empty. */
  lemma SlotItemOffered(filled: Loadout, s: Slot)
    ensures (exists item :: item in ShopOffer(filled) && item.id == BuyId(s)) <==> !Filled(filled, s)
  {
    var i := match s
      case Aura => 0 case Projectile => 1 case Blade => 2 case HomingMissile => 3 case LaserBeam => 4
      case Explosion => 5 case Shield => 6 case Heal => 7 case TimeSlow => 8;
    var item := ShopItems[i];
    assert item.id == BuyId(s);
    if !Filled(filled, s) {
      assert ItemKept(item.id, filled);
      KeepMember(ShopItems, ItemFlags(filled), item);
    }
    forall other | other in ShopOffer(filled) && other.id == BuyId(s) ensures !Filled(filled, s) {
      ShopOfferExact(filled, other);
    }
  }

  /** Filling more slots never puts an item back on offer. */
  lemma ShopOfferShrinks(a: Loadout, b: Loadout, item: ShopItem)
    requires Includes(a, b) && item in ShopOffer(b)
    ensures item in ShopOffer(a)
  {
    ShopOfferExact(a, item);
    ShopOfferExact(b, item);
  }

  // ---------------------------------------------------------------------------------------
  // Level-up choice and touch movement

  /** `shuffled.slice(0, 3)`. */
  function FirstThree(shuffled: seq<string>): seq<string> {
    shuffled[..if |shuffled| < 3 then |shuffled| else 3]
  }

  /** A level-up shows three of the available upgrades, or all of them when fewer are
      available; none is shown twice and each is one the loadout allows. The shuffle is any
      reordering of the available upgrades. */
  lemma LevelUpChoice(filled: Loadout, shuffled: seq<string>)
    requires multiset(shuffled) == multiset(LevelUpOptions(filled))
    ensures |FirstThree(shuffled)| == if |LevelUpOptions(filled)| < 3 then |LevelUpOptions(filled)| else 3
    ensures Distinct(FirstThree(shuffled))
    ensures forall id <- FirstThree(shuffled) :: id in LevelUpOptions(filled)
  {
    var available := LevelUpOptions(filled);
    assert |shuffled| == |multiset(shuffled)| == |multiset(available)| == |available|;
    UpgradeIdsDistinct();
    KeepDistinct(UpgradeIds, OptionFlags(filled));
    PermutationDistinct(available, shuffled);
    var picked := FirstThree(shuffled);
    forall id | id in picked ensures id in available {
      assert id in shuffled;
      assert id in multiset(shuffled);
    }
  }

  /** Drags shorter than this leave the player standing. */
  const TouchMoveThreshold: real := 5.0
  /** Drags this long or longer move the player at full speed. */
  const JoystickMaxDistance: real := 100.0

  /** The movement vector for a drag of `(dx, dy)` from where the touch started: nothing
      inside the dead zone, otherwise the drag's direction scaled by its length up to the
      joystick's reach, so that the vector is never longer than 1. */
  function TouchVector(m: MathLib, dx: real, dy: real): (v: (real, real))
    requires m.Valid()
    ensures m.Dist(dx, dy) <= 5.0 ==> v.0 == 0.0 && v.1 == 0.0
    ensures 5.0 < m.Dist(dx, dy) ==> m.Dist(v.0, v.1) == Min(m.Dist(dx, dy), 100.0) / 100.0
    ensures 5.0 < m.Dist(dx, dy) ==> v.0 * dy == v.1 * dx && 0.0 <= v.0 * dx && 0.0 <= v.1 * dy
    ensures m.Dist(v.0, v.1) <= 1.0
  {
    var distance := m.Dist(dx, dy);
    if distance > TouchMoveThreshold then
      var scale := Min(distance, JoystickMaxDistance) / JoystickMaxDistance;
      assert scale == Min(m.Dist(dx, dy), 100.0) / 100.0;
      StepLength(m, dx, dy, scale);
      DistCongruent(m, (dx / m.Dist(dx, dy)) * scale, (dy / m.Dist(dx, dy)) * scale, (dx / distance) * scale, (dy / distance) * scale);
      SameDirection(dx, dy, distance, scale);
      ((dx / distance) * scale, (dy / distance) * scale)
    else
      DistOfSquare(m, 0.0, 0.0, 0.0);
      (0.0, 0.0)
  }

  /** Scaling a vector by `k / d` with `d > 0` and `k >= 0` keeps its direction. */
  lemma SameDirection(dx: real, dy: real, d: real, k: real)
    requires 0.0 < d && 0.0 <= k
    ensures ((dx / d) * k) * dy == ((dy / d) * k) * dx
    ensures 0.0 <= ((dx / d) * k) * dx && 0.0 <= ((dy / d) * k) * dy
  {
    var c := k / d;
    assert 0.0 <= c;
    assert (dx / d) * k == dx * c && (dy / d) * k == dy * c;
    assert (dx * c) * dx == c * (dx * dx);
    assert (dy * c) * dy == c * (dy * dy);
  }

  // ---------------------------------------------------------------------------------------
  // The component

  /** The part of the game engine the screen uses. */
  class Engine {
    const state: GameState
    const inputHandler: InputHandler
    var paused: bool

    constructor (state: GameState, inputHandler: InputHandler)
      ensures this.state == state && this.inputHandler == inputHandler && !paused
    {
      this.state := state;
      this.inputHandler := inputHandler;
      paused := false;
    }

    /** `pause()`. */
    method Pause()
      modifies this`paused
      ensures paused
    {
      paused := true;
    }

    /** `resume()`. */
    method Resume()
      modifies this`paused
      ensures !paused
    {
      paused := false;
    }
  }

  /** The screen's state and refs. A touch is given by its `(clientX, clientY)`. */
  class GameCanvas {
    const isMobile: bool
    /** `gameEngineRef.current`. */
    var engine: Option<Engine>
    var showLevelUpScreen: bool
    var currentLevelUpOptions: seq<string>
    var showShopScreen: bool
    var currentShopItems: seq<ShopItem>
    var playerGold: int
    /** `touchStartPos.current`. */
    var touchStartPos: Option<(real, real)>

    constructor (isMobile: bool, engine: Option<Engine>)
      ensures this.isMobile == isMobile && this.engine == engine
      ensures !showLevelUpScreen && currentLevelUpOptions == [] && !showShopScreen && currentShopItems == []
      ensures playerGold == 0 && touchStartPos == None
    {
      this.isMobile := isMobile;
      this.engine := engine;
      showLevelUpScreen := false;
      currentLevelUpOptions := [];
      showShopScreen := false;
      currentShopItems := [];
      playerGold := 0;
      touchStartPos := None;
    }

    /** The engine, when there is one. */
    function Engines(): set<Engine>
      reads this`engine
    {
      if engine.Some? then {engine.value} else {}
    }

    /** The engine's input handler, when there is an engine. */
    function Inputs(): set<InputHandler>
      reads this`engine
    {
      if engine.Some? then {engine.value.inputHandler} else {}
    }

    /** The slots the shop and the level-up filter test: `gameEngineRef.current?.getGameState()`
        is `undefined` without an engine, and every slot then reads as empty. */
    function EngineSlots(): Loadout
      reads this`engine, if engine.Some? then {engine.value.state} else {}
    {
      if engine.Some? then engine.value.state.Slots() else NothingFilled
    }

    /** `handleLevelUp()`, with `shuffled` the outcome of sorting the available upgrades with
        a random comparator. Without an engine nothing happens; otherwise the first three of
        the shuffled upgrades are shown and the engine pauses. */
    method HandleLevelUp(shuffled: seq<string>)
      requires engine.Some? ==> multiset(shuffled) == multiset(LevelUpOptions(EngineSlots()))
      modifies this`currentLevelUpOptions, this`showLevelUpScreen, Engines()`paused
      ensures engine.None? ==> currentLevelUpOptions == old(currentLevelUpOptions) && showLevelUpScreen == old(showLevelUpScreen)
      ensures engine.Some? ==> currentLevelUpOptions == FirstThree(shuffled) && showLevelUpScreen && engine.value.paused
      ensures engine.Some? ==> |currentLevelUpOptions| <= 3 && Distinct(currentLevelUpOptions)
      ensures engine.Some? ==> forall id <- currentLevelUpOptions :: id in LevelUpOptions(EngineSlots())
    {
      if engine.None? {
        return;
      }
      LevelUpChoice(EngineSlots(), shuffled);
      currentLevelUpOptions := FirstThree(shuffled);
      showLevelUpScreen := true;
      engine.value.Pause();
    }

    /** `handleSelectUpgrade(upgradeId)`: the level-up screen closes and the engine, when
        there is one, resumes. Applying the upgrade is the engine's `applyUpgrade`, which is
        not part of this model. */
    method HandleSelectUpgrade(upgradeId: string)
      modifies this`showLevelUpScreen, Engines()`paused
      ensures !showLevelUpScreen
      ensures engine.Some? ==> !engine.value.paused
    {
      showLevelUpScreen := false;
      if engine.Some? {
        engine.value.Resume();
      }
    }

    /** `handleOpenShop(items, gold)`: the `items` argument is ignored; the shop shows its own
        list filtered by the engine's slots, and the given gold. */
    method HandleOpenShop(items: seq<ShopItem>, gold: int)
      modifies this`currentShopItems, this`playerGold, this`showShopScreen
      ensures currentShopItems == ShopOffer(EngineSlots()) && playerGold == gold && showShopScreen
    {
      currentShopItems := ShopOffer(EngineSlots());
      playerGold := gold;
      showShopScreen := true;
    }

    /** `handleCloseShop()`. */
    method HandleCloseShop()
      modifies this`showShopScreen
      ensures !showShopScreen
    {
      showShopScreen := false;
    }

    /** `handleAbilityPress(key)`: an on-screen ability button goes down on the engine's
        input handler; without an engine nothing happens. */
    method HandleAbilityPress(key: string)
      requires engine.Some? ==> engine.value.inputHandler.Valid()
      modifies Inputs()`keys, Inputs()`activeTouchKeys
      ensures engine.Some? ==> var h := engine.value.inputHandler;
        && h.Valid() && h.keys == KeyDown(old(h.keys), key) && h.activeTouchKeys == KeyDown(old(h.activeTouchKeys), key)
      ensures engine.None? ==> unchanged(Inputs())
    {
      if engine.Some? {
        engine.value.inputHandler.SimulateKeyDown(key);
      }
    }

    /** `handleAbilityRelease(key)`: the button goes up again. */
    method HandleAbilityRelease(key: string)
      requires engine.Some? ==> engine.value.inputHandler.Valid()
      modifies Inputs()`keys, Inputs()`activeTouchKeys
      ensures engine.Some? ==> var h := engine.value.inputHandler;
        && h.Valid() && h.keys == KeyUp(old(h.keys), key) && h.activeTouchKeys == KeyUp(old(h.activeTouchKeys), key)
      ensures engine.None? ==> unchanged(Inputs())
    {
      if engine.Some? {
        engine.value.inputHandler.SimulateKeyUp(key);
      }
    }

    /** `handleTouchStart`: a single touch on a mobile screen records where it started and
        stops the player. */
    method HandleTouchStart(touches: seq<(real, real)>)
      modifies this`touchStartPos, Inputs()`touchMoveX, Inputs()`touchMoveY
      ensures isMobile && engine.Some? && |touches| == 1 ==>
        touchStartPos == Some(touches[0]) && engine.value.inputHandler.touchMoveX == 0.0 && engine.value.inputHandler.touchMoveY == 0.0
      ensures !(isMobile && engine.Some? && |touches| == 1) ==> unchanged(this) && unchanged(Inputs())
    {
      if !isMobile || engine.None? || |touches| != 1 {
        return;
      }
      touchStartPos := Some(touches[0]);
      engine.value.inputHandler.SetTouchMove(0.0, 0.0);
    }

    /** `handleTouchMove`: while a single touch is down on a mobile screen, the player moves
        along the drag from where the touch started. */
    method HandleTouchMove(m: MathLib, touches: seq<(real, real)>)
      requires m.Valid()
      modifies Inputs()`touchMoveX, Inputs()`touchMoveY
      ensures isMobile && engine.Some? && touchStartPos.Some? && |touches| == 1 ==>
        var v := TouchVector(m, touches[0].0 - touchStartPos.value.0, touches[0].1 - touchStartPos.value.1);
        engine.value.inputHandler.touchMoveX == v.0 && engine.value.inputHandler.touchMoveY == v.1
      ensures !(isMobile && engine.Some? && touchStartPos.Some? && |touches| == 1) ==> unchanged(Inputs())
    {
      if !isMobile || engine.None? || touchStartPos.None? || |touches| != 1 {
        return;
      }
      var dx := touches[0].0 - touchStartPos.value.0;
      var dy := touches[0].1 - touchStartPos.value.1;
      var v := TouchVector(m, dx, dy);
      engine.value.inputHandler.SetTouchMove(v.0, v.1);
    }

    /** `handleTouchEnd`: on a mobile screen the player stops and the touch is forgotten. */
    method HandleTouchEnd()
      modifies this`touchStartPos, Inputs()`touchMoveX, Inputs()`touchMoveY
      ensures isMobile && engine.Some? ==>
        touchStartPos == None && engine.value.inputHandler.touchMoveX == 0.0 && engine.value.inputHandler.touchMoveY == 0.0
      ensures !(isMobile && engine.Some?) ==> unchanged(this) && unchanged(Inputs())
    {
      if !isMobile || engine.None? {
        return;
      }
      engine.value.inputHandler.SetTouchMove(0.0, 0.0);
      touchStartPos := None;
    }
  }
}
