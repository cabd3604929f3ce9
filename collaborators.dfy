/** Classes the simulation calls into whose source is not part of this model. Each keeps only
    the surface the simulation uses: the player's position, size, magnet radius and liveness,
    and a record of the damage, gold and experience handed to it. */
module Collaborators {
  import opened Geometry

  class Player {
    var x: real
    var y: real
    var size: real
    var baseMagnetRadius: real
    /** The player's own health rule, which is not part of this model: whether the player is
        still alive after the damage taken so far. Nothing is assumed about it, so no damage
        is known to be harmless or fatal. */
    const survives: seq<real> -> bool
    /** Every `takeDamage(amount)` call, in order. */
    var damageTaken: seq<real>
    /** Every `gainGold(amount)` call, in order. */
    var goldGained: seq<int>
    /** Every `gainExperience(amount)` call, in order. */
    var experienceGained: seq<int>

    constructor (x: real, y: real, size: real, baseMagnetRadius: real, survives: seq<real> -> bool)
      ensures this.x == x && this.y == y && this.size == size && this.baseMagnetRadius == baseMagnetRadius
      ensures this.survives == survives
      ensures damageTaken == [] && goldGained == [] && experienceGained == []
    {
      this.x := x;
      this.y := y;
      this.size := size;
      this.baseMagnetRadius := baseMagnetRadius;
      this.survives := survives;
      damageTaken := [];
      goldGained := [];
      experienceGained := [];
    }

    /** `isAlive()`, decided by the player's health rule from the damage taken. */
    predicate IsAlive()
      reads this
    {
      survives(damageTaken)
    }

    method TakeDamage(amount: real)
      modifies this`damageTaken
      ensures damageTaken == old(damageTaken) + [amount]
    {
      damageTaken := damageTaken + [amount];
    }

    method GainGold(amount: int)
      modifies this`goldGained
      ensures goldGained == old(goldGained) + [amount]
    {
      goldGained := goldGained + [amount];
    }

    method GainExperience(amount: int)
      modifies this`experienceGained
      ensures experienceGained == old(experienceGained) + [amount]
    {
      experienceGained := experienceGained + [amount];
    }

    /** The player's circle test against another sized circle, read as the same
        centre-distance rule every entity of the game uses. */
    predicate CollidesWith(m: MathLib, ox: real, oy: real, osize: real)
      requires m.Valid()
      reads this
    {
      CirclesOverlap(m, x, y, size / 2.0, ox, oy, osize / 2.0)
    }
  }

  class Vendor {
    constructor () { }
  }

  class ProjectileWeapon {
    constructor () { }
  }

  class ExplosionAbility {
    constructor () { }
  }

  class ShieldAbility {
    constructor () { }
  }

  class HealAbility {
    constructor () { }
  }

  datatype Corner = TopLeft | TopRight | BottomLeft | BottomRight

  /** The boss warning overlay: only its constructor arguments are used here. */
  class BossWarning {
    const canvasWidth: real
    const canvasHeight: real
    const corner: Corner
    const duration: real

    constructor (canvasWidth: real, canvasHeight: real, corner: Corner, duration: real)
      ensures this.canvasWidth == canvasWidth && this.canvasHeight == canvasHeight
      ensures this.corner == corner && this.duration == duration
    {
      this.canvasWidth := canvasWidth;
      this.canvasHeight := canvasHeight;
      this.corner := corner;
      this.duration := duration;
    }
  }
}
