/** The aura weapon (src/game/AuraWeapon.ts): a circle around the player that damages
    everything in it every `attackInterval` seconds. */
module AuraWeapons {
  import opened Geometry
  import opened Events
  import opened Seqs
  import opened Enemies
  import opened DamageZones

  class AuraWeapon {
    var damage: real
    var radius: real
    var attackInterval: real
    var lastAttackTime: real

    /** `new AuraWeapon(damage, radius, attackInterval)`. */
    constructor (damage: real, radius: real, attackInterval: real)
      ensures this.damage == damage && this.radius == radius && this.attackInterval == attackInterval
      ensures lastAttackTime == 0.0
    {
      this.damage := damage;
      this.radius := radius;
      this.attackInterval := attackInterval;
      lastAttackTime := 0.0;
    }

    /** Whether this update fires: the accumulator, grown by `dt`, has reached the interval. */
    predicate Fires(dt: real)
      reads this
    {
      lastAttackTime + dt >= attackInterval
    }

    /** `update(dt, playerX, playerY, enemies)`: a firing update resets the accumulator to 0
        (it does not subtract the interval) and strikes every enemy in the circle, dead or
        alive; an update that does not fire touches no enemy. */
    method Update(m: MathLib, dt: real, px: real, py: real, enemies: seq<Enemy>, log: EventLog)
      requires m.Valid() && Distinct(enemies)
      modifies this`lastAttackTime, enemies, log`hits, log`bossDefeats
      ensures lastAttackTime == if old(Fires(dt)) then 0.0 else old(lastAttackTime) + dt
      ensures !old(Fires(dt)) ==> unchanged(enemies) && log.hits == old(log.hits) && log.bossDefeats == old(log.bossDefeats)
      ensures old(Fires(dt)) ==>
        && (forall k :: 0 <= k < |enemies| ==> enemies[k].View() == Struck(m, Zone(px, py, radius, false), old(enemies[k].View()), damage))
        && log.hits == old(log.hits) + ZoneHits(m, Zone(px, py, radius, false), old(Views(enemies)), damage)
        && log.bossDefeats == old(log.bossDefeats) + ZoneDefeats(m, Zone(px, py, radius, false), old(Views(enemies)), damage)
    {
      var elapsed := lastAttackTime + dt;
      if elapsed >= attackInterval {
        DamageZone(m, Zone(px, py, radius, false), damage, enemies, log);
        lastAttackTime := 0.0;
      } else {
        lastAttackTime := elapsed;
      }
    }
  }
}
