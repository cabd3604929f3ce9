/** The explosion (src/game/Explosion.ts): a short-lived circle that damages the living
    enemies inside it once. */
module Explosions {
  import opened Geometry
  import opened Events
  import opened Seqs
  import opened Enemies
  import opened DamageZones

  const DefaultDuration: real := 0.2
  const DefaultColor: string := "orange"

  class Explosion {
    const x: real
    const y: real
    const radius: real
    const damage: real
    const duration: real
    var currentDuration: real
    const color: string
    var hasDealtDamage: bool

    /** `new Explosion(x, y, radius, damage, duration = 0.2, color = 'orange')`. */
    constructor (x: real, y: real, radius: real, damage: real, duration: real, color: string)
      ensures this.x == x && this.y == y && this.radius == radius && this.damage == damage
      ensures this.duration == duration && this.color == color
      ensures currentDuration == 0.0 && !hasDealtDamage
    {
      this.x := x;
      this.y := y;
      this.radius := radius;
      this.damage := damage;
      this.duration := duration;
      currentDuration := 0.0;
      this.color := color;
      hasDealtDamage := false;
    }

    /** `update(dt)`: ages the explosion and reports whether it is still showing. */
    method Update(dt: real) returns (alive: bool)
      modifies this`currentDuration
      ensures currentDuration == old(currentDuration) + dt
      ensures alive <==> currentDuration < duration
    {
      currentDuration := currentDuration + dt;
      alive := currentDuration < duration;
    }

    /** The explosion's area: its own circle, living enemies only. */
    function Area(): Zone
      reads this
    {
      Zone(x, y, radius, true)
    }

    /** `dealDamage(enemies)`: the first call strikes every living enemy in the circle and
        sets the done flag, even when it hit nobody; every later call changes nothing. */
    method DealDamage(m: MathLib, enemies: seq<Enemy>, log: EventLog)
      requires m.Valid() && Distinct(enemies)
      modifies this`hasDealtDamage, enemies, log`hits, log`bossDefeats
      ensures hasDealtDamage
      ensures old(hasDealtDamage) ==> unchanged(enemies) && log.hits == old(log.hits) && log.bossDefeats == old(log.bossDefeats)
      ensures !old(hasDealtDamage) ==>
        && (forall k :: 0 <= k < |enemies| ==> enemies[k].View() == Struck(m, Area(), old(enemies[k].View()), damage))
        && log.hits == old(log.hits) + ZoneHits(m, Area(), old(Views(enemies)), damage)
        && log.bossDefeats == old(log.bossDefeats) + ZoneDefeats(m, Area(), old(Views(enemies)), damage)
    {
      if hasDealtDamage {
        return;
      }
      DamageZone(m, Area(), damage, enemies, log);
      hasDealtDamage := true;
    }
  }
}
