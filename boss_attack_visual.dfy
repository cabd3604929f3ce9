/** The expanding circle that marks a boss's special attack (src/game/BossAttackVisual.ts). */
module BossAttackVisuals {

  const DefaultDuration: real := 0.5
  const DefaultColor: string := "red"

  class BossAttackVisual {
    const x: real
    const y: real
    const radius: real
    const duration: real
    var currentDuration: real
    const color: string
    /** The culling size, twice the radius. */
    const size: real

    /** `new BossAttackVisual(x, y, radius, duration = 0.5, color = 'red')`. */
    constructor (x: real, y: real, radius: real, duration: real, color: string)
      ensures this.x == x && this.y == y && this.radius == radius && this.duration == duration
      ensures this.color == color && currentDuration == 0.0 && size == 2.0 * radius
    {
      this.x := x;
      this.y := y;
      this.radius := radius;
      this.duration := duration;
      currentDuration := 0.0;
      this.color := color;
      size := radius * 2.0;
    }

    /** `update(dt)`: ages the visual and reports whether it is still showing; position and
        radius are constants. */
    method Update(dt: real) returns (alive: bool)
      modifies this`currentDuration
      ensures currentDuration == old(currentDuration) + dt
      ensures alive <==> currentDuration < duration
    {
      currentDuration := currentDuration + dt;
      alive := currentDuration < duration;
    }
  }
}
