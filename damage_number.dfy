/** The floating damage number (src/game/DamageNumber.ts): it drifts vertically and fades
    out linearly over its lifetime. */
module DamageNumbers {

  /** The constructor's defaults. */
  const DefaultColor: string := "white"
  const DefaultLifetime: real := 1.0
  const DefaultVelocityY: real := -50.0

  /** The opacity after `elapsed` seconds of a number that lives `lifetime` seconds. */
  function Opacity(elapsed: real, lifetime: real): real
    requires lifetime != 0.0
  {
    1.0 - elapsed / lifetime
  }

  /** The height after drifting for `dt` seconds at `velocityY`. */
  function Drift(y: real, velocityY: real, dt: real): real {
    y + velocityY * dt
  }

  /** With a positive lifetime the number is still alive exactly while it is visible, and
      its opacity never exceeds 1 once time has started running. */
  lemma {:induction false} AliveIffVisible(elapsed: real, lifetime: real)
    requires 0.0 < lifetime
    ensures elapsed < lifetime <==> Opacity(elapsed, lifetime) > 0.0
    ensures 0.0 <= elapsed ==> Opacity(elapsed, lifetime) <= 1.0
  {
    if elapsed < lifetime {
      assert elapsed / lifetime < 1.0;
    } else {
      assert elapsed / lifetime >= 1.0;
    }
    if 0.0 <= elapsed {
      assert 0.0 <= elapsed / lifetime;
    }
  }

  class DamageNumber {
    const x: real
    var y: real
    const value: real
    const color: string
    const lifetime: real
    var currentLifetime: real
    const velocityY: real
    var alpha: real

    /** The opacity is always the linear fade of the time lived so far. */
    ghost predicate Valid()
      reads this
    {
      lifetime != 0.0 && alpha == Opacity(currentLifetime, lifetime)
    }

    /** `new DamageNumber(x, y, value, color = 'white', lifetime = 1.0, velocityY = -50)`. */
    constructor (x: real, y: real, value: real, color: string, lifetime: real, velocityY: real)
      requires lifetime != 0.0
      ensures Valid()
      ensures this.x == x && this.y == y && this.value == value && this.color == color
      ensures this.lifetime == lifetime && this.velocityY == velocityY
      ensures currentLifetime == 0.0 && alpha == 1.0
    {
      this.x := x;
      this.y := y;
      this.value := value;
      this.color := color;
      this.lifetime := lifetime;
      currentLifetime := 0.0;
      this.velocityY := velocityY;
      alpha := 1.0;
    }

    /** `update(dt)`: ages the number, moves it by `velocityY * dt` and reports whether it
        is still alive. */
    method Update(dt: real) returns (alive: bool)
      requires lifetime != 0.0
      modifies this`currentLifetime, this`y, this`alpha
      ensures Valid()
      ensures currentLifetime == old(currentLifetime) + dt
      ensures y == Drift(old(y), velocityY, dt)
      ensures alive <==> currentLifetime < lifetime
    {
      currentLifetime := currentLifetime + dt;
      y := y + velocityY * dt;
      alpha := 1.0 - currentLifetime / lifetime;
      alive := currentLifetime < lifetime;
    }
  }
}
