/** The cooldown counters of the laser beam (src/game/LaserBeamWeapon.ts) and of the time-slow
    ability (src/game/TimeSlowAbility.ts): both count down by `dt` per update while positive
    and are ready again once they reach zero. */
module Timers {

  /** The cooldown counts down only while it is positive. */
  function Cooled(c: real, dt: real): real {
    if c > 0.0 then c - dt else c
  }

  /** The cooldown after `n` updates of `dt` each. */
  function CooledFor(c: real, dt: real, n: nat): real
    decreases n
  {
    if n == 0 then c else CooledFor(Cooled(c, dt), dt, n - 1)
  }

  /** With positive steps, a cooldown is over once the updates since the trigger add up
      to its starting value, and it never cools below `-dt`. */
  lemma {:induction false} ReadyAfter(c: real, dt: real, n: nat)
    requires 0.0 < dt
    ensures (n as real) * dt >= c ==> CooledFor(c, dt, n) <= 0.0
    ensures -dt < c ==> -dt < CooledFor(c, dt, n)
    decreases n
  {
    if n > 0 {
      ReadyAfter(Cooled(c, dt), dt, n - 1);
      if c > 0.0 {
        assert ((n - 1) as real) * dt == (n as real) * dt - dt;
      } else {
        assert CooledFor(c, dt, n - 1) == c by { StaysCool(c, dt, n - 1); }
      }
    }
  }

  /** A cooldown that reached zero stays where it is. */
  lemma {:induction false} StaysCool(c: real, dt: real, n: nat)
    requires c <= 0.0
    ensures CooledFor(c, dt, n) == c
    decreases n
  {
    if n > 0 {
      StaysCool(c, dt, n - 1);
    }
  }
}
