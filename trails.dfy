/** The fading trail a projectile and a homing missile leave behind (src/game/Projectile.ts,
    src/game/HomingMissile.ts). Each update pushes the current position as a fresh particle
    and then fades every particle, keeping only the ones still visible. */
module Trails {

  datatype Particle = Particle(x: real, y: real, alpha: real, radius: real)

  /** One update of a particle: alpha drops by `5 * dt`, the radius shrinks by 10%. */
  function Faded(p: Particle, dt: real): Particle {
    p.(alpha := p.alpha - dt * 5.0, radius := p.radius * 0.9)
  }

  /** The filter's test: still opaque and larger than one pixel. */
  predicate Visible(p: Particle) {
    p.alpha > 0.0 && p.radius > 1.0
  }

  /** `trail.filter(p => { fade p; return visible(p); })`. */
  function FadeTrail(ps: seq<Particle>, dt: real): (r: seq<Particle>)
    ensures |r| <= |ps|
    ensures forall p :: p in r ==> Visible(p)
    ensures forall p :: p in r ==> exists i :: 0 <= i < |ps| && p == Faded(ps[i], dt)
    ensures forall i :: 0 <= i < |ps| && Visible(Faded(ps[i], dt)) ==> Faded(ps[i], dt) in r
  {
    if ps == [] then []
    else
      var init := FadeTrail(ps[..|ps| - 1], dt);
      var last := Faded(ps[|ps| - 1], dt);
      assert forall i :: 0 <= i < |ps| - 1 ==> ps[..|ps| - 1][i] == ps[i];
      init + if Visible(last) then [last] else []
  }

  /** One trail update after the carrier moved to `(x, y)`: the new particle starts fully
      opaque at the carrier's radius. */
  function TrailStep(trail: seq<Particle>, x: real, y: real, radius: real, dt: real): seq<Particle> {
    FadeTrail(trail + [Particle(x, y, 1.0, radius)], dt)
  }

  /** Fading distributes over concatenation: every particle fades on its own. */
  lemma {:induction false} FadeTrailAppend(a: seq<Particle>, b: seq<Particle>, dt: real)
    ensures FadeTrail(a + b, dt) == FadeTrail(a, dt) + FadeTrail(b, dt)
    decreases |b|
  {
    if b == [] {
      assert a + b == a;
    } else {
      var b' := b[..|b| - 1];
      assert (a + b)[..|a + b| - 1] == a + b';
      assert (a + b)[|a + b| - 1] == b[|b| - 1];
      FadeTrailAppend(a, b', dt);
    }
  }

  /** An update fades the old particles independently and appends the new one last, which
      survives its first fade exactly when `dt < 0.2` and `0.9 * radius > 1`; so a trail grows
      by at most one particle per update. */
  lemma {:induction false} TrailStepShape(trail: seq<Particle>, x: real, y: real, radius: real, dt: real)
    ensures TrailStep(trail, x, y, radius, dt) ==
      FadeTrail(trail, dt) + if dt < 0.2 && radius * 0.9 > 1.0 then [Particle(x, y, 1.0 - dt * 5.0, radius * 0.9)] else []
    ensures |TrailStep(trail, x, y, radius, dt)| <= |trail| + 1
  {
    FadeTrailAppend(trail, [Particle(x, y, 1.0, radius)], dt);
    assert [Particle(x, y, 1.0, radius)][..0] == [];
  }
}
