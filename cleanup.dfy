/**
 * Steps 3 and 4 of a tick: projectiles move and are dropped once they are 50
 * units or more outside the playfield; particles move, age and are dropped
 * once their life runs out. Power-ups (step 5) have no per-tick behaviour.
 */
module Cleanup {
  import opened Types
  import opened Seqs

  /** How far outside the playfield a projectile may be and still survive. */
  const Margin: real := 50.0

  /** Strictly inside (-50, width + 50) x (-50, height + 50). */
  predicate OnField(p: Vec, width: real, height: real)
  {
    p.x > -Margin && p.x < width + Margin && p.y > -Margin && p.y < height + Margin
  }

  function MoveProjectile(p: Projectile, dt: real): Projectile
  {
    p.(position := Add(p.position, Scale(p.velocity, dt)))
  }

  function MoveProjectiles(ps: seq<Projectile>, dt: real): (r: seq<Projectile>)
    ensures |r| == |ps| && forall i :: 0 <= i < |ps| ==> r[i] == MoveProjectile(ps[i], dt)
  {
    seq(|ps|, i requires 0 <= i < |ps| => MoveProjectile(ps[i], dt))
  }

  /** The filter's test for projectiles. */
  function KeepProjectile(width: real, height: real): Projectile -> bool
  {
    (p: Projectile) => OnField(p.position, width, height)
  }

  /** `updateProjectiles`: move every projectile, keep those still on the field. */
  function UpdateProjectiles(ps: seq<Projectile>, dt: real, width: real, height: real): (r: seq<Projectile>)
    ensures |r| <= |ps|
    ensures forall q :: q in r ==> OnField(q.position, width, height)
  {
    Filter(MoveProjectiles(ps, dt), KeepProjectile(width, height))
  }

  /** A projectile survives exactly when its moved position is on the field. */
  lemma ProjectileSurvivesIff(ps: seq<Projectile>, dt: real, width: real, height: real, q: Projectile)
    ensures q in UpdateProjectiles(ps, dt, width, height) <==>
              (exists i :: 0 <= i < |ps| && q == MoveProjectile(ps[i], dt)) && OnField(q.position, width, height)
  {
    var moved := MoveProjectiles(ps, dt);
    FilterKeepsExactly(moved, KeepProjectile(width, height), q);
    if q in moved {
      var i :| 0 <= i < |moved| && moved[i] == q;
      assert q == MoveProjectile(ps[i], dt);
    }
  }

  /** Survivors keep their relative order: the step distributes over concatenation. */
  lemma ProjectilesKeepOrder(a: seq<Projectile>, b: seq<Projectile>, dt: real, width: real, height: real)
    ensures UpdateProjectiles(a + b, dt, width, height)
            == UpdateProjectiles(a, dt, width, height) + UpdateProjectiles(b, dt, width, height)
  {
    assert MoveProjectiles(a + b, dt) == MoveProjectiles(a, dt) + MoveProjectiles(b, dt);
    FilterConcat(MoveProjectiles(a, dt), MoveProjectiles(b, dt), KeepProjectile(width, height));
  }

  function AgeParticle(p: Particle, dt: real): Particle
  {
    p.(position := Add(p.position, Scale(p.velocity, dt)), life := p.life - dt)
  }

  function AgeParticles(ps: seq<Particle>, dt: real): (r: seq<Particle>)
    ensures |r| == |ps| && forall i :: 0 <= i < |ps| ==> r[i] == AgeParticle(ps[i], dt)
  {
    seq(|ps|, i requires 0 <= i < |ps| => AgeParticle(ps[i], dt))
  }

  /** The filter's test for particles. */
  function KeepParticle(): Particle -> bool
  {
    (p: Particle) => p.life > 0.0
  }

  /** `updateParticles`: move and age every particle, keep those with life left. */
  function UpdateParticles(ps: seq<Particle>, dt: real): (r: seq<Particle>)
    ensures |r| <= |ps|
    ensures forall q :: q in r ==> q.life > 0.0
  {
    Filter(AgeParticles(ps, dt), KeepParticle())
  }

  /** A particle survives exactly when `life - dt > 0`. */
  lemma ParticleSurvivesIff(ps: seq<Particle>, dt: real, q: Particle)
    ensures q in UpdateParticles(ps, dt) <==>
              (exists i :: 0 <= i < |ps| && q == AgeParticle(ps[i], dt)) && q.life > 0.0
  {
    var aged := AgeParticles(ps, dt);
    FilterKeepsExactly(aged, KeepParticle(), q);
    if q in aged {
      var i :| 0 <= i < |aged| && aged[i] == q;
      assert q == AgeParticle(ps[i], dt);
    }
  }

  /** Surviving particles keep their relative order. */
  lemma ParticlesKeepOrder(a: seq<Particle>, b: seq<Particle>, dt: real)
    ensures UpdateParticles(a + b, dt) == UpdateParticles(a, dt) + UpdateParticles(b, dt)
  {
    assert AgeParticles(a + b, dt) == AgeParticles(a, dt) + AgeParticles(b, dt);
    FilterConcat(AgeParticles(a, dt), AgeParticles(b, dt), KeepParticle());
  }
}
