// An explosion fragment: ballistic motion under a fixed gravity and a fixed
// lifetime of sixty ticks.

module Particles {

  const SIZE: int := 4
  const MAX_LIFETIME: int := 60
  const GRAVITY: real := 0.2

  datatype Particle = Particle(
    x: real, y: real,
    velocityX: real, velocityY: real,
    lifetime: int,
    r: int, g: int, b: int,
    active: bool)

  function NewParticle(startX: real, startY: real, velX: real, velY: real, red: int, green: int, blue: int): (p: Particle)
    ensures p.active && p.lifetime == 0
    ensures p.x == startX && p.y == startY && p.velocityX == velX && p.velocityY == velY
    ensures p.r == red && p.g == green && p.b == blue
  {
    Particle(startX, startY, velX, velY, 0, red, green, blue, true)
  }

  predicate IsActive(p: Particle) { p.active }

  /** One tick. The active flag is not consulted: an expired particle keeps
      moving and ageing. */
  function Updated(p: Particle): (q: Particle)
    ensures q.lifetime == p.lifetime + 1
    ensures q.x == p.x + p.velocityX && q.y == p.y + p.velocityY
    ensures q.r == p.r && q.g == p.g && q.b == p.b
    ensures q.velocityX == p.velocityX && q.velocityY == p.velocityY + GRAVITY
    ensures q.active ==> p.active
    ensures q.active <==> p.active && q.lifetime < MAX_LIFETIME
  {
    var moved := p.(x := p.x + p.velocityX, y := p.y + p.velocityY);
    var fallen := moved.(velocityY := moved.velocityY + GRAVITY);
    var aged := fallen.(lifetime := fallen.lifetime + 1);
    if aged.lifetime >= MAX_LIFETIME then aged.(active := false) else aged
  }

  /** The particle after n ticks. */
  function UpdatedN(p: Particle, n: nat): Particle
  {
    if n == 0 then p else Updated(UpdatedN(p, n - 1))
  }

  /** After n ticks: lifetime advanced by n, horizontal velocity unchanged,
      vertical velocity grown by 0.2 per tick, and the particle is active
      exactly when it was and every tick left its lifetime below sixty. */
  lemma {:induction false} Ageing(p: Particle, n: nat)
    ensures UpdatedN(p, n).lifetime == p.lifetime + n
    ensures UpdatedN(p, n).velocityX == p.velocityX
    ensures UpdatedN(p, n).velocityY == p.velocityY + GRAVITY * n as real
    ensures UpdatedN(p, n).active <==> p.active && (n == 0 || p.lifetime + n < MAX_LIFETIME)
  {
    if n > 0 {
      Ageing(p, n - 1);
    }
  }

  /** A fresh particle survives 59 ticks and expires on the 60th. */
  lemma FreshParticleLifespan(p: Particle)
    requires p.active && p.lifetime == 0
    ensures UpdatedN(p, 59).active
    ensures !UpdatedN(p, 60).active
  {
    Ageing(p, 59);
    Ageing(p, 60);
  }

  /** Once expired, a particle stays expired. */
  lemma {:induction false} ExpiredStaysExpired(p: Particle, n: nat)
    requires !p.active
    ensures !UpdatedN(p, n).active
  {
    if n > 0 {
      ExpiredStaysExpired(p, n - 1);
    }
  }
}
