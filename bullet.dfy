// A projectile fired by the player: constant rightward speed, retired past a
// fixed x threshold.

module Bullets {
  import opened CollisionDetector

  const SPEED: real := 12.0
  const WIDTH: int := 10
  const HEIGHT: int := 4
  /** A bullet whose x passes this value has left the screen. */
  const LIMIT_X: real := 1400.0

  datatype Bullet = Bullet(x: real, y: real, active: bool)

  function NewBullet(startX: real, startY: real): (b: Bullet)
    ensures b.active && b.x == startX && b.y == startY
  {
    Bullet(startX, startY, true)
  }

  predicate IsActive(b: Bullet) { b.active }

  /** One tick. The active flag is not consulted: an inactive bullet moves too. */
  function Updated(b: Bullet): (r: Bullet)
    ensures r.x == b.x + SPEED && r.y == b.y
    ensures r.active ==> b.active
    ensures r.x > LIMIT_X ==> !r.active
    ensures b.active && r.x <= LIMIT_X ==> r.active
  {
    var moved := b.(x := b.x + SPEED);
    if moved.x > LIMIT_X then moved.(active := false) else moved
  }

  /** deactivate: each entity class has its own; only the flag changes. */
  function Deactivated(b: Bullet): (r: Bullet)
    ensures !r.active && r.x == b.x && r.y == b.y
  {
    b.(active := false)
  }

  /** getBounds: each entity class has its own, over its own size; the
      position is truncated like the int casts. */
  function Bounds(b: Bullet): (r: Rect)
    ensures r.w == WIDTH && r.h == HEIGHT
    ensures TruncatedFrom(r.x, b.x) && TruncatedFrom(r.y, b.y)
  {
    Rect(Trunc(b.x), Trunc(b.y), WIDTH, HEIGHT)
  }

  /** The bullet after n ticks. */
  function UpdatedN(b: Bullet, n: nat): Bullet
  {
    if n == 0 then b else Updated(UpdatedN(b, n - 1))
  }

  /** After n ticks a bullet has moved exactly 12n to the right, and it is
      still active exactly when it was and, if it moved at all, has not yet passed
      the threshold. */
  lemma {:induction false} Flight(b: Bullet, n: nat)
    ensures UpdatedN(b, n).x == b.x + SPEED * n as real
    ensures UpdatedN(b, n).y == b.y
    ensures UpdatedN(b, n).active <==> b.active && (n == 0 || b.x + SPEED * n as real <= LIMIT_X)
  {
    if n > 0 {
      Flight(b, n - 1);
    }
  }
}
