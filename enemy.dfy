// A hostile helicopter: drifts left at a fixed speed and moves vertically
// according to its behaviour variant; retired when destroyed or off screen.

module Enemies {
  import opened CollisionDetector
  import opened Sine

  datatype EnemyType = Stationary | SineWave | Charging

  /** The underlying value of each enumerator, in declaration order. */
  function Ordinal(k: EnemyType): nat
  {
    match k
    case Stationary => 0
    case SineWave => 1
    case Charging => 2
  }

  const VELOCITY_X: real := -2.0
  const WIDTH: int := 40
  const HEIGHT: int := 30
  const INITIAL_HEALTH: int := 30
  /** timeAlive grows by this much every active tick. */
  const TIME_STEP: real := 0.1
  /** Vertical amplitude of the sine-wave variant. */
  const AMPLITUDE: real := 50.0
  /** Vertical step of the charging variant, and its dead zone around the player. */
  const CHASE_STEP: real := 1.5
  const DEAD_ZONE: real := 10.0

  datatype Enemy = Enemy(
    x: real, y: real, startY: real,
    health: int, active: bool,
    kind: EnemyType, timeAlive: real)

  function NewEnemy(startX: real, startY: real, kind: EnemyType): (e: Enemy)
    ensures e.active && e.health == INITIAL_HEALTH && e.kind == kind
    ensures e.x == startX && e.y == startY && e.startY == startY && e.timeAlive == 0.0
  {
    Enemy(startX, startY, startY, INITIAL_HEALTH, true, kind, 0.0)
  }

  predicate IsActive(e: Enemy) { e.active }

  /** Vertical position after a tick, per variant. */
  function Steered(e: Enemy, playerY: real, sin: real -> real, time: real): (y: real)
    ensures e.kind == Stationary ==> y == e.y
    ensures e.kind == SineWave && SineBounded(sin) ==> e.startY - AMPLITUDE <= y <= e.startY + AMPLITUDE
    ensures e.kind == Charging ==> y == e.y || y == e.y + CHASE_STEP || y == e.y - CHASE_STEP
    ensures e.kind == Charging ==> (y > e.y <==> e.y < playerY - DEAD_ZONE) && (y < e.y <==> e.y > playerY + DEAD_ZONE)
  {
    match e.kind
    case Stationary => e.y
    case SineWave => e.startY + sin(time) * AMPLITUDE
    case Charging =>
      if e.y < playerY - DEAD_ZONE then e.y + CHASE_STEP
      else if e.y > playerY + DEAD_ZONE then e.y - CHASE_STEP
      else e.y
  }

  /** One tick toward a player at (playerX, playerY); playerX is not used by
      any variant. */
  function Updated(e: Enemy, playerX: real, playerY: real, sin: real -> real): (r: Enemy)
    ensures !e.active ==> r == e
    ensures r.active ==> e.active
    ensures e.active ==> r.x == e.x + VELOCITY_X && r.timeAlive == e.timeAlive + TIME_STEP
    ensures r.health == e.health && r.kind == e.kind && r.startY == e.startY
    ensures e.active ==> (r.active <==> r.x >= -WIDTH as real)
    ensures e.kind == Stationary ==> r.y == e.y
    ensures e.active && e.kind == Charging ==>
      (e.y < playerY - DEAD_ZONE ==> r.y == e.y + CHASE_STEP) &&
      (e.y > playerY + DEAD_ZONE ==> r.y == e.y - CHASE_STEP) &&
      (playerY - DEAD_ZONE <= e.y <= playerY + DEAD_ZONE ==> r.y == e.y)
    ensures e.active && e.kind == SineWave ==> r.y == e.startY + sin(e.timeAlive + TIME_STEP) * AMPLITUDE
    ensures e.active && e.kind == SineWave && SineBounded(sin) ==>
      e.startY - AMPLITUDE <= r.y <= e.startY + AMPLITUDE
  {
    if !e.active then e
    else
      var time := e.timeAlive + TIME_STEP;
      var moved := e.(timeAlive := time, x := e.x + VELOCITY_X, y := Steered(e, playerY, sin, time));
      if moved.x < -WIDTH as real then moved.(active := false) else moved
  }

  /** Health drops by the full damage, without clamping; the enemy retires
      as soon as its health is no longer positive. */
  function Damaged(e: Enemy, damage: int): (r: Enemy)
    ensures r.health == e.health - damage
    ensures r.active <==> e.active && r.health > 0
    ensures r.x == e.x && r.y == e.y && r.kind == e.kind
    ensures r.startY == e.startY && r.timeAlive == e.timeAlive
  {
    var hit := e.(health := e.health - damage);
    if hit.health <= 0 then hit.(active := false) else hit
  }

  /** deactivate: each entity class has its own; only the flag changes. */
  function Deactivated(e: Enemy): (r: Enemy)
    ensures !r.active && r.x == e.x && r.y == e.y && r.health == e.health
    ensures r.kind == e.kind && r.startY == e.startY && r.timeAlive == e.timeAlive
  {
    e.(active := false)
  }

  /** getBounds: each entity class has its own, over its own size; the
      position is truncated like the int casts. */
  function Bounds(e: Enemy): (r: Rect)
    ensures r.w == WIDTH && r.h == HEIGHT
    ensures TruncatedFrom(r.x, e.x) && TruncatedFrom(r.y, e.y)
  {
    Rect(Trunc(e.x), Trunc(e.y), WIDTH, HEIGHT)
  }

  function Sum(ds: seq<int>): int
  {
    if ds == [] then 0 else Sum(ds[..|ds| - 1]) + ds[|ds| - 1]
  }

  /** The enemy after taking each damage in ds, in order. */
  function DamagedAll(e: Enemy, ds: seq<int>): Enemy
  {
    if ds == [] then e else Damaged(DamagedAll(e, ds[..|ds| - 1]), ds[|ds| - 1])
  }

  /** After at least one hit, health has dropped by the total damage, and an
      enemy whose total damage reached its health is inactive. */
  lemma {:induction false} CumulativeDamage(e: Enemy, ds: seq<int>)
    requires |ds| > 0
    ensures DamagedAll(e, ds).health == e.health - Sum(ds)
    ensures Sum(ds) >= e.health ==> !DamagedAll(e, ds).active
  {
    if |ds| > 1 {
      CumulativeDamage(e, ds[..|ds| - 1]);
    }
  }

  /** A fresh enemy survives one 15-point hit and is destroyed by the second. */
  lemma TwoHitsDestroy(startX: real, startY: real, kind: EnemyType)
    ensures Damaged(NewEnemy(startX, startY, kind), 15).active
    ensures !Damaged(Damaged(NewEnemy(startX, startY, kind), 15), 15).active
  {
  }

  /** Outside the dead zone a charging enemy gets 1.5 closer to the player's y. */
  lemma ChargingClosesIn(e: Enemy, playerX: real, playerY: real, sin: real -> real)
    requires e.active && e.kind == Charging
    requires e.y < playerY - DEAD_ZONE || e.y > playerY + DEAD_ZONE
    ensures var r := Updated(e, playerX, playerY, sin);
      (if r.y <= playerY then playerY - r.y else r.y - playerY) ==
      (if e.y <= playerY then playerY - e.y else e.y - playerY) - CHASE_STEP
  {
  }
}
