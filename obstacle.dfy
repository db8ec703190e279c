// A scrolling obstacle: drifts left at a fixed speed; the moving-vertical
// variant bounces between two fixed heights; the rotating variant moves like
// a static barrier (its rotation is visual only).

module Obstacles {
  import opened CollisionDetector

  datatype ObstacleType = StaticBarrier | MovingVertical | Rotating

  /** The underlying value of each enumerator, in declaration order. */
  function Ordinal(k: ObstacleType): nat
  {
    match k
    case StaticBarrier => 0
    case MovingVertical => 1
    case Rotating => 2
  }

  const VELOCITY_X: real := -3.0
  const BOUNCE_SPEED: real := 2.0
  /** The moved y at or beyond which a moving-vertical obstacle turns round. */
  const UPPER_BOUND: real := 100.0
  const LOWER_BOUND: real := 600.0
  const TIME_STEP: real := 0.05

  datatype Obstacle = Obstacle(
    x: real, y: real, startY: real,
    width: int, height: int,
    active: bool, kind: ObstacleType,
    timeAlive: real, velocityY: real)

  function NewObstacle(startX: real, startY: real, w: int, h: int, kind: ObstacleType): (o: Obstacle)
    ensures o.active && o.kind == kind && o.width == w && o.height == h
    ensures o.x == startX && o.y == startY && o.startY == startY && o.timeAlive == 0.0
    ensures o.velocityY == if kind == MovingVertical then BOUNCE_SPEED else 0.0
  {
    var o := Obstacle(startX, startY, startY, w, h, true, kind, 0.0, 0.0);
    if kind == MovingVertical then o.(velocityY := BOUNCE_SPEED) else o
  }

  predicate IsActive(o: Obstacle) { o.active }

  function Updated(o: Obstacle): (r: Obstacle)
    ensures !o.active ==> r == o
    ensures r.active ==> o.active
    ensures o.active ==> r.x == o.x + VELOCITY_X && r.timeAlive == o.timeAlive + TIME_STEP
    ensures r.width == o.width && r.height == o.height && r.kind == o.kind && r.startY == o.startY
    ensures o.active ==> (r.active <==> r.x >= -o.width as real)
    ensures o.kind != MovingVertical ==> r.y == o.y && r.velocityY == o.velocityY
    ensures o.active && o.kind == MovingVertical ==>
      r.y == o.y + o.velocityY &&
      (r.y <= UPPER_BOUND || r.y >= LOWER_BOUND ==> r.velocityY == -o.velocityY) &&
      (UPPER_BOUND < r.y < LOWER_BOUND ==> r.velocityY == o.velocityY)
  {
    if !o.active then o
    else
      var drifted := o.(timeAlive := o.timeAlive + TIME_STEP, x := o.x + VELOCITY_X);
      var moved :=
        match o.kind
        case StaticBarrier => drifted
        case MovingVertical =>
          var shifted := drifted.(y := drifted.y + drifted.velocityY);
          if shifted.y <= UPPER_BOUND || shifted.y >= LOWER_BOUND
          then shifted.(velocityY := -shifted.velocityY)
          else shifted
        case Rotating => drifted;
      if moved.x < -moved.width as real then moved.(active := false) else moved
  }

  /** getBounds: each entity class has its own, over its own size; the
      position is truncated like the int casts. */
  function Bounds(o: Obstacle): (r: Rect)
    ensures r.w == o.width && r.h == o.height
    ensures TruncatedFrom(r.x, o.x) && TruncatedFrom(r.y, o.y)
  {
    Rect(Trunc(o.x), Trunc(o.y), o.width, o.height)
  }

  /** The state a moving-vertical obstacle keeps: speed +-2, y within
      [98, 602], heading down (+2) when above 100 and up (-2) when below 600. */
  ghost predicate InBand(o: Obstacle)
  {
    o.kind == MovingVertical ==>
      (o.velocityY == BOUNCE_SPEED || o.velocityY == -BOUNCE_SPEED) &&
      UPPER_BOUND - BOUNCE_SPEED <= o.y <= LOWER_BOUND + BOUNCE_SPEED &&
      (o.y < UPPER_BOUND ==> o.velocityY == BOUNCE_SPEED) &&
      (o.y > LOWER_BOUND ==> o.velocityY == -BOUNCE_SPEED)
  }

  /** An obstacle spawned between the bounds starts in the band... */
  lemma SpawnedInBand(startX: real, startY: real, w: int, h: int, kind: ObstacleType)
    requires UPPER_BOUND <= startY <= LOWER_BOUND
    ensures InBand(NewObstacle(startX, startY, w, h, kind))
  {
  }

  /** ...and every tick keeps it there. */
  lemma UpdateKeepsBand(o: Obstacle)
    requires InBand(o)
    ensures InBand(Updated(o))
  {
  }
}
