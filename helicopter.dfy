// The player's craft: tap-impulse thrust against gravity, clamped speed and
// screen position, a shooting cooldown, and clamped health.

module Helicopters {
  import opened CollisionDetector
  import Bullets

  const GRAVITY: real := 0.5
  const THRUST: real := -1.2
  const MAX_FALL_SPEED: real := 10.0
  const MAX_RISE_SPEED: real := -8.0
  const SHOOT_DELAY: int := 15
  const WIDTH: int := 50
  const HEIGHT: int := 30
  const MAX_HEALTH: int := 100
  /** The craft's y is kept within [0, BOTTOM]; the play area is 720 high. */
  const BOTTOM: real := 690.0

  /** Everything about the craft that the simulation reads or writes. */
  datatype PlayerState = PlayerState(
    x: real, y: real, velocityY: real,
    health: int, isAlive: bool, shootCooldown: int)

  /** What the craft keeps true between operations. */
  ghost predicate Sound(s: PlayerState)
  {
    0 <= s.health <= MAX_HEALTH && (s.isAlive ==> s.health > 0) &&
    0 <= s.shootCooldown <= SHOOT_DELAY
  }

  /** The craft as the constructor and reset leave it. */
  function Spawned(startX: real, startY: real): (s: PlayerState)
    ensures Sound(s) && s.isAlive && s.health == MAX_HEALTH
    ensures s.x == startX && s.y == startY && s.velocityY == 0.0 && s.shootCooldown == 0
  {
    PlayerState(startX, startY, 0.0, MAX_HEALTH, true, 0)
  }

  /** std::max(MAX_RISE_SPEED, std::min(MAX_FALL_SPEED, v)). */
  function ClampSpeed(v: real): (c: real)
    ensures MAX_RISE_SPEED <= c <= MAX_FALL_SPEED
    ensures MAX_RISE_SPEED <= v <= MAX_FALL_SPEED ==> c == v
  {
    var capped := if MAX_FALL_SPEED < v then MAX_FALL_SPEED else v;
    if capped < MAX_RISE_SPEED then MAX_RISE_SPEED else capped
  }

  /** The outcome of one update: the new state and the bullets it fired. */
  datatype Flight = Flight(after: PlayerState, shots: seq<Bullets.Bullet>)

  /** One update with the given thrust and shoot keys. */
  function Fly(s: PlayerState, thrust: bool, shoot: bool): (r: Flight)
    ensures !s.isAlive ==> r == Flight(s, [])
    ensures s.isAlive ==> r.after.x == s.x && r.after.health == s.health && r.after.isAlive
    ensures s.isAlive ==> MAX_RISE_SPEED <= r.after.velocityY <= MAX_FALL_SPEED
    ensures s.isAlive ==> 0.0 <= r.after.y <= BOTTOM
    ensures s.isAlive && thrust ==> r.after.velocityY in {THRUST + GRAVITY, 0.0}
    ensures s.isAlive && !thrust ==> r.after.velocityY in {ClampSpeed(s.velocityY + GRAVITY), 0.0}
    ensures s.isAlive ==>
      r.after.y == s.y + r.after.velocityY ||
      (r.after.velocityY == 0.0 && (r.after.y == 0.0 || r.after.y == BOTTOM))
    // the move by the clamped speed, then the screen clamp, which stops the craft
    ensures var v := ClampSpeed((if thrust then THRUST else s.velocityY) + GRAVITY);
      s.isAlive ==>
        (0.0 <= s.y + v <= BOTTOM ==> r.after.y == s.y + v && r.after.velocityY == v) &&
        (s.y + v < 0.0 ==> r.after.y == 0.0 && r.after.velocityY == 0.0) &&
        (s.y + v > BOTTOM ==> r.after.y == BOTTOM && r.after.velocityY == 0.0)
    // the bullet leaves from the moved position before the screen clamp
    ensures |r.shots| == 1 ==>
      r.shots[0].y == s.y + ClampSpeed((if thrust then THRUST else s.velocityY) + GRAVITY) + (HEIGHT / 2) as real
    ensures |r.shots| <= 1
    ensures |r.shots| == 1 <==> s.isAlive && shoot && 0 <= s.shootCooldown <= 1
    ensures |r.shots| == 1 ==>
      r.after.shootCooldown == SHOOT_DELAY && r.shots[0].active && r.shots[0].x == s.x + WIDTH as real
    ensures s.isAlive && |r.shots| == 0 ==>
      r.after.shootCooldown == if s.shootCooldown > 0 then s.shootCooldown - 1 else s.shootCooldown
    ensures Sound(s) ==> Sound(r.after)
  {
    if !s.isAlive then Flight(s, [])
    else
      var v := ClampSpeed((if thrust then THRUST else s.velocityY) + GRAVITY);
      var y := s.y + v;
      var cooldown := if s.shootCooldown > 0 then s.shootCooldown - 1 else s.shootCooldown;
      var fire := shoot && cooldown == 0;
      // the bullet leaves from the position before the screen clamp
      var shots := if fire then [Bullets.NewBullet(s.x + WIDTH as real, y + (HEIGHT / 2) as real)] else [];
      var cooldown' := if fire then SHOOT_DELAY else cooldown;
      var (y1, v1) := if y < 0.0 then (0.0, 0.0) else (y, v);
      var (y2, v2) := if y1 > BOTTOM then (BOTTOM, 0.0) else (y1, v1);
      Flight(s.(y := y2, velocityY := v2, shootCooldown := cooldown'), shots)
  }

  /** Health drops by the damage and is clamped at zero, where the craft dies. */
  function Damaged(s: PlayerState, damage: int): (r: PlayerState)
    ensures r.health >= 0
    ensures s.health - damage <= 0 ==> r.health == 0 && !r.isAlive
    ensures s.health - damage > 0 ==> r.health == s.health - damage && r.isAlive == s.isAlive
    ensures r.x == s.x && r.y == s.y && r.velocityY == s.velocityY && r.shootCooldown == s.shootCooldown
    ensures Sound(s) && damage >= 0 ==> Sound(r)
  {
    var hit := s.(health := s.health - damage);
    if hit.health <= 0 then hit.(health := 0, isAlive := false) else hit
  }

  /** getBounds: each entity class has its own, over its own size; the
      position is truncated like the int casts. */
  function Bounds(s: PlayerState): (r: Rect)
    ensures r.w == WIDTH && r.h == HEIGHT
    ensures TruncatedFrom(r.x, s.x) && TruncatedFrom(r.y, s.y)
  {
    Rect(Trunc(s.x), Trunc(s.y), WIDTH, HEIGHT)
  }

  /** Keys held during one update. */
  datatype Keys = Keys(thrust: bool, shoot: bool)

  /** The state after a sequence of updates. */
  function FlyAll(s: PlayerState, keys: seq<Keys>): PlayerState
    decreases |keys|
  {
    if keys == [] then s else FlyAll(Fly(s, keys[0].thrust, keys[0].shoot).after, keys[1..])
  }

  /** The number of bullets fired over a sequence of updates. */
  function ShotsFired(s: PlayerState, keys: seq<Keys>): nat
    decreases |keys|
  {
    if keys == [] then 0
    else
      var f := Fly(s, keys[0].thrust, keys[0].shoot);
      |f.shots| + ShotsFired(f.after, keys[1..])
  }

  /** Fewer updates than the remaining cooldown fire nothing, whatever keys
      are held. */
  lemma {:induction false} NoShotWhileCooling(s: PlayerState, keys: seq<Keys>)
    requires |keys| < s.shootCooldown
    ensures ShotsFired(s, keys) == 0
    decreases |keys|
  {
    if keys != [] {
      var f := Fly(s, keys[0].thrust, keys[0].shoot);
      NoShotWhileCooling(f.after, keys[1..]);
    }
  }

  /** After a shot the next 14 updates fire nothing: two bullets are at least
      15 updates apart. */
  lemma ShotsFifteenApart(s: PlayerState, shoot: Keys, keys: seq<Keys>)
    requires |Fly(s, shoot.thrust, shoot.shoot).shots| == 1
    requires |keys| < SHOOT_DELAY
    ensures ShotsFired(Fly(s, shoot.thrust, shoot.shoot).after, keys) == 0
  {
    NoShotWhileCooling(Fly(s, shoot.thrust, shoot.shoot).after, keys);
  }

  /** Holding the shoot key from a ready state fires on the 1st and 16th
      update and on none in between. */
  lemma {:induction false} HeldShootKeyRate(s: PlayerState)
    requires s.isAlive && s.shootCooldown == 0
    ensures ShotsFired(s, seq(16, _ => Keys(false, true))) == 2
  {
    var keys := seq(16, _ => Keys(false, true));
    var f := Fly(s, false, true);
    var middle := keys[1..15];
    CoolDown(f.after, middle);
    var g := FlyAll(f.after, middle);
    assert keys[1..] == middle + [Keys(false, true)];
    ShotsSplit(f.after, middle, [Keys(false, true)]);
    assert |Fly(g, false, true).shots| == 1;
  }

  /** Over n < cooldown updates a living craft stays alive and its cooldown
      drops by exactly n. */
  lemma {:induction false} CoolDown(s: PlayerState, keys: seq<Keys>)
    requires s.isAlive && |keys| < s.shootCooldown
    ensures FlyAll(s, keys).isAlive && FlyAll(s, keys).shootCooldown == s.shootCooldown - |keys|
    ensures ShotsFired(s, keys) == 0
    decreases |keys|
  {
    if keys != [] {
      var f := Fly(s, keys[0].thrust, keys[0].shoot);
      CoolDown(f.after, keys[1..]);
    }
  }

  lemma {:induction false} ShotsSplit(s: PlayerState, a: seq<Keys>, b: seq<Keys>)
    ensures ShotsFired(s, a + b) == ShotsFired(s, a) + ShotsFired(FlyAll(s, a), b)
    ensures FlyAll(s, a + b) == FlyAll(FlyAll(s, a), b)
    decreases |a|
  {
    if a != [] {
      var f := Fly(s, a[0].thrust, a[0].shoot);
      assert (a + b)[1..] == a[1..] + b;
      ShotsSplit(f.after, a[1..], b);
    } else {
      assert a + b == b;
    }
  }

  /** The player's craft, updated in place. */
  class Helicopter {
    var x: real
    var y: real
    var velocityY: real
    var health: int
    var isAlive: bool
    var shootCooldown: int

    function State(): PlayerState
      reads this
    {
      PlayerState(x, y, velocityY, health, isAlive, shootCooldown)
    }

    ghost predicate Valid()
      reads this
    {
      Sound(State())
    }

    constructor (startX: real, startY: real)
      ensures Valid() && State() == Spawned(startX, startY)
    {
      x, y, velocityY := startX, startY, 0.0;
      health, isAlive, shootCooldown := MAX_HEALTH, true, 0;
    }

    /** One frame of flight; a fired bullet is appended to bullets. */
    method Update(thrust: bool, shoot: bool, bullets: seq<Bullets.Bullet>) returns (bullets': seq<Bullets.Bullet>)
      modifies this
      ensures State() == Fly(old(State()), thrust, shoot).after
      ensures bullets' == bullets + Fly(old(State()), thrust, shoot).shots
      ensures old(Valid()) ==> Valid()
    {
      bullets' := bullets;
      if !isAlive {
        return;
      }
      if thrust {
        velocityY := THRUST;
      }
      velocityY := velocityY + GRAVITY;
      velocityY := ClampSpeed(velocityY);
      y := y + velocityY;
      if shootCooldown > 0 {
        shootCooldown := shootCooldown - 1;
      }
      if shoot && shootCooldown == 0 {
        bullets' := bullets' + [Bullets.NewBullet(x + WIDTH as real, y + (HEIGHT / 2) as real)];
        shootCooldown := SHOOT_DELAY;
      }
      if y < 0.0 {
        y := 0.0;
        velocityY := 0.0;
      }
      if y > BOTTOM {
        y := BOTTOM;
        velocityY := 0.0;
      }
    }

    method TakeDamage(damage: int)
      modifies this
      ensures State() == Damaged(old(State()), damage)
      ensures old(Valid()) && damage >= 0 ==> Valid()
    {
      health := health - damage;
      if health <= 0 {
        health := 0;
        isAlive := false;
      }
    }

    method Reset(startX: real, startY: real)
      modifies this
      ensures Valid() && State() == Spawned(startX, startY)
    {
      x, y, velocityY := startX, startY, 0.0;
      health, isAlive, shootCooldown := MAX_HEALTH, true, 0;
    }

    function GetBounds(): (r: Rect)
      reads this
      ensures r == Bounds(State())
    {
      Rect(Trunc(x), Trunc(y), WIDTH, HEIGHT)
    }
  }
}
