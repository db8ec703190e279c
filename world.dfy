// The whole simulation state as one value, and the operations of Game that
// are not per-frame phases: drawing from rand(), spawning, explosions, the
// game-over bookkeeping, resetGame and handleEvents.

module Worlds {
  import opened CollisionDetector
  import opened GameFlow
  import opened Compaction
  import Helicopters
  import Terrains
  import Bullets
  import Enemies
  import Obstacles
  import Particles

  const SCREEN_WIDTH: int := 1280
  const SCREEN_HEIGHT: int := 720
  const SCROLL_SPEED: int := 3
  /** Where the craft starts: (100, SCREEN_HEIGHT / 2). */
  const START_X: real := 100.0
  const START_Y: real := 360.0
  /** A spawn happens when the incremented timer exceeds its delay. */
  const ENEMY_SPAWN_DELAY: int := 120
  const OBSTACLE_SPAWN_DELAY: int := 90
  const OBSTACLE_WIDTH: int := 30
  const BULLET_DAMAGE: int := 15
  const RAM_DAMAGE: int := 50
  const CRASH_DAMAGE: int := 100
  const KILL_POINTS: int := 100
  /** Particles per explosion: an enemy shot down, an enemy rammed, a crash. */
  const KILL_BURST: nat := 20
  const RAM_BURST: nat := 15
  const CRASH_BURST: nat := 25
  const DISTANCE_STEP: real := 0.1
  /** rand() calls per explosion particle, per enemy spawn, per obstacle spawn. */
  const DRAWS_PER_PARTICLE: nat := 4
  const DRAWS_PER_ENEMY: nat := 2
  const DRAWS_PER_OBSTACLE: nat := 3

  /** Everything Game keeps. rand is the stream of values rand() returns
      after the terrain reseeds the generator, and randCalls how many of them
      have been used; saved lists the values written by saveHighScore; sin is
      std::sin. */
  datatype World = World(
    running: bool,
    state: GameState,
    player: Helicopters.PlayerState,
    terrain: seq<Terrains.TerrainPoint>,
    terrainSeed: int,
    bullets: seq<Bullets.Bullet>,
    enemies: seq<Enemies.Enemy>,
    obstacles: seq<Obstacles.Obstacle>,
    particles: seq<Particles.Particle>,
    score: int,
    highScore: int,
    distance: real,
    kills: int,
    enemyTimer: int,
    obstacleTimer: int,
    randCalls: nat,
    saved: seq<int>,
    sin: real -> real,
    rand: nat -> nat)

  /** The terrain's height generator for the current seed. */
  function Field(w: World): Terrains.HeightField
  {
    Terrains.HeightField(w.sin, w.terrainSeed, SCREEN_HEIGHT)
  }

  /** What holds between frames and between events. */
  ghost predicate Inv(w: World)
  {
    Helicopters.Sound(w.player) &&
    ((w.state == Playing || w.state == Paused) ==> w.player.isAlive) &&
    0 <= w.enemyTimer <= ENEMY_SPAWN_DELAY && 0 <= w.obstacleTimer <= OBSTACLE_SPAWN_DELAY &&
    Terrains.Covering(w.terrain, SCREEN_WIDTH) &&
    (forall b :: b in w.bullets ==> b.active) &&
    (forall e :: e in w.enemies ==> e.active) &&
    (forall o :: o in w.obstacles ==> o.active && Obstacles.InBand(o)) &&
    (forall p :: p in w.particles ==> p.active) &&
    0.0 <= w.distance && 0 <= w.kills && w.score == Trunc(w.distance) + KILL_POINTS * w.kills &&
    (w.saved != [] ==> w.saved[|w.saved| - 1] == w.highScore)
  }

  // ---------------------------------------------------------------------
  // Explosions

  /** What createExplosion promises about each particle it creates. */
  predicate FreshSpark(p: Particles.Particle, x: real, y: real)
  {
    p.active && p.lifetime == 0 && p.x == x && p.y == y &&
    -3.0 <= p.velocityX <= 2.9 && -5.0 <= p.velocityY <= 4.9 &&
    200 <= p.r <= 255 && 100 <= p.g <= 199 && p.b == 0
  }

  /** The particle built from the four rand() values starting at index at. */
  function Spark(x: real, y: real, rand: nat -> nat, at: nat): (p: Particles.Particle)
    ensures FreshSpark(p, x, y)
  {
    var velX := -3.0 + (rand(at) % 60) as real / 10.0;
    var velY := -5.0 + (rand(at + 1) % 100) as real / 10.0;
    Particles.NewParticle(x, y, velX, velY, 200 + rand(at + 2) % 56, 100 + rand(at + 3) % 100, 0)
  }

  function Burst(x: real, y: real, count: nat, rand: nat -> nat, from: nat): (ps: seq<Particles.Particle>)
    ensures |ps| == count
    ensures forall k :: 0 <= k < count ==> ps[k] == Spark(x, y, rand, from + DRAWS_PER_PARTICLE * k)
  {
    seq(count, k requires 0 <= k < count => Spark(x, y, rand, from + DRAWS_PER_PARTICLE * k))
  }

  /** One more particle of an explosion uses the next four rand() values. */
  lemma ExplodeStep(w: World, x: real, y: real, count: nat)
    ensures var e := Explode(w, x, y, count);
      Explode(w, x, y, count + 1) ==
        e.(particles := e.particles + [Spark(x, y, w.rand, e.randCalls)], randCalls := e.randCalls + DRAWS_PER_PARTICLE)
  {
    var from := w.randCalls;
    var b := Burst(x, y, count, w.rand, from);
    var b1 := Burst(x, y, count + 1, w.rand, from);
    var p := Spark(x, y, w.rand, from + DRAWS_PER_PARTICLE * count);
    assert b1 == b + [p] by {
      assert |b1| == |b + [p]|;
      forall k | 0 <= k < |b1|
        ensures b1[k] == (b + [p])[k]
      {
      }
    }
    assert w.particles + b1 == (w.particles + b) + [p];
  }

  /** createExplosion: count fresh particles at (x, y) are appended, each
      using four rand() values; nothing else changes. */
  function Explode(w: World, x: real, y: real, count: nat): (r: World)
    ensures r == w.(particles := r.particles, randCalls := w.randCalls + DRAWS_PER_PARTICLE * count)
    ensures |r.particles| == |w.particles| + count && r.particles[..|w.particles|] == w.particles
    ensures forall k :: |w.particles| <= k < |r.particles| ==> FreshSpark(r.particles[k], x, y)
  {
    var ps := w.particles + Burst(x, y, count, w.rand, w.randCalls);
    assert ps[..|w.particles|] == w.particles;
    w.(particles := ps, randCalls := w.randCalls + DRAWS_PER_PARTICLE * count)
  }

  // ---------------------------------------------------------------------
  // Spawning

  /** static_cast<EnemyType>(rand() % 3): the type whose enumerator value is n % 3. */
  function EnemyKind(n: nat): (k: Enemies.EnemyType)
    ensures Enemies.Ordinal(k) == n % 3
  {
    if n % 3 == 0 then Enemies.Stationary else if n % 3 == 1 then Enemies.SineWave else Enemies.Charging
  }

  /** static_cast<ObstacleType>(rand() % 3): the type whose enumerator value is n % 3. */
  function ObstacleKind(n: nat): (k: Obstacles.ObstacleType)
    ensures Obstacles.Ordinal(k) == n % 3
  {
    if n % 3 == 0 then Obstacles.StaticBarrier else if n % 3 == 1 then Obstacles.MovingVertical else Obstacles.Rotating
  }

  /** spawnEnemy: a fresh enemy at the right screen edge, at a height drawn
      from [150, 549]; two rand() values are used. */
  function SpawnEnemy(w: World): (r: World)
    ensures r == w.(enemies := r.enemies, randCalls := w.randCalls + DRAWS_PER_ENEMY)
    ensures |r.enemies| == |w.enemies| + 1 && r.enemies[..|w.enemies|] == w.enemies
    ensures var e := r.enemies[|w.enemies|];
      e.active && e.health == Enemies.INITIAL_HEALTH && e.timeAlive == 0.0 &&
      e.x == SCREEN_WIDTH as real && 150.0 <= e.y <= 549.0 && e.startY == e.y
  {
    var y := 150 + w.rand(w.randCalls) % 400;
    var kind := EnemyKind(w.rand(w.randCalls + 1));
    var es := w.enemies + [Enemies.NewEnemy(SCREEN_WIDTH as real, y as real, kind)];
    assert es[..|w.enemies|] == w.enemies;
    w.(enemies := es, randCalls := w.randCalls + DRAWS_PER_ENEMY)
  }

  /** spawnObstacle: a fresh 30-wide obstacle at the right screen edge, at a
      height drawn from [100, 599], with a height drawn from [40, 139]; it
      starts inside its bounce band; three rand() values are used. */
  function SpawnObstacle(w: World): (r: World)
    ensures r == w.(obstacles := r.obstacles, randCalls := w.randCalls + DRAWS_PER_OBSTACLE)
    ensures |r.obstacles| == |w.obstacles| + 1 && r.obstacles[..|w.obstacles|] == w.obstacles
    ensures var o := r.obstacles[|w.obstacles|];
      o.active && o.x == SCREEN_WIDTH as real && o.width == OBSTACLE_WIDTH &&
      100.0 <= o.y <= 599.0 && 40 <= o.height <= 139 && Obstacles.InBand(o)
  {
    var y := 100 + w.rand(w.randCalls) % 500;
    var h := 40 + w.rand(w.randCalls + 1) % 100;
    var kind := ObstacleKind(w.rand(w.randCalls + 2));
    var o := Obstacles.NewObstacle(SCREEN_WIDTH as real, y as real, OBSTACLE_WIDTH, h, kind);
    Obstacles.SpawnedInBand(SCREEN_WIDTH as real, y as real, OBSTACLE_WIDTH, h, kind);
    var os := w.obstacles + [o];
    assert os[..|w.obstacles|] == w.obstacles;
    w.(obstacles := os, randCalls := w.randCalls + DRAWS_PER_OBSTACLE)
  }

  // ---------------------------------------------------------------------
  // Game over, reset, events

  /** Entering GAME_OVER: a score above the high score becomes the high score
      and is saved. */
  function GameOverAt(w: World): (r: World)
    ensures r.state == GameOver
    ensures r.highScore == Max(w.highScore, w.score)
    ensures r.saved == if w.score > w.highScore then w.saved + [w.score] else w.saved
    ensures r == w.(state := GameOver, highScore := r.highScore, saved := r.saved)
  {
    var over := w.(state := GameOver);
    if w.score > w.highScore then over.(highScore := w.score, saved := w.saved + [w.score]) else over
  }

  /** resetGame: empty entity lists, a fresh craft at the start position,
      fresh terrain from the next rand() value, zeroed statistics and timers;
      the state, the high score and the saved scores are untouched. */
  function ResetWorld(w: World): (r: World)
    ensures r.bullets == [] && r.enemies == [] && r.obstacles == [] && r.particles == []
    ensures r.player == Helicopters.Spawned(START_X, START_Y)
    ensures r.score == 0 && r.distance == 0.0 && r.kills == 0 && r.enemyTimer == 0 && r.obstacleTimer == 0
    ensures r.terrainSeed == w.rand(w.randCalls) && r.randCalls == w.randCalls + 1
    ensures r.terrain == Terrains.InitialPoints(Field(r), SCREEN_WIDTH)
    ensures r.state == w.state && r.running == w.running && r.highScore == w.highScore && r.saved == w.saved
    ensures r.sin == w.sin && r.rand == w.rand
  {
    var seed := w.rand(w.randCalls);
    w.(bullets := [], enemies := [], obstacles := [], particles := [],
       player := Helicopters.Spawned(START_X, START_Y),
       terrainSeed := seed,
       terrain := Terrains.InitialPoints(Terrains.HeightField(w.sin, seed, SCREEN_HEIGHT), SCREEN_WIDTH),
       randCalls := w.randCalls + 1,
       score := 0, distance := 0.0, kills := 0, enemyTimer := 0, obstacleTimer := 0)
  }

  /** A reset establishes the invariant whenever the saved scores end with
      the high score. */
  lemma ResetEstablishesInv(w: World)
    requires w.saved != [] ==> w.saved[|w.saved| - 1] == w.highScore
    ensures Inv(ResetWorld(w))
  {
    var r := ResetWorld(w);
    assert Trunc(0.0) == 0;
  }

  /** The game after construction and init: running, on the menu, with a
      fresh craft and terrain, the stored high score, and one rand() value
      used for the terrain seed. */
  function Initial(sin: real -> real, rand: nat -> nat, storedHighScore: int): (w: World)
    ensures Inv(w) && w.running && w.state == Menu && w.highScore == storedHighScore
    ensures w.randCalls == 1 && w.terrainSeed == rand(0)
    ensures w.bullets == [] && w.enemies == [] && w.obstacles == [] && w.particles == []
  {
    var w := World(true, Menu, Helicopters.Spawned(START_X, START_Y),
      Terrains.InitialPoints(Terrains.HeightField(sin, rand(0), SCREEN_HEIGHT), SCREEN_WIDTH), rand(0),
      [], [], [], [], 0, storedHighScore, 0.0, 0, 0, 0, 1, [], sin, rand);
    assert Trunc(0.0) == 0;
    w
  }

  /** One polled event of handleEvents. */
  function OnEvent(w: World, ev: Event): (r: World)
    ensures ev == Quit ==> r == w.(running := false)
    ensures ev == OtherEvent ==> r == w
    ensures r.running ==> w.running
    ensures r.highScore == w.highScore && r.saved == w.saved
  {
    match ev
    case Quit => w.(running := false)
    case OtherEvent => w
    case KeyDown(k) =>
      var reaction := OnKey(w.state, k);
      var next := w.(state := reaction.next, running := w.running && !reaction.stop);
      if reaction.reset then ResetWorld(next) else next
  }

  /** The events of one handleEvents call, in order. */
  function AfterEvents(w: World, evs: seq<Event>): (r: World)
    ensures !w.running ==> !r.running
    ensures r.highScore == w.highScore
    decreases |evs|
  {
    if evs == [] then w else AfterEvents(OnEvent(w, evs[0]), evs[1..])
  }

  /** Once a Quit event has been polled the game stops running, whatever
      follows it; and events never change the high score. */
  lemma {:induction false} QuitStops(w: World, evs: seq<Event>)
    ensures Quit in evs ==> !AfterEvents(w, evs).running
    ensures !w.running ==> !AfterEvents(w, evs).running
    ensures AfterEvents(w, evs).highScore == w.highScore
    decreases |evs|
  {
    if evs != [] {
      QuitStops(OnEvent(w, evs[0]), evs[1..]);
      if evs[0] != Quit {
        assert Quit in evs ==> Quit in evs[1..];
      }
    }
  }

  /** Every event keeps the invariant. */
  lemma EventKeepsInv(w: World, ev: Event)
    requires Inv(w)
    ensures Inv(OnEvent(w, ev))
  {
    match ev
    case Quit =>
    case OtherEvent =>
    case KeyDown(k) =>
      var reaction := OnKey(w.state, k);
      var next := w.(state := reaction.next, running := w.running && !reaction.stop);
      if reaction.reset {
        ResetEstablishesInv(next);
      } else {
        assert Inv(next);
      }
  }

  lemma {:induction false} EventsKeepInv(w: World, evs: seq<Event>)
    requires Inv(w)
    ensures Inv(AfterEvents(w, evs))
    decreases |evs|
  {
    if evs != [] {
      EventKeepsInv(w, evs[0]);
      EventsKeepInv(OnEvent(w, evs[0]), evs[1..]);
    }
  }
}
