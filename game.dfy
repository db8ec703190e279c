// The Game object: its fields are updated in place by handleEvents, update
// and the helpers they call. Each method is tied to the specification
// function of Worlds or Frames it implements, through Snapshot().

module Games {
  import opened CollisionDetector
  import opened GameFlow
  import opened Compaction
  import opened Worlds
  import opened Frames
  import Helicopters
  import Terrains
  import Bullets
  import Enemies
  import Obstacles
  import Particles

  class Game {
    var running: bool
    var state: GameState
    const player: Helicopters.Helicopter
    const terrain: Terrains.Terrain
    var bullets: seq<Bullets.Bullet>
    var enemies: seq<Enemies.Enemy>
    var obstacles: seq<Obstacles.Obstacle>
    var particles: seq<Particles.Particle>
    var score: int
    var highScore: int
    var distance: real
    var kills: int
    var enemyTimer: int
    var obstacleTimer: int
    /** The values rand() returns, and how many have been used. */
    const rand: nat -> nat
    var randCalls: nat
    /** The values saveHighScore has written, oldest first. */
    ghost var saved: seq<int>

    /** The whole game state as a value. */
    ghost function Snapshot(): World
      reads this, player, terrain
    {
      World(running, state, player.State(), terrain.points, terrain.seed,
            bullets, enemies, obstacles, particles,
            score, highScore, distance, kills, enemyTimer, obstacleTimer,
            randCalls, saved, terrain.sin, rand)
    }

    ghost predicate Valid()
      reads this, player, terrain
    {
      terrain.scrollSpeed == SCROLL_SPEED && terrain.screenWidth == SCREEN_WIDTH &&
      terrain.screenHeight == SCREEN_HEIGHT && Inv(Snapshot())
    }

    /** Game() followed by init(): the craft at (100, 360), a 1280x720
        terrain scrolling by 3 seeded with the first rand() value, and the
        high score read from the file (0 when there is none). */
    constructor (sine: real -> real, randoms: nat -> nat, storedHighScore: int)
      ensures Valid()
      ensures Snapshot() == Initial(sine, randoms, storedHighScore)
    {
      player := new Helicopters.Helicopter(START_X, START_Y);
      terrain := new Terrains.Terrain(SCREEN_WIDTH, SCREEN_HEIGHT, SCROLL_SPEED, randoms(0), sine);
      rand := randoms;
      running, state := true, Menu;
      bullets, enemies, obstacles, particles := [], [], [], [];
      score, highScore, distance, kills := 0, storedHighScore, 0.0, 0;
      enemyTimer, obstacleTimer := 0, 0;
      randCalls := 1;
      saved := [];
    }

    // -------------------------------------------------------------------
    // Events

    /** handleEvents over the events polled this frame, in order. */
    method HandleEvents(events: seq<Event>)
      requires Valid()
      modifies this, player, terrain
      ensures Valid()
      ensures Snapshot() == AfterEvents(old(Snapshot()), events)
    {
      for i := 0 to |events|
        invariant Valid()
        invariant AfterEvents(Snapshot(), events[i..]) == AfterEvents(old(Snapshot()), events)
      {
        ghost var before := Snapshot();
        HandleEvent(events[i]);
        EventKeepsInv(before, events[i]);
        assert events[i..][1..] == events[i + 1..];
      }
    }

    /** The body of the polling loop for one event. */
    method HandleEvent(ev: Event)
      requires Valid()
      modifies this, player, terrain
      ensures terrain.scrollSpeed == SCROLL_SPEED && terrain.screenWidth == SCREEN_WIDTH
      ensures terrain.screenHeight == SCREEN_HEIGHT
      ensures Snapshot() == OnEvent(old(Snapshot()), ev)
    {
      if ev == Quit {
        running := false;
      }
      if ev.KeyDown? {
        var key := ev.key;
        match state
        case Menu =>
          if key == Space || key == Return {
            state := Playing;
            ResetGame();
          }
          if key == Escape {
            running := false;
          }
        case Playing =>
          if key == Escape || key == P {
            state := Paused;
          }
        case Paused =>
          if key == Escape || key == P {
            state := Playing;
          }
        case GameOver =>
          if key == Space || key == Return {
            state := Playing;
            ResetGame();
          }
          if key == Escape {
            state := Menu;
          }
      }
    }

    /** resetGame. */
    method ResetGame()
      requires terrain.screenWidth == SCREEN_WIDTH && terrain.screenHeight == SCREEN_HEIGHT
      modifies this, player, terrain
      ensures Snapshot() == ResetWorld(old(Snapshot()))
    {
      ghost var w := Snapshot();
      ClearEntities();
      player.Reset(START_X, START_Y);
      ghost var w1 := w.(bullets := [], enemies := [], obstacles := [], particles := [],
                         player := Helicopters.Spawned(START_X, START_Y));
      assert Snapshot() == w1;
      ReseedTerrain();
      ClearStats();
    }

    /** The four lists are emptied. */
    method ClearEntities()
      modifies this
      ensures Snapshot() == old(Snapshot()).(bullets := [], enemies := [], obstacles := [], particles := [])
    {
      bullets, enemies, obstacles, particles := [], [], [], [];
    }

    /** terrain->reset(), which draws the next rand() value as its seed. */
    method ReseedTerrain()
      requires terrain.screenWidth == SCREEN_WIDTH && terrain.screenHeight == SCREEN_HEIGHT
      modifies this, terrain
      ensures var w := old(Snapshot());
        var seed := w.rand(w.randCalls);
        Snapshot() == w.(terrainSeed := seed, randCalls := w.randCalls + 1,
          terrain := Terrains.InitialPoints(Terrains.HeightField(w.sin, seed, SCREEN_HEIGHT), SCREEN_WIDTH))
    {
      terrain.Reset(rand(randCalls));
      randCalls := randCalls + 1;
    }

    /** The statistics and spawn timers go back to zero. */
    method ClearStats()
      modifies this
      ensures Snapshot() == old(Snapshot()).(score := 0, distance := 0.0, kills := 0, enemyTimer := 0, obstacleTimer := 0)
    {
      score := 0;
      distance := 0.0;
      kills := 0;
      enemyTimer := 0;
      obstacleTimer := 0;
    }

    // -------------------------------------------------------------------
    // Helpers of update

    /** spawnEnemy. */
    method SpawnEnemy()
      modifies this
      ensures Snapshot() == Worlds.SpawnEnemy(old(Snapshot()))
    {
      var randY := 150 + rand(randCalls) % 400;
      var kind := EnemyKind(rand(randCalls + 1));
      randCalls := randCalls + DRAWS_PER_ENEMY;
      enemies := enemies + [Enemies.NewEnemy(SCREEN_WIDTH as real, randY as real, kind)];
    }

    /** spawnObstacle. */
    method SpawnObstacle()
      modifies this
      ensures Snapshot() == Worlds.SpawnObstacle(old(Snapshot()))
    {
      var randY := 100 + rand(randCalls) % 500;
      var randH := 40 + rand(randCalls + 1) % 100;
      var kind := ObstacleKind(rand(randCalls + 2));
      randCalls := randCalls + DRAWS_PER_OBSTACLE;
      obstacles := obstacles + [Obstacles.NewObstacle(SCREEN_WIDTH as real, randY as real, OBSTACLE_WIDTH, randH, kind)];
    }

    /** createExplosion. */
    method CreateExplosion(x: real, y: real, count: nat)
      modifies this
      ensures Snapshot() == Explode(old(Snapshot()), x, y, count)
    {
      for i := 0 to count
        invariant Snapshot() == Explode(old(Snapshot()), x, y, i)
      {
        AddSpark(x, y);
        ExplodeStep(old(Snapshot()), x, y, i);
      }
    }

    /** One iteration of createExplosion: a particle from four rand() values. */
    method AddSpark(x: real, y: real)
      modifies this
      ensures Snapshot() == old(Snapshot()).(particles := old(particles) + [Spark(x, y, rand, old(randCalls))],
                                             randCalls := old(randCalls) + DRAWS_PER_PARTICLE)
    {
      var velX := -3.0 + (rand(randCalls) % 60) as real / 10.0;
      var velY := -5.0 + (rand(randCalls + 1) % 100) as real / 10.0;
      var red := 200 + rand(randCalls + 2) % 56;
      var green := 100 + rand(randCalls + 3) % 100;
      randCalls := randCalls + DRAWS_PER_PARTICLE;
      particles := particles + [Particles.NewParticle(x, y, velX, velY, red, green, 0)];
    }

    /** The game-over bookkeeping repeated on every path to GAME_OVER. */
    method EnterGameOver()
      modifies this
      ensures Snapshot() == GameOverAt(old(Snapshot()))
    {
      state := GameOver;
      if score > highScore {
        highScore := score;
        saved := saved + [highScore];
      }
    }

    /** A crash into an obstacle or the terrain. */
    method Crash()
      modifies this, player
      ensures Snapshot() == Frames.Crash(old(Snapshot()))
    {
      player.TakeDamage(CRASH_DAMAGE);
      CreateExplosion(player.x + 25.0, player.y + 15.0, CRASH_BURST);
      EnterGameOver();
    }

    /** cleanupEntities: each list loses its inactive entities. */
    method CleanupEntities()
      modifies this
      ensures Snapshot() == CleanupPhase(old(Snapshot()))
    {
      CleanupBullets();
      CleanupEnemies();
      CleanupObstacles();
      CleanupParticles();
    }

    method CleanupBullets()
      modifies this
      ensures Snapshot() == old(Snapshot()).(bullets := Keep(old(bullets), Bullets.IsActive))
    {
      bullets := Compact(bullets, Bullets.IsActive);
    }

    method CleanupEnemies()
      modifies this
      ensures Snapshot() == old(Snapshot()).(enemies := Keep(old(enemies), Enemies.IsActive))
    {
      enemies := Compact(enemies, Enemies.IsActive);
    }

    method CleanupObstacles()
      modifies this
      ensures Snapshot() == old(Snapshot()).(obstacles := Keep(old(obstacles), Obstacles.IsActive))
    {
      obstacles := Compact(obstacles, Obstacles.IsActive);
    }

    method CleanupParticles()
      modifies this
      ensures Snapshot() == old(Snapshot()).(particles := Keep(old(particles), Particles.IsActive))
    {
      particles := Compact(particles, Particles.IsActive);
    }

    /** The four entity-update loops of update. */
    method MoveEntities()
      modifies this
      ensures Snapshot() == MovePhase(old(Snapshot()))
    {
      MoveBullets();
      MoveEnemies();
      MoveObstacles();
      MoveParticles();
    }

    method MoveBullets()
      modifies this
      ensures Snapshot() == old(Snapshot()).(bullets := MovedBullets(old(bullets)))
    {
      var bs := bullets;
      for i := 0 to |bs|
        invariant |bs| == |bullets|
        invariant forall k :: 0 <= k < i ==> bs[k] == Bullets.Updated(bullets[k])
        invariant forall k :: i <= k < |bs| ==> bs[k] == bullets[k]
      {
        bs := bs[i := Bullets.Updated(bs[i])];
      }
      bullets := bs;
    }

    /** Enemies steer toward the craft, which has already moved. */
    method MoveEnemies()
      modifies this
      ensures Snapshot() == old(Snapshot()).(enemies := MovedEnemies(old(enemies), player.x, player.y, terrain.sin))
    {
      var es := enemies;
      for i := 0 to |es|
        invariant |es| == |enemies|
        invariant forall k :: 0 <= k < i ==> es[k] == Enemies.Updated(enemies[k], player.x, player.y, terrain.sin)
        invariant forall k :: i <= k < |es| ==> es[k] == enemies[k]
      {
        es := es[i := Enemies.Updated(es[i], player.x, player.y, terrain.sin)];
      }
      enemies := es;
    }

    method MoveObstacles()
      modifies this
      ensures Snapshot() == old(Snapshot()).(obstacles := MovedObstacles(old(obstacles)))
    {
      var os := obstacles;
      for i := 0 to |os|
        invariant |os| == |obstacles|
        invariant forall k :: 0 <= k < i ==> os[k] == Obstacles.Updated(obstacles[k])
        invariant forall k :: i <= k < |os| ==> os[k] == obstacles[k]
      {
        os := os[i := Obstacles.Updated(os[i])];
      }
      obstacles := os;
    }

    method MoveParticles()
      modifies this
      ensures Snapshot() == old(Snapshot()).(particles := MovedParticles(old(particles)))
    {
      var ps := particles;
      for i := 0 to |ps|
        invariant |ps| == |particles|
        invariant forall k :: 0 <= k < i ==> ps[k] == Particles.Updated(particles[k])
        invariant forall k :: i <= k < |ps| ==> ps[k] == particles[k]
      {
        ps := ps[i := Particles.Updated(ps[i])];
      }
      particles := ps;
    }

    /** The inner search of the bullet pass: the first active enemy the box
        overlaps, or |enemies|. */
    method TargetOf(box: Rect) returns (j: int)
      ensures j == FirstTarget(box, enemies)
    {
      for k := 0 to |enemies|
        invariant forall m :: 0 <= m < k ==> !Hits(box, enemies[m])
      {
        if enemies[k].active && CheckCollision(box, Enemies.Bounds(enemies[k])) {
          return k;
        }
      }
      return |enemies|;
    }

    /** Bullets against enemies. */
    method ShootEnemies()
      modifies this
      ensures Snapshot() == BulletsFrom(old(Snapshot()), 0)
    {
      for i := 0 to |bullets|
        invariant |bullets| == |old(bullets)|
        invariant BulletsFrom(Snapshot(), i) == BulletsFrom(old(Snapshot()), 0)
      {
        ghost var before := Snapshot();
        ShootBullet(i);
        BulletsStep(before, i);
      }
    }

    /** One iteration of the bullet pass. */
    method ShootBullet(i: int)
      requires 0 <= i < |bullets|
      modifies this
      ensures Snapshot() == ShootOne(old(Snapshot()), i)
    {
      if bullets[i].active {
        var j := TargetOf(Bullets.Bounds(bullets[i]));
        if j < |enemies| {
          StrikeEnemy(i, j);
          if !enemies[j].active {
            KillEnemy(j);
          }
        }
      }
    }

    /** Bullet i stops and enemy j takes its damage. */
    method StrikeEnemy(i: int, j: int)
      requires 0 <= i < |bullets| && 0 <= j < |enemies|
      modifies this
      ensures Snapshot() == old(Snapshot()).(bullets := old(bullets)[i := Bullets.Deactivated(old(bullets)[i])],
                                             enemies := old(enemies)[j := Enemies.Damaged(old(enemies)[j], BULLET_DAMAGE)])
    {
      bullets := bullets[i := Bullets.Deactivated(bullets[i])];
      enemies := enemies[j := Enemies.Damaged(enemies[j], BULLET_DAMAGE)];
    }

    /** The reward for destroying enemy j: an explosion, a kill and 100 points. */
    method KillEnemy(j: int)
      requires 0 <= j < |enemies|
      modifies this
      ensures var w := old(Snapshot());
        Snapshot() == ExplodeAtEnemy(w, w.enemies[j], KILL_BURST).(kills := w.kills + 1, score := w.score + KILL_POINTS)
    {
      ghost var w := Snapshot();
      var box := Enemies.Bounds(enemies[j]);
      CreateExplosion((box.x + 20) as real, (box.y + 15) as real, KILL_BURST);
      assert Snapshot() == ExplodeAtEnemy(w, w.enemies[j], KILL_BURST);
      CountKill();
    }

    /** enemiesKilled++ and score += 100. */
    method CountKill()
      modifies this
      ensures Snapshot() == old(Snapshot()).(kills := old(kills) + 1, score := old(score) + KILL_POINTS)
    {
      kills := kills + 1;
      score := score + KILL_POINTS;
    }

    /** The craft against enemies. */
    method RamEnemies()
      modifies this, player
      ensures Snapshot() == RamFrom(old(Snapshot()), 0)
    {
      for j := 0 to |enemies|
        invariant |enemies| == |old(enemies)|
        invariant RamFrom(Snapshot(), j) == RamFrom(old(Snapshot()), 0)
      {
        RamEnemy(j);
      }
    }

    /** One iteration of the ram pass. */
    method RamEnemy(j: int)
      requires 0 <= j < |enemies|
      modifies this, player
      ensures Snapshot() == RamOne(old(Snapshot()), j)
    {
      if enemies[j].active && CheckCollision(player.GetBounds(), Enemies.Bounds(enemies[j])) {
        player.TakeDamage(RAM_DAMAGE);
        RetireEnemy(j);
        if !player.isAlive {
          EnterGameOver();
        }
      }
    }

    /** Enemy j is retired and explodes. */
    method RetireEnemy(j: int)
      requires 0 <= j < |enemies|
      modifies this
      ensures var w := old(Snapshot());
        var e := Enemies.Deactivated(w.enemies[j]);
        Snapshot() == ExplodeAtEnemy(w.(enemies := w.enemies[j := e]), e, RAM_BURST)
    {
      ghost var w := Snapshot();
      DeactivateEnemy(j);
      var e := enemies[j];
      assert Snapshot() == w.(enemies := w.enemies[j := e]);
      var box := Enemies.Bounds(e);
      CreateExplosion((box.x + 20) as real, (box.y + 15) as real, RAM_BURST);
    }

    /** enemy->deactivate(). */
    method DeactivateEnemy(j: int)
      requires 0 <= j < |enemies|
      modifies this
      ensures Snapshot() == old(Snapshot()).(enemies := old(enemies)[j := Enemies.Deactivated(old(enemies)[j])])
    {
      enemies := enemies[j := Enemies.Deactivated(enemies[j])];
    }

    /** The craft against obstacles. */
    method CrashIntoObstacles()
      modifies this, player
      ensures Snapshot() == CrashFrom(old(Snapshot()), 0)
    {
      for k := 0 to |obstacles|
        invariant obstacles == old(obstacles)
        invariant CrashFrom(Snapshot(), k) == CrashFrom(old(Snapshot()), 0)
      {
        ghost var before := Snapshot();
        if obstacles[k].active && CheckCollision(player.GetBounds(), Obstacles.Bounds(obstacles[k])) {
          Crash();
        }
        assert Snapshot() == CrashOne(before, k);
      }
    }

    /** The craft against the terrain. */
    method CrashIntoTerrain()
      modifies this, player
      ensures Snapshot() == GroundPhase(old(Snapshot()))
    {
      var hit := terrain.CheckCollision(player.GetBounds());
      if hit {
        Crash();
      }
    }

    // -------------------------------------------------------------------
    // The frame

    /** update, with the keyboard state read at its start. */
    method Update(keys: Held)
      requires Valid()
      modifies this, player, terrain
      ensures Valid()
      ensures Snapshot() == Frame(old(Snapshot()), keys)
    {
      if state != Playing {
        return;
      }
      ghost var w := Snapshot();
      AdvanceAll(keys);
      ResolveCollisions();
      AdvanceScore();
      CleanupEntities();
      FrameKeepsInv(w, keys);
    }

    /** The first half of update: the craft, the terrain, the entities and
        the spawn timers move on. */
    method AdvanceAll(keys: Held)
      requires Valid() && state == Playing
      modifies this, player, terrain
      ensures Snapshot() == Advance(old(Snapshot()), keys)
    {
      ghost var w := Snapshot();
      FlyPlayer(keys);
      ScrollTerrain();
      ghost var w2 := TerrainPhase(PlayerPhase(w, keys));
      assert Snapshot() == w2;
      MoveEntities();
      TickEnemySpawn();
      TickObstacleSpawn();
    }

    /** player->update, whose new bullets join the list. */
    method FlyPlayer(keys: Held)
      modifies this, player
      ensures Snapshot() == PlayerPhase(old(Snapshot()), keys)
    {
      bullets := player.Update(Thrust(keys), Shoot(keys), bullets);
    }

    /** terrain->update. */
    method ScrollTerrain()
      requires Terrains.Covering(terrain.points, terrain.screenWidth)
      requires terrain.screenWidth == SCREEN_WIDTH && terrain.scrollSpeed == SCROLL_SPEED
      requires terrain.screenHeight == SCREEN_HEIGHT
      modifies terrain
      ensures Snapshot() == TerrainPhase(old(Snapshot()))
    {
      Terrains.CoveringCanScroll(terrain.points, SCREEN_WIDTH, SCROLL_SPEED);
      terrain.Update();
    }

    /** The enemy spawn timer ticks, and spawns when it passes its delay. */
    method TickEnemySpawn()
      modifies this
      ensures Snapshot() == EnemySpawnPhase(old(Snapshot()))
    {
      enemyTimer := enemyTimer + 1;
      if enemyTimer > ENEMY_SPAWN_DELAY {
        SpawnEnemy();
        enemyTimer := 0;
      }
    }

    /** The obstacle spawn timer ticks, and spawns when it passes its delay. */
    method TickObstacleSpawn()
      modifies this
      ensures Snapshot() == ObstacleSpawnPhase(old(Snapshot()))
    {
      obstacleTimer := obstacleTimer + 1;
      if obstacleTimer > OBSTACLE_SPAWN_DELAY {
        SpawnObstacle();
        obstacleTimer := 0;
      }
    }

    /** The four collision passes. */
    method ResolveCollisions()
      modifies this, player
      ensures Snapshot() == Resolve(old(Snapshot()))
    {
      ShootEnemies();
      RamEnemies();
      CrashIntoObstacles();
      CrashIntoTerrain();
    }

    /** distanceTraveled grows and the score is recomputed from it. */
    method AdvanceScore()
      modifies this
      ensures Snapshot() == ScorePhase(old(Snapshot()))
    {
      distance := distance + DISTANCE_STEP;
      score := Trunc(distance) + kills * KILL_POINTS;
    }
  }
}
