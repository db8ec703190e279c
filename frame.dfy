// One call of Game::update as a composition of phases, in the source's
// order: the craft, the terrain, the entity updates, the spawn timers, the
// four collision passes, the score, and the removal of dead entities.

module Frames {
  import opened CollisionDetector
  import opened GameFlow
  import opened Compaction
  import opened Worlds
  import Helicopters
  import Terrains
  import Bullets
  import Enemies
  import Obstacles
  import Particles

  /** The keyboard state read at the start of a frame. */
  datatype Held = Held(space: bool, up: bool, x: bool)

  /** Space or Up thrusts; Space or X shoots. */
  predicate Thrust(k: Held) { k.space || k.up }
  predicate Shoot(k: Held) { k.space || k.x }

  /** The saved scores end with the high score. */
  ghost predicate Bookkept(w: World)
  {
    w.saved != [] ==> w.saved[|w.saved| - 1] == w.highScore
  }

  /** A session that is playing has a living craft. */
  ghost predicate AliveWhilePlaying(w: World)
  {
    w.state == Playing ==> w.player.isAlive
  }

  /** Between w and r the high score either stayed, or the game ended and
      the current score, above the old high score, was recorded and saved. */
  ghost predicate HighScoreKept(w: World, r: World)
  {
    (r.highScore == w.highScore && r.saved == w.saved) ||
    (r.state == GameOver && w.highScore < w.score == r.highScore && r.saved == w.saved + [w.score])
  }

  function PlayerBox(w: World): Rect
  {
    Helicopters.Bounds(w.player)
  }

  // ---------------------------------------------------------------------
  // Movement

  function PlayerPhase(w: World, keys: Held): (r: World)
    ensures r == w.(player := r.player, bullets := r.bullets)
    ensures var f := Helicopters.Fly(w.player, Thrust(keys), Shoot(keys));
      r.player == f.after && r.bullets == w.bullets + f.shots
  {
    var f := Helicopters.Fly(w.player, Thrust(keys), Shoot(keys));
    w.(player := f.after, bullets := w.bullets + f.shots)
  }

  /** The terrain scrolls by SCROLL_SPEED and stays covering. */
  function TerrainPhase(w: World): (r: World)
    requires Terrains.Covering(w.terrain, SCREEN_WIDTH)
    ensures r == w.(terrain := r.terrain)
    ensures Terrains.Covering(r.terrain, SCREEN_WIDTH)
  {
    Terrains.CoveringCanScroll(w.terrain, SCREEN_WIDTH, SCROLL_SPEED);
    w.(terrain := Terrains.Scrolled(w.terrain, SCROLL_SPEED, Field(w), SCREEN_WIDTH))
  }

  function MovedBullets(bs: seq<Bullets.Bullet>): (r: seq<Bullets.Bullet>)
    ensures |r| == |bs| && forall i :: 0 <= i < |bs| ==> r[i] == Bullets.Updated(bs[i])
  {
    seq(|bs|, i requires 0 <= i < |bs| => Bullets.Updated(bs[i]))
  }

  function MovedEnemies(es: seq<Enemies.Enemy>, playerX: real, playerY: real, sin: real -> real): (r: seq<Enemies.Enemy>)
    ensures |r| == |es| && forall i :: 0 <= i < |es| ==> r[i] == Enemies.Updated(es[i], playerX, playerY, sin)
  {
    seq(|es|, i requires 0 <= i < |es| => Enemies.Updated(es[i], playerX, playerY, sin))
  }

  function MovedObstacles(os: seq<Obstacles.Obstacle>): (r: seq<Obstacles.Obstacle>)
    ensures |r| == |os| && forall i :: 0 <= i < |os| ==> r[i] == Obstacles.Updated(os[i])
  {
    seq(|os|, i requires 0 <= i < |os| => Obstacles.Updated(os[i]))
  }

  function MovedParticles(ps: seq<Particles.Particle>): (r: seq<Particles.Particle>)
    ensures |r| == |ps| && forall i :: 0 <= i < |ps| ==> r[i] == Particles.Updated(ps[i])
  {
    seq(|ps|, i requires 0 <= i < |ps| => Particles.Updated(ps[i]))
  }

  /** Every bullet, enemy, obstacle and particle takes one step; enemies
      steer toward the craft's new position. */
  function MovePhase(w: World): (r: World)
    ensures r == w.(bullets := r.bullets, enemies := r.enemies, obstacles := r.obstacles, particles := r.particles)
    ensures |r.bullets| == |w.bullets| && |r.enemies| == |w.enemies|
    ensures |r.obstacles| == |w.obstacles| && |r.particles| == |w.particles|
    ensures forall i :: 0 <= i < |w.enemies| ==>
      r.enemies[i] == Enemies.Updated(w.enemies[i], w.player.x, w.player.y, w.sin)
    ensures forall i :: 0 <= i < |w.bullets| ==> r.bullets[i] == Bullets.Updated(w.bullets[i])
    ensures forall i :: 0 <= i < |w.obstacles| ==> r.obstacles[i] == Obstacles.Updated(w.obstacles[i])
    ensures forall i :: 0 <= i < |w.particles| ==> r.particles[i] == Particles.Updated(w.particles[i])
  {
    w.(bullets := MovedBullets(w.bullets),
       enemies := MovedEnemies(w.enemies, w.player.x, w.player.y, w.sin),
       obstacles := MovedObstacles(w.obstacles),
       particles := MovedParticles(w.particles))
  }

  /** Moving keeps every obstacle in its bounce band. */
  lemma MoveKeepsBands(os: seq<Obstacles.Obstacle>)
    requires forall o :: o in os ==> Obstacles.InBand(o)
    ensures forall o :: o in MovedObstacles(os) ==> Obstacles.InBand(o)
  {
    var r := MovedObstacles(os);
    forall o | o in r
      ensures Obstacles.InBand(o)
    {
      var i :| 0 <= i < |r| && r[i] == o;
      assert os[i] in os;
      Obstacles.UpdateKeepsBand(os[i]);
    }
  }

  // ---------------------------------------------------------------------
  // Spawning

  /** The enemy timer is incremented; exactly when it then exceeds 120 one
      enemy is spawned and the timer restarts from 0. */
  function EnemySpawnPhase(w: World): (r: World)
    ensures var spawn := w.enemyTimer + 1 > ENEMY_SPAWN_DELAY;
      |r.enemies| == |w.enemies| + (if spawn then 1 else 0) &&
      r.enemyTimer == (if spawn then 0 else w.enemyTimer + 1) &&
      r.randCalls == w.randCalls + (if spawn then DRAWS_PER_ENEMY else 0)
    ensures 0 <= w.enemyTimer <= ENEMY_SPAWN_DELAY ==> 0 <= r.enemyTimer <= ENEMY_SPAWN_DELAY
    ensures r == w.(enemies := r.enemies, enemyTimer := r.enemyTimer, randCalls := r.randCalls)
    ensures r.enemies[..|w.enemies|] == w.enemies
  {
    var timer := w.enemyTimer + 1;
    var ticked := w.(enemyTimer := timer);
    if timer > ENEMY_SPAWN_DELAY then SpawnEnemy(ticked).(enemyTimer := 0) else ticked
  }

  /** The same rule for obstacles, with threshold 90; spawned obstacles start
      in their bounce band. */
  function ObstacleSpawnPhase(w: World): (r: World)
    ensures var spawn := w.obstacleTimer + 1 > OBSTACLE_SPAWN_DELAY;
      |r.obstacles| == |w.obstacles| + (if spawn then 1 else 0) &&
      r.obstacleTimer == (if spawn then 0 else w.obstacleTimer + 1) &&
      r.randCalls == w.randCalls + (if spawn then DRAWS_PER_OBSTACLE else 0)
    ensures 0 <= w.obstacleTimer <= OBSTACLE_SPAWN_DELAY ==> 0 <= r.obstacleTimer <= OBSTACLE_SPAWN_DELAY
    ensures r == w.(obstacles := r.obstacles, obstacleTimer := r.obstacleTimer, randCalls := r.randCalls)
    ensures r.obstacles[..|w.obstacles|] == w.obstacles
  {
    var timer := w.obstacleTimer + 1;
    var ticked := w.(obstacleTimer := timer);
    if timer > OBSTACLE_SPAWN_DELAY then SpawnObstacle(ticked).(obstacleTimer := 0) else ticked
  }

  /** A spawned obstacle starts in its bounce band, so the spawning phase
      keeps every obstacle in its band. */
  lemma SpawnKeepsBands(w: World)
    requires forall o :: o in w.obstacles ==> Obstacles.InBand(o)
    ensures forall o :: o in ObstacleSpawnPhase(w).obstacles ==> Obstacles.InBand(o)
  {
    var r := ObstacleSpawnPhase(w);
    forall o | o in r.obstacles
      ensures Obstacles.InBand(o)
    {
      var i :| 0 <= i < |r.obstacles| && r.obstacles[i] == o;
      if i < |w.obstacles| {
        assert o == r.obstacles[..|w.obstacles|][i];
        assert o in w.obstacles;
      }
    }
  }

  // ---------------------------------------------------------------------
  // Bullets against enemies

  /** An active enemy whose box overlaps box. */
  predicate Hits(box: Rect, e: Enemies.Enemy)
  {
    e.active && CheckCollision(box, Enemies.Bounds(e))
  }

  /** The index of the first enemy the box hits, or |es| when it hits none. */
  function FirstTarget(box: Rect, es: seq<Enemies.Enemy>): (j: int)
    ensures 0 <= j <= |es|
    ensures j < |es| ==> Hits(box, es[j])
    ensures forall k :: 0 <= k < j ==> !Hits(box, es[k])
    decreases |es|
  {
    if |es| == 0 then 0
    else if Hits(box, es[0]) then 0
    else 1 + FirstTarget(box, es[1..])
  }

  /** The explosion where an enemy is: 20 right and 15 below its box corner. */
  function ExplodeAtEnemy(w: World, e: Enemies.Enemy, count: nat): World
  {
    var box := Enemies.Bounds(e);
    Explode(w, (box.x + 20) as real, (box.y + 15) as real, count)
  }

  /** Bullet i against the enemies: an active bullet stops at the first
      enemy it hits, which takes 15 damage; a kill scores 100 and explodes
      into 20 particles. */
  function ShootOne(w: World, i: int): (r: World)
    requires 0 <= i < |w.bullets|
    ensures var b := w.bullets[i];
      var j := FirstTarget(Bullets.Bounds(b), w.enemies);
      if b.active && j < |w.enemies| then
        r.bullets == w.bullets[i := Bullets.Deactivated(b)] &&
        r.enemies == w.enemies[j := Enemies.Damaged(w.enemies[j], BULLET_DAMAGE)]
      else r == w
    ensures r == w.(bullets := r.bullets, enemies := r.enemies, particles := r.particles,
                    kills := r.kills, score := r.score, randCalls := r.randCalls)
    ensures |r.bullets| == |w.bullets| && |r.enemies| == |w.enemies|
    ensures r.kills - w.kills == |Keep(w.enemies, Enemies.IsActive)| - |Keep(r.enemies, Enemies.IsActive)|
    ensures 0 <= r.kills - w.kills <= 1
    ensures r.score == w.score + KILL_POINTS * (r.kills - w.kills)
    ensures |r.particles| == |w.particles| + KILL_BURST * (r.kills - w.kills)
  {
    var b := w.bullets[i];
    var j := FirstTarget(Bullets.Bounds(b), w.enemies);
    if !b.active || j == |w.enemies| then w
    else
      var e := Enemies.Damaged(w.enemies[j], BULLET_DAMAGE);
      KeepCountUpdate(w.enemies, j, e, Enemies.IsActive);
      var hit := w.(bullets := w.bullets[i := Bullets.Deactivated(b)], enemies := w.enemies[j := e]);
      if e.active then hit
      else ExplodeAtEnemy(hit, e, KILL_BURST).(kills := hit.kills + 1, score := hit.score + KILL_POINTS)
  }

  /** The bullet pass from bullet i on. The number of new kills is the
      number of enemies it deactivated; each scored 100 and exploded; no
      bullet or enemy comes back to life. */
  function BulletsFrom(w: World, i: int): (r: World)
    requires 0 <= i <= |w.bullets|
    ensures r == w.(bullets := r.bullets, enemies := r.enemies, particles := r.particles,
                    kills := r.kills, score := r.score, randCalls := r.randCalls)
    ensures |r.bullets| == |w.bullets| && |r.enemies| == |w.enemies|
    ensures r.kills >= w.kills
    ensures r.kills - w.kills == |Keep(w.enemies, Enemies.IsActive)| - |Keep(r.enemies, Enemies.IsActive)|
    ensures r.score == w.score + KILL_POINTS * (r.kills - w.kills)
    ensures |r.particles| == |w.particles| + KILL_BURST * (r.kills - w.kills)
    ensures forall k :: 0 <= k < |w.enemies| && r.enemies[k].active ==> w.enemies[k].active
    ensures forall k :: 0 <= k < |w.bullets| && r.bullets[k].active ==> w.bullets[k].active
    ensures forall k :: 0 <= k < i ==> r.bullets[k] == w.bullets[k]
    decreases |w.bullets| - i
  {
    if i == |w.bullets| then w
    else
      var next := ShootOne(w, i);
      assert forall k :: 0 <= k < |w.enemies| && next.enemies[k].active ==> w.enemies[k].active;
      BulletsFrom(next, i + 1)
  }

  /** One step of the bullet pass. */
  lemma BulletsStep(w: World, i: int)
    requires 0 <= i < |w.bullets|
    ensures BulletsFrom(w, i) == BulletsFrom(ShootOne(w, i), i + 1)
  {
  }

  // ---------------------------------------------------------------------
  // The craft against enemies

  /** Enemy j against the craft: a hit costs the craft 50 health, retires
      the enemy whatever its health, explodes into 15 particles, and ends
      the game when the craft is dead. */
  function RamOne(w: World, j: int): (r: World)
    requires 0 <= j < |w.enemies|
    ensures |r.enemies| == |w.enemies|
    ensures Hits(PlayerBox(w), w.enemies[j]) ==>
      !r.enemies[j].active && r.player == Helicopters.Damaged(w.player, RAM_DAMAGE) &&
      |r.particles| == |w.particles| + RAM_BURST &&
      (r.state == GameOver <==> w.state == GameOver || !r.player.isAlive)
    ensures !Hits(PlayerBox(w), w.enemies[j]) ==> r == w
    ensures forall k :: 0 <= k < |w.enemies| && k != j ==> r.enemies[k] == w.enemies[k]
    ensures r == w.(player := r.player, enemies := r.enemies, particles := r.particles, randCalls := r.randCalls,
                    state := r.state, highScore := r.highScore, saved := r.saved)
    ensures r.player.x == w.player.x && r.player.y == w.player.y
    ensures r.state == w.state || r.state == GameOver
    ensures HighScoreKept(w, r)
  {
    var e := w.enemies[j];
    if !Hits(PlayerBox(w), e) then w
    else
      var hurt := w.(player := Helicopters.Damaged(w.player, RAM_DAMAGE), enemies := w.enemies[j := Enemies.Deactivated(e)]);
      var boom := ExplodeAtEnemy(hurt, Enemies.Deactivated(e), RAM_BURST);
      if boom.player.isAlive then boom else GameOverAt(boom)
  }

  /** The ram pass from enemy j on: it keeps going after the craft dies, and
      every enemy it reaches that the craft's box hits is retired. */
  function RamFrom(w: World, j: int): (r: World)
    requires 0 <= j <= |w.enemies|
    ensures |r.enemies| == |w.enemies|
    ensures forall k :: j <= k < |w.enemies| && Hits(PlayerBox(w), w.enemies[k]) ==> !r.enemies[k].active
    ensures forall k :: 0 <= k < |w.enemies| && !(j <= k && Hits(PlayerBox(w), w.enemies[k])) ==> r.enemies[k] == w.enemies[k]
    ensures r == w.(player := r.player, enemies := r.enemies, particles := r.particles, randCalls := r.randCalls,
                    state := r.state, highScore := r.highScore, saved := r.saved)
    ensures r.player.x == w.player.x && r.player.y == w.player.y
    ensures r.state == w.state || r.state == GameOver
    ensures Helicopters.Sound(w.player) ==> Helicopters.Sound(r.player)
    ensures AliveWhilePlaying(w) ==> AliveWhilePlaying(r)
    ensures HighScoreKept(w, r)
    decreases |w.enemies| - j
  {
    if j == |w.enemies| then w
    else RamFrom(RamOne(w, j), j + 1)
  }

  // ---------------------------------------------------------------------
  // The craft against obstacles and terrain

  /** A crash: 100 damage, 25 particles at the craft, game over. */
  function Crash(w: World): (r: World)
    ensures r.state == GameOver
    ensures Helicopters.Sound(w.player) ==> Helicopters.Sound(r.player) && !r.player.isAlive
    ensures r.player.x == w.player.x && r.player.y == w.player.y
    ensures |r.particles| == |w.particles| + CRASH_BURST
    ensures r == w.(player := r.player, particles := r.particles, randCalls := r.randCalls,
                    state := r.state, highScore := r.highScore, saved := r.saved)
    ensures HighScoreKept(w, r)
  {
    var hurt := w.(player := Helicopters.Damaged(w.player, CRASH_DAMAGE));
    GameOverAt(Explode(hurt, w.player.x + 25.0, w.player.y + 15.0, CRASH_BURST))
  }

  /** Obstacle k against the craft. Obstacles are not retired by a crash. */
  function CrashOne(w: World, k: int): (r: World)
    requires 0 <= k < |w.obstacles|
    ensures r == w.(player := r.player, particles := r.particles, randCalls := r.randCalls,
                    state := r.state, highScore := r.highScore, saved := r.saved)
    ensures w.obstacles[k].active && CheckCollision(PlayerBox(w), Obstacles.Bounds(w.obstacles[k])) ==>
      r.state == GameOver && |r.particles| == |w.particles| + CRASH_BURST
    ensures !(w.obstacles[k].active && CheckCollision(PlayerBox(w), Obstacles.Bounds(w.obstacles[k]))) ==> r == w
  {
    var o := w.obstacles[k];
    if o.active && CheckCollision(PlayerBox(w), Obstacles.Bounds(o)) then Crash(w) else w
  }

  /** The obstacle pass from obstacle k on: any active obstacle the craft's
      box hits ends the game, whatever health was left. */
  function CrashFrom(w: World, k: int): (r: World)
    requires 0 <= k <= |w.obstacles|
    ensures r == w.(player := r.player, particles := r.particles, randCalls := r.randCalls,
                    state := r.state, highScore := r.highScore, saved := r.saved)
    ensures r.player.x == w.player.x && r.player.y == w.player.y
    ensures r.state == w.state || r.state == GameOver
    ensures Helicopters.Sound(w.player) ==> Helicopters.Sound(r.player)
    ensures AliveWhilePlaying(w) && Helicopters.Sound(w.player) ==> AliveWhilePlaying(r)
    ensures w.state == GameOver && Helicopters.Sound(w.player) && !w.player.isAlive ==> !r.player.isAlive
    ensures HighScoreKept(w, r)
    decreases |w.obstacles| - k
  {
    if k == |w.obstacles| then w
    else CrashFrom(CrashOne(w, k), k + 1)
  }

  /** Any active obstacle from k on that the craft's box hits ends the game,
      and a sound craft is then dead. */
  lemma {:induction false} ObstacleEndsGame(w: World, k: int, m: int)
    requires 0 <= k <= m < |w.obstacles|
    requires w.obstacles[m].active && CheckCollision(PlayerBox(w), Obstacles.Bounds(w.obstacles[m]))
    ensures CrashFrom(w, k).state == GameOver
    ensures Helicopters.Sound(w.player) ==> !CrashFrom(w, k).player.isAlive
    decreases m - k
  {
    var next := CrashOne(w, k);
    var o := w.obstacles[k];
    var hit := o.active && CheckCollision(PlayerBox(w), Obstacles.Bounds(o));
    assert next == if hit then Crash(w) else w;
    if k < m {
      assert next.obstacles == w.obstacles && next.player.x == w.player.x && next.player.y == w.player.y;
      assert PlayerBox(next) == PlayerBox(w);
      ObstacleEndsGame(next, k + 1, m);
    } else {
      assert hit && next.state == GameOver;
    }
  }

  /** Terrain::checkCollision on the craft's box: a hit ends the game. */
  function GroundPhase(w: World): (r: World)
    ensures Terrains.Collides(w.terrain, PlayerBox(w)) ==> r == Crash(w)
    ensures !Terrains.Collides(w.terrain, PlayerBox(w)) ==> r == w
  {
    if Terrains.Collides(w.terrain, PlayerBox(w)) then Crash(w) else w
  }

  // ---------------------------------------------------------------------
  // Score and cleanup

  /** The distance grows by 0.1 and the score is recomputed from it and the
      kills, overwriting the points added during the bullet pass. */
  function ScorePhase(w: World): (r: World)
    ensures r.distance == w.distance + DISTANCE_STEP
    ensures r.score == Trunc(r.distance) + KILL_POINTS * w.kills
    ensures r == w.(distance := r.distance, score := r.score)
  {
    var d := w.distance + DISTANCE_STEP;
    w.(distance := d, score := Trunc(d) + KILL_POINTS * w.kills)
  }

  /** cleanupEntities: each list keeps its active entities, in order. */
  function CleanupPhase(w: World): (r: World)
    ensures r == w.(bullets := r.bullets, enemies := r.enemies, obstacles := r.obstacles, particles := r.particles)
    ensures |r.bullets| <= |w.bullets| && |r.enemies| <= |w.enemies|
    ensures |r.obstacles| <= |w.obstacles| && |r.particles| <= |w.particles|
  {
    w.(bullets := Keep(w.bullets, Bullets.IsActive),
       enemies := Keep(w.enemies, Enemies.IsActive),
       obstacles := Keep(w.obstacles, Obstacles.IsActive),
       particles := Keep(w.particles, Particles.IsActive))
  }

  /** After the cleanup each list holds exactly the active entities it held
      before, and nothing else changed. */
  lemma CleanupKeepsExactlyActive(w: World)
    ensures var r := CleanupPhase(w);
      (forall b :: b in r.bullets <==> b in w.bullets && b.active) &&
      (forall e :: e in r.enemies <==> e in w.enemies && e.active) &&
      (forall o :: o in r.obstacles <==> o in w.obstacles && o.active) &&
      (forall p :: p in r.particles <==> p in w.particles && p.active) &&
      r == w.(bullets := r.bullets, enemies := r.enemies, obstacles := r.obstacles, particles := r.particles)
  {
    KeepExactly(w.bullets, Bullets.IsActive);
    KeepExactly(w.enemies, Enemies.IsActive);
    KeepExactly(w.obstacles, Obstacles.IsActive);
    KeepExactly(w.particles, Particles.IsActive);
  }

  // ---------------------------------------------------------------------
  // The frame

  /** Everything up to the collision passes. */
  function Advance(w: World, keys: Held): (r: World)
    requires Terrains.Covering(w.terrain, SCREEN_WIDTH)
    ensures r.state == w.state && r.running == w.running && r.highScore == w.highScore && r.saved == w.saved
    ensures r.score == w.score && r.kills == w.kills && r.distance == w.distance
    ensures |r.bullets| >= |w.bullets| && |r.enemies| >= |w.enemies| && |r.obstacles| >= |w.obstacles|
  {
    ObstacleSpawnPhase(EnemySpawnPhase(MovePhase(TerrainPhase(PlayerPhase(w, keys)))))
  }

  /** The four collision passes, in the source's priority order. */
  function Resolve(w: World): (r: World)
    ensures r == w.(player := r.player, bullets := r.bullets, enemies := r.enemies, particles := r.particles,
                    kills := r.kills, score := r.score, randCalls := r.randCalls,
                    state := r.state, highScore := r.highScore, saved := r.saved)
    ensures r.state == w.state || r.state == GameOver
    ensures r.kills >= w.kills && r.score == w.score + KILL_POINTS * (r.kills - w.kills)
  {
    GroundPhase(CrashFrom(RamFrom(BulletsFrom(w, 0), 0), 0))
  }

  /** Game::update: nothing happens unless the game is being played. */
  function Frame(w: World, keys: Held): (r: World)
    requires w.state == Playing ==> Terrains.Covering(w.terrain, SCREEN_WIDTH)
    ensures w.state != Playing ==> r == w
  {
    if w.state != Playing then w
    else CleanupPhase(ScorePhase(Resolve(Advance(w, keys))))
  }

  /** High-score bookkeeping composes across passes that leave the score
      alone and never leave GAME_OVER. */
  lemma HighScoreChain(a: World, b: World, c: World)
    requires HighScoreKept(a, b) && HighScoreKept(b, c)
    requires b.score == a.score && (b.state == GameOver ==> c.state == GameOver)
    ensures HighScoreKept(a, c)
  {
  }

  /** The collision passes record the high score at most once, against the
      score the bullet pass left. */
  lemma ResolveHighScore(w: World)
    requires Bookkept(w)
    ensures var s := BulletsFrom(w, 0);
      var r := Resolve(w);
      HighScoreKept(s, r) && s.highScore == w.highScore && s.saved == w.saved && Bookkept(r)
  {
    var s := BulletsFrom(w, 0);
    assert s.highScore == w.highScore && s.saved == w.saved;
    CrashesHighScore(s);
  }

  /** The ram, obstacle and terrain passes record the high score at most once. */
  lemma CrashesHighScore(s: World)
    requires Bookkept(s)
    ensures var r := GroundPhase(CrashFrom(RamFrom(s, 0), 0));
      HighScoreKept(s, r) && Bookkept(r)
  {
    var rammed := RamFrom(s, 0);
    var crashed := CrashFrom(rammed, 0);
    var r := GroundPhase(crashed);
    assert HighScoreKept(crashed, r) && r.score == crashed.score;
    PassesChain(s, rammed, crashed, r);
  }

  /** Three passes that leave the score alone and never leave GAME_OVER
      record the high score at most once between them. */
  lemma PassesChain(a: World, b: World, c: World, d: World)
    requires HighScoreKept(a, b) && HighScoreKept(b, c) && HighScoreKept(c, d)
    requires a.score == b.score == c.score
    requires b.state == a.state || b.state == GameOver
    requires c.state == b.state || c.state == GameOver
    requires d.state == c.state || d.state == GameOver
    requires Bookkept(a)
    ensures HighScoreKept(a, d) && Bookkept(d)
  {
    HighScoreChain(a, b, c);
    HighScoreChain(a, c, d);
  }

  /** Only the bullet pass scores, 100 per kill. */
  lemma ResolveScore(w: World)
    ensures var s := BulletsFrom(w, 0);
      var r := Resolve(w);
      r.score == s.score && r.kills == s.kills && r.kills >= w.kills &&
      r.score == w.score + KILL_POINTS * (r.kills - w.kills)
  {
  }

  /** The craft stays sound, and a craft that is still playing is alive. */
  lemma ResolveCraft(w: World)
    requires Helicopters.Sound(w.player) && AliveWhilePlaying(w)
    ensures Helicopters.Sound(Resolve(w).player) && AliveWhilePlaying(Resolve(w))
  {
  }

  /** The collision passes leave the terrain, the obstacles, the distance,
      the timers and the running flag alone. */
  lemma ResolveFrame(w: World)
    ensures var r := Resolve(w);
      r == w.(player := r.player, bullets := r.bullets, enemies := r.enemies, particles := r.particles,
              kills := r.kills, score := r.score, randCalls := r.randCalls,
              state := r.state, highScore := r.highScore, saved := r.saved)
  {
  }

  /** What the invariant needs of a world after the collision passes for
      the score update and the cleanup to restore it. */
  ghost predicate Settleable(v: World)
  {
    Helicopters.Sound(v.player) && AliveWhilePlaying(v) && Bookkept(v) &&
    (v.state == Playing || v.state == GameOver) &&
    0 <= v.enemyTimer <= ENEMY_SPAWN_DELAY && 0 <= v.obstacleTimer <= OBSTACLE_SPAWN_DELAY &&
    Terrains.Covering(v.terrain, SCREEN_WIDTH) &&
    (forall o :: o in v.obstacles ==> Obstacles.InBand(o)) &&
    0.0 <= v.distance && 0 <= v.kills
  }

  /** The movement and spawning phases of a playing frame. */
  lemma AdvanceFacts(w: World, keys: Held)
    requires Inv(w) && w.state == Playing
    ensures var a := Advance(w, keys);
      Helicopters.Sound(a.player) && a.player.isAlive && a.state == Playing && Bookkept(a) &&
      0 <= a.enemyTimer <= ENEMY_SPAWN_DELAY && 0 <= a.obstacleTimer <= OBSTACLE_SPAWN_DELAY &&
      Terrains.Covering(a.terrain, SCREEN_WIDTH) &&
      (forall o :: o in a.obstacles ==> Obstacles.InBand(o)) &&
      a.score == w.score && a.kills == w.kills && a.distance == w.distance &&
      a.highScore == w.highScore && a.saved == w.saved
  {
    var w1 := PlayerPhase(w, keys);
    var w2 := TerrainPhase(w1);
    var w3 := MovePhase(w2);
    MoveKeepsBands(w2.obstacles);
    var w4 := EnemySpawnPhase(w3);
    var w5 := ObstacleSpawnPhase(w4);
    SpawnKeepsBands(w4);
    assert w5.player == w1.player && w5.terrain == w2.terrain;
  }

  /** The score update and the cleanup restore the invariant. */
  lemma SettleKeepsInv(v: World)
    requires Settleable(v)
    ensures Inv(CleanupPhase(ScorePhase(v)))
  {
    var scored := ScorePhase(v);
    var r := CleanupPhase(scored);
    CleanupKeepsExactlyActive(scored);
  }

  /** Every frame keeps the invariant: a sound craft, alive while playing,
      bounded spawn timers, a covering terrain, only active entities, every
      obstacle in its band, the score equal to the truncated distance plus
      100 per kill, and the saved scores ending with the high score. */
  lemma FrameKeepsInv(w: World, keys: Held)
    requires Inv(w)
    ensures Inv(Frame(w, keys))
  {
    if w.state == Playing {
      var a := Advance(w, keys);
      AdvanceFacts(w, keys);
      ResolveHighScore(a);
      ResolveScore(a);
      ResolveCraft(a);
      ResolveFrame(a);
      var v := Resolve(a);
      assert Settleable(v);
      SettleKeepsInv(v);
    }
  }

  /** The high score is compared with the score before the end-of-frame
      recomputation: the score at the start of the frame plus 100 per kill
      in it, without this frame's distance step. Either nothing changes, or
      the game ended and that score, above the old high score, became the
      high score and was saved once. */
  lemma FrameHighScore(w: World, keys: Held)
    requires Inv(w) && w.state == Playing
    ensures var r := Frame(w, keys);
      var s := w.score + KILL_POINTS * (r.kills - w.kills);
      (r.highScore == w.highScore && r.saved == w.saved) ||
      (r.state == GameOver && w.highScore < s == r.highScore && r.saved == w.saved + [s])
  {
    var a := Advance(w, keys);
    AdvanceFacts(w, keys);
    ResolveHighScore(a);
    ResolveScore(a);
    var b := BulletsFrom(a, 0);
    var v := Resolve(a);
    var r := CleanupPhase(ScorePhase(v));
    assert r == Frame(w, keys);
    assert r.kills == v.kills && r.highScore == v.highScore && r.saved == v.saved && r.state == v.state;
    assert b.score == w.score + KILL_POINTS * (r.kills - w.kills);
    assert HighScoreKept(b, v);
  }
}
