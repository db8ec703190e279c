# Helicopter side-scroller: a Dafny model of the simulation engine

This project models the simulation core of a frame-stepped SDL helicopter
game and proves properties of it. The core covers:

- **Collision geometry.** Integer boxes (`SDL_Rect`) with a strict-overlap
  test, an inclusive point test and the overlap rectangle. Module
  `CollisionDetector`.
- **The terrain corridor.** Integer samples `(x, groundY, ceilingY)` spaced
  10 pixels apart. Each tick they shift left, samples past x = -20 are
  dropped, and fresh samples from a three-sine noise generator are appended
  at the right margin. Module `Terrains`; class `Terrain` updates its point
  buffer in place.
- **The player's craft.** Tap-impulse thrust against gravity, clamped
  vertical speed and position, a 15-frame shooting cooldown, and clamped
  health. Module `Helicopters`; class `Helicopter`.
- **Enemies, obstacles, bullets and particles.** Modules `Enemies`,
  `Obstacles`, `Bullets` and `Particles`. Each has an active flag, a fixed
  drift, and a rule that retires it. Enemies have three vertical behaviours.
  Moving-vertical obstacles bounce between y = 100 and y = 600. Bullets
  retire past x = 1400, particles after 60 ticks.
- **The screen state machine.** Menu, playing, paused and game over, driven
  by key presses. Module `GameFlow`.
- **One frame of `Game::update`.** The phases run in the source's order:
  - the craft;
  - the terrain;
  - the entity updates;
  - the two spawn timers;
  - the four collision passes (bullets against enemies, the craft against
    enemies, obstacles, then terrain);
  - the score recomputation;
  - the order-preserving removal of inactive entities.

  Also modelled: `resetGame`, `createExplosion`, `spawnEnemy` and
  `spawnObstacle`. Modules `Worlds` and `Frames` define these as functions
  on a `World` value. Class `Games.Game` implements them as methods that
  update its fields in place. Each method's postcondition ties
  `Snapshot()` to the matching function. Module `Compaction` models the
  erase/remove_if idiom.

The main results are these:

- **Every frame keeps the game invariant** (`Frames.FrameKeepsInv`). The
  invariant says:
  - the craft is sound, and alive while the game is playing or paused;
  - the spawn timers stay within their delays;
  - the terrain covers the screen;
  - every stored entity is active, and every obstacle is inside its bounce
    band;
  - the score equals the truncated distance plus 100 per kill;
  - the last value written to the high-score file is the high score.
- **The high score is checked against the score before the end-of-frame
  recomputation** (`Frames.FrameHighScore`). That score is the frame's
  starting score plus 100 per kill in the frame, without this frame's
  distance step.
- **The collision passes keep running after the craft dies in a frame.**
  Every enemy that the craft's box hits is retired (`Frames.RamFrom`).
  Every obstacle that box hits ends the game (`Frames.ObstacleEndsGame`).

External inputs enter the model as follows:

- **`std::sin`** is the parameter `sin`. Properties that need
  `-1 <= sin(t) <= 1` assume it as `Sine.SineBounded`.
- **`rand()`** is the stream `rand: nat -> nat` of values it returns after
  the terrain constructor reseeds the generator. `randCalls` counts the
  values used so far.
  - The terrain seed uses one value.
  - Each enemy spawn uses two, each obstacle spawn three, and each
    explosion particle four.
- **The keyboard.** Its state at the start of `update` is the `Held` value
  `keys`. Polled events are a sequence of `Event`s.
- **The high-score file.** Writes by `saveHighScore` are recorded in the
  ghost sequence `saved`. The value `loadHighScore` reads is the
  constructor parameter `storedHighScore`.

Floats are modelled as mathematical reals. Every `static_cast<int>` is the
truncation `CollisionDetector.Trunc`.

## Model

| member | source | states |
|---|---|---|
| CollisionDetector.Trunc | src/Helicopter.cpp:158-160 | the integer cast of a position rounds toward zero |
| CollisionDetector.CheckCollision | src/CollisionDetector.cpp:5-24 | boxes collide iff each one starts strictly before the other ends, on both axes |
| CollisionDetector.GetOverlap | src/CollisionDetector.cpp:38-45 | a point lies in the overlap iff it lies in both boxes (inclusive edges) |
| CollisionDetector.CollisionSymmetric | src/CollisionDetector.cpp:5-24 | the collision test is symmetric |
| CollisionDetector.TouchingBoxesDoNotCollide | src/CollisionDetector.cpp:18-21 | boxes that only share an edge never collide |
| CollisionDetector.SelfCollision | src/CollisionDetector.cpp:18-23 | a box collides with itself iff it has positive width and height |
| CollisionDetector.CornersInside | src/CollisionDetector.cpp:26-29 | the point test is inclusive: all four corners of a box with non-negative extent are inside it |
| CollisionDetector.PointInRect | src/CollisionDetector.cpp:26-29 | the point test is inclusive on all four edges of a box with non-negative extent, and a point beyond any edge is outside |
| CollisionDetector.OverlapSymmetric | src/CollisionDetector.cpp:38-45 | the overlap of a and b is the overlap of b and a |
| CollisionDetector.OverlapSelf | src/CollisionDetector.cpp:38-45 | the overlap of a box with itself is the box |
| CollisionDetector.OverlapInsideBoth | src/CollisionDetector.cpp:38-45 | for colliding boxes of positive extent, the overlap has positive extent and lies inside both |
| CollisionDetector.DegenerateOverlap | src/CollisionDetector.cpp:38-45 | without positive extents, colliding boxes can have an overlap of negative width |
| Bullets.NewBullet | src/Bullet.cpp:3-5 | a new bullet is active at its start position |
| Bullets.Updated | src/Bullet.cpp:7-14 | x grows by 12 and y is unchanged, whether or not the bullet is active; it is retired once x passes 1400 and never reactivated |
| Bullets.Deactivated | include/Bullet.h:22 | deactivate clears the flag and keeps the position |
| Bullets.Bounds | src/Bullet.cpp:25-27 | the box is the truncated position with size 10 x 4 |
| Bullets.Flight | src/Bullet.cpp:7-14 | after n ticks a bullet has moved 12n right, and is active iff it was and has not passed 1400 |
| Particles.NewParticle | src/Particle.cpp:4-7 | a new particle is active with lifetime 0 and the given position, velocity and colour |
| Particles.Updated | src/Particle.cpp:9-18 | the position moves by the old velocity, then velocityY grows by 0.2 while velocityX and the colour are kept and lifetime grows by 1; the particle is active afterwards iff it was and its lifetime is below 60 |
| Particles.Ageing | src/Particle.cpp:9-18 | after n ticks lifetime grew by n and velocityY by 0.2n; the particle is active iff it was and its lifetime stayed below 60 |
| Particles.FreshParticleLifespan | src/Particle.cpp:9-18 | a fresh particle is active after 59 ticks and inactive after 60 |
| Particles.ExpiredStaysExpired | src/Particle.cpp:15-17 | an inactive particle stays inactive |
| Enemies.NewEnemy | src/Enemy.cpp:4-7 | a new enemy is active with health 30 and timeAlive 0 |
| Enemies.Updated | src/Enemy.cpp:9-39 | an inactive enemy is unchanged; an active one drifts 2 left and is retired once x < -40; stationary enemies keep their y, charging ones step 1.5 toward the player outside a 10-pixel dead zone, sine-wave ones sit at startY + sin(timeAlive + 0.1) * 50 and so stay within 50 of their start height; no update reactivates |
| Enemies.Steered | src/Enemy.cpp:14-33 | per type: stationary keeps y; sine-wave stays within 50 of its start height when sin is in [-1, 1]; charging moves 1.5 up exactly when the player is more than 10 below it, 1.5 down exactly when more than 10 above, and otherwise stays |
| Enemies.Damaged | src/Enemy.cpp:65-70 | health drops by the full damage without clamping; the enemy is active afterwards iff it was and its health is positive; position, kind, start height and age are kept |
| Enemies.Deactivated | include/Enemy.h:33 | deactivate clears the flag only: position, health, kind, start height and age are kept |
| Enemies.Bounds | src/Enemy.cpp:72-74 | the box is the truncated position with size 40 x 30 |
| Enemies.CumulativeDamage | src/Enemy.cpp:65-70 | a series of hits lowers health by their sum, and retires the enemy once the sum reaches its health |
| Enemies.TwoHitsDestroy | src/Enemy.cpp:65-70 | a fresh enemy survives one 15-point hit and is destroyed by the second |
| Enemies.ChargingClosesIn | src/Enemy.cpp:24-31 | outside the dead zone a charging enemy gets exactly 1.5 closer to the player's height |
| Obstacles.NewObstacle | src/Obstacle.cpp:4-11 | a new obstacle is active at its start point, remembering its start height; its vertical speed is 2 for the moving-vertical kind and 0 otherwise |
| Obstacles.Updated | src/Obstacle.cpp:13-41 | an inactive obstacle is unchanged; an active one drifts 3 left and is retired once x < -width; size, kind and start height never change; only the moving-vertical kind moves vertically, and it reverses exactly when the moved y is at or beyond 100 or 600 |
| Obstacles.Bounds | src/Obstacle.cpp:67-69 | the box is the truncated position with the obstacle's own size |
| Obstacles.SpawnedInBand | src/Obstacle.cpp:4-11 | an obstacle created between heights 100 and 600 starts in its bounce band |
| Obstacles.UpdateKeepsBand | src/Obstacle.cpp:24-30 | each tick keeps a moving-vertical obstacle's speed at plus or minus 2, within [98, 602], heading back toward the band |
| Helicopters.Spawned | src/Helicopter.cpp:6-9 | a new craft is sound and alive, with full health, zero speed and no cooldown |
| Helicopters.ClampSpeed | src/Helicopter.cpp:24 | the speed is clamped to [-8, 10] and unchanged inside that range |
| Helicopters.Fly | src/Helicopter.cpp:11-52 | a dead craft changes nothing and fires nothing; the new speed v is -1.2 + 0.5 under thrust and the old speed + 0.5 otherwise, clamped to [-8, 10]; y moves to y + v when that lies in [0, 690], otherwise it is clamped to 0 or 690 and the speed becomes 0; at most one bullet is fired, exactly when shooting with a cooldown that reaches 0, leaving from x + 50 at the unclamped y + v + 15, and the cooldown then restarts at 15; without a shot a living craft's cooldown counts down by 1 and stays at 0 once there; soundness is kept |
| Helicopters.Damaged | src/Helicopter.cpp:140-146 | health drops by the damage and is clamped at 0, where the craft dies; otherwise the alive flag is unchanged |
| Helicopters.Bounds | src/Helicopter.cpp:158-160 | the box is the truncated position with size 50 x 30 |
| Helicopters.NoShotWhileCooling | src/Helicopter.cpp:34-41 | fewer updates than the remaining cooldown fire nothing |
| Helicopters.ShotsFifteenApart | src/Helicopter.cpp:34-41 | the 14 updates after a shot fire nothing |
| Helicopters.HeldShootKeyRate | src/Helicopter.cpp:34-41 | holding the shoot key from a ready state fires exactly twice in 16 updates |
| Helicopters.CoolDown | src/Helicopter.cpp:34-36 | over n updates, with n below the cooldown, the cooldown drops by exactly n and nothing is fired |
| Helicopters.ShotsSplit | src/Helicopter.cpp:11-52 | shots and state over two runs of updates compose |
| Helicopters.Helicopter.constructor | src/Helicopter.cpp:6-9 | the constructed craft is the spawned state |
| Helicopters.Helicopter.Update | src/Helicopter.cpp:11-52 | the fields become Fly's new state and Fly's bullets are appended to the caller's list |
| Helicopters.Helicopter.TakeDamage | src/Helicopter.cpp:140-146 | the fields become Damaged of the old state, and non-negative damage keeps a sound craft sound |
| Helicopters.Helicopter.Reset | src/Helicopter.cpp:148-156 | the fields become the spawned state at the given position, which is sound |
| Helicopters.Helicopter.GetBounds | src/Helicopter.cpp:158-160 | the box of the current state |
| Terrains.HeightField.Noise | src/Terrain.cpp:23-27 | the three-sine noise stays within [-160, 160] |
| Terrains.HeightField.Height | src/Terrain.cpp:29-37 | ceilings lie in [32, 128] and ground in [screenHeight - 168, screenHeight - 72] |
| Terrains.GapNeverCloses | src/Terrain.cpp:29-37 | at every x the ground is at least screenHeight - 296 below the ceiling |
| Terrains.SamplesShape | src/Terrain.cpp:14-20 | the generation loop's samples are at from, from + 10, ..., ending at the last one below the limit |
| Terrains.InitialPoints | src/Terrain.cpp:140-146 | after construction or reset, sample k is the generated sample at x = 10k, the last one lies just below screenWidth + 100, and the buffer covers the screen |
| Terrains.InitialShape | src/Terrain.cpp:140-146 | the facts InitialPoints states, about the samples from 0 |
| Terrains.GeneratePoints | src/Terrain.cpp:14-20 | the push_back loop builds exactly InitialPoints |
| Terrains.Shifted | src/Terrain.cpp:41-43 | every sample moves left by speed, keeping its heights |
| Terrains.DropLeftSuffix | src/Terrain.cpp:46-48 | the front-erase loop removes exactly the leading samples left of -20 |
| Terrains.DropLeft | src/Terrain.cpp:46-48 | the erase loop never grows the buffer, and what remains starts at or right of -20 |
| Terrains.RefillGrows | src/Terrain.cpp:50-56 | the append loop keeps its input as a prefix and reaches screenWidth + 100; each new sample is 10 after the previous, generated at its own x, which is below screenWidth + 110 |
| Terrains.Refill | src/Terrain.cpp:50-56 | the append loop keeps its input as a prefix and ends with a sample at or beyond screenWidth + 100 |
| Terrains.ShiftedSpaced | src/Terrain.cpp:41-43 | shifting keeps the samples exactly 10 apart |
| Terrains.SuffixSpaced | src/Terrain.cpp:46-48 | dropping from the front keeps the samples exactly 10 apart |
| Terrains.RefillSpaced | src/Terrain.cpp:50-56 | appending keeps the samples exactly 10 apart |
| Terrains.ScrollKeepsSpacing | src/Terrain.cpp:39-57 | a whole update keeps the samples exactly 10 apart |
| Terrains.DropShifted | src/Terrain.cpp:41-48 | the samples that survive the drop are the old ones moved left by speed, and the dropped ones had moved past -20 |
| Terrains.RefillPrefix | src/Terrain.cpp:50-56 | appending leaves every existing sample in place |
| Terrains.ScrollShiftsSurvivors | src/Terrain.cpp:39-57 | after an update the surviving old samples come first, each moved left by speed with unchanged heights |
| Terrains.Scrolled | src/Terrain.cpp:39-57 | after an update the first sample is at or right of -20 and the last at or right of screenWidth + 100; survivors are shifted by exactly speed, new samples are generated at their own x; a spaced buffer comes out covering |
| Terrains.ShiftAll | src/Terrain.cpp:41-43 | the in-place shift loop computes Shifted |
| Terrains.DropFront | src/Terrain.cpp:46-48 | the front-erase loop computes DropLeft |
| Terrains.RefillTo | src/Terrain.cpp:50-56 | the append loop computes Refill |
| Terrains.CoveringCanScroll | src/Terrain.cpp:46-50 | a covering buffer is non-empty after the drop, so the unchecked back() read is safe |
| Terrains.UncoveredBoxIsSafe | src/Terrain.cpp:122 | a box whose span covers no sample never collides, whatever its height |
| Terrains.BoxInGapIsSafe | src/Terrain.cpp:119-134 | a box strictly between ceiling and ground at every covered sample does not collide |
| Terrains.CeilingContactCollides | src/Terrain.cpp:122-126 | a box reaching a covered sample's ceiling collides |
| Terrains.Collides | src/Terrain.cpp:119-134 | an empty buffer never collides; otherwise the box collides iff the first sample blocks it or the rest collide, the order of the early-return scan |
| Terrains.Terrain.constructor | src/Terrain.cpp:7-21 | the seed is the first rand() value and the buffer is InitialPoints for it |
| Terrains.Terrain.Reset | src/Terrain.cpp:136-147 | the seed is the given rand() value and the buffer is regenerated as InitialPoints |
| Terrains.Terrain.Update | src/Terrain.cpp:39-57 | the buffer becomes Scrolled of the old one and the terrain invariant is kept |
| Terrains.Terrain.CheckCollision | src/Terrain.cpp:119-134 | the result is true iff some sample in the box's span has the box reaching its ceiling or its ground |
| GameFlow.OnKey | src/Game.cpp:64-97 | the key table: from the menu, Space/Return starts a reset session and Escape stops; Escape/P toggle playing and paused; after game over, Space/Return starts a reset session and Escape returns to the menu; other keys change nothing |
| GameFlow.StartIsTheOnlyReset | src/Game.cpp:64-97 | a reset happens iff Space or Return is pressed on the menu or game-over screen |
| GameFlow.PauseRoundTrip | src/Game.cpp:76-86 | pausing and resuming with the same key returns to playing |
| GameFlow.OnlyMenuEscapeStops | src/Game.cpp:64-97 | a key stops the loop iff it is Escape on the menu |
| Compaction.KeepExactly | src/Game.cpp:370-422 | cleanup keeps every active entity with its multiplicity and nothing else |
| Compaction.KeepConcat | src/Game.cpp:370-422 | kept entities keep their relative order |
| Compaction.KeepAllLive | src/Game.cpp:370-422 | a list of active entities is left as it is |
| Compaction.KeepCountUpdate | src/Game.cpp:158-163 | the number of active enemies falls by one exactly when a hit deactivates one |
| Compaction.Compact | src/Game.cpp:372-382 | the remove_if loop computes Keep |
| Worlds.Spark | src/Game.cpp:362-366 | each explosion particle is fresh at the explosion point with velocity in [-3, 2.9] x [-5, 4.9] and colour red 200-255, green 100-199, blue 0 |
| Worlds.Burst | src/Game.cpp:361-367 | particle k of an explosion is built from rand() values 4k to 4k + 3 |
| Worlds.ExplodeStep | src/Game.cpp:361-367 | one more loop iteration appends one more particle and uses four more rand() values |
| Worlds.Explode | src/Game.cpp:360-368 | createExplosion appends count fresh particles at the point, uses 4 rand() values each, and changes nothing else |
| Worlds.SpawnEnemy | src/Game.cpp:347-351 | one fresh enemy is appended at x = 1280 at a height in [150, 549], using two rand() values |
| Worlds.SpawnObstacle | src/Game.cpp:353-358 | one fresh 30-wide obstacle is appended at x = 1280, height y in [100, 599], size in [40, 139], inside its bounce band, using three rand() values |
| Worlds.EnemyKind | src/Game.cpp:349 | the cast picks the enemy type whose enumerator value is rand() % 3 |
| Worlds.ObstacleKind | src/Game.cpp:356 | the cast picks the obstacle type whose enumerator value is rand() % 3 |
| Worlds.GameOverAt | src/Game.cpp:180-185 | entering game over sets the high score to the larger of it and the score, saving it only when the score is larger |
| Worlds.ResetWorld | src/Game.cpp:424-446 | the four lists are emptied, the craft respawns at (100, 360), the terrain is regenerated from the next rand() value, and statistics and timers are zeroed; state and high score are untouched |
| Worlds.ResetEstablishesInv | src/Game.cpp:424-446 | a reset establishes the game invariant |
| Worlds.Initial | src/Game.cpp:47-53 | after construction the game is running on the menu, with the stored high score and the invariant holding |
| Worlds.OnEvent | src/Game.cpp:60-97 | a quit event clears running in every state; other non-key events change nothing; no event touches the high score |
| Worlds.QuitStops | src/Game.cpp:57-100 | once a quit event is polled the game stops running, whatever follows |
| Worlds.AfterEvents | src/Game.cpp:57-100 | polling a queue of events never restarts a stopped game and never changes the high score |
| Worlds.EventKeepsInv | src/Game.cpp:57-100 | every event keeps the game invariant |
| Worlds.EventsKeepInv | src/Game.cpp:57-100 | a sequence of events keeps the game invariant |
| Frames.PlayerPhase | src/Game.cpp:106-111 | the craft flies with Space/Up as thrust and Space/X as shoot, and its bullets are appended |
| Frames.TerrainPhase | src/Game.cpp:114 | the terrain scrolls and stays covering |
| Frames.MovedBullets | src/Game.cpp:117-119 | every bullet takes one step |
| Frames.MovePhase | src/Game.cpp:116-134 | every bullet, enemy, obstacle and particle takes exactly one step, enemies toward the craft's current position; list lengths and everything else are unchanged |
| Frames.MovedEnemies | src/Game.cpp:122-124 | every enemy takes one step toward the craft's new position |
| Frames.MovedObstacles | src/Game.cpp:127-129 | every obstacle takes one step |
| Frames.MovedParticles | src/Game.cpp:132-134 | every particle takes one step |
| Frames.MoveKeepsBands | src/Game.cpp:127-129 | moving keeps every obstacle in its bounce band |
| Frames.EnemySpawnPhase | src/Game.cpp:137-141 | exactly one enemy is appended iff the incremented timer exceeds 120, and the timer then restarts at 0; the timer stays in [0, 120] |
| Frames.ObstacleSpawnPhase | src/Game.cpp:144-148 | the same rule for obstacles with threshold 90 |
| Frames.SpawnKeepsBands | src/Game.cpp:144-148 | spawning keeps every obstacle in its bounce band |
| Frames.FirstTarget | src/Game.cpp:154-167 | the inner search finds the first active enemy the bullet overlaps, or none |
| Frames.ShootOne | src/Game.cpp:151-169 | an active bullet that hits stops at the first enemy hit, which takes 15 damage; a kill happens only when that enemy is deactivated, and then scores 100 and adds 20 particles |
| Frames.BulletsFrom | src/Game.cpp:151-169 | new kills equal the enemies the pass deactivated, each worth 100 points and 20 particles; nothing is reactivated |
| Frames.BulletsStep | src/Game.cpp:151-169 | the pass is one iteration followed by the rest |
| Frames.RamOne | src/Game.cpp:172-188 | an active enemy overlapping the craft costs it 50 health, is retired whatever its health, adds 15 particles, and ends the game iff the craft dies |
| Frames.RamFrom | src/Game.cpp:172-188 | the pass keeps going after the craft dies: every enemy it reaches that the craft overlaps is retired, and the others are unchanged |
| Frames.Crash | src/Game.cpp:195-202 | a crash costs 100 health, adds 25 particles, ends the game and keeps the high-score bookkeeping |
| Frames.CrashFrom | src/Game.cpp:191-204 | the obstacle pass moves no obstacle, only ends the game, and keeps the high-score bookkeeping |
| Frames.CrashOne | src/Game.cpp:192-203 | an active obstacle the craft's box hits ends the game and adds 25 particles; otherwise nothing changes; obstacles, bullets, enemies, score and timers are never touched |
| Frames.ObstacleEndsGame | src/Game.cpp:191-204 | any active obstacle the craft overlaps ends the game, whatever health was left |
| Frames.GroundPhase | src/Game.cpp:207-216 | touching the terrain crashes the craft; otherwise nothing changes |
| Frames.ScorePhase | src/Game.cpp:219-220 | the distance grows by 0.1 and the score becomes the truncated distance plus 100 per kill |
| Frames.CleanupKeepsExactlyActive | src/Game.cpp:370-422 | each list ends up with exactly its active entities, and nothing else changes |
| Frames.CleanupPhase | src/Game.cpp:370-422 | the cleanup only shortens the four entity lists and changes nothing else |
| Frames.Frame | src/Game.cpp:102-103 | update changes nothing unless the game is being played |
| Frames.HighScoreChain | src/Game.cpp:172-216 | high-score bookkeeping composes across passes that leave the score alone |
| Frames.ResolveHighScore | src/Game.cpp:172-216 | the collision passes record the high score at most once, against the score the bullet pass left |
| Frames.CrashesHighScore | src/Game.cpp:172-216 | the ram, obstacle and terrain passes record the high score at most once |
| Frames.PassesChain | src/Game.cpp:172-216 | three passes that never leave game over record the high score at most once |
| Frames.ResolveScore | src/Game.cpp:151-216 | only the bullet pass scores, 100 per kill |
| Frames.ResolveCraft | src/Game.cpp:172-216 | the collision passes keep the craft sound, and alive while playing |
| Frames.ResolveFrame | src/Game.cpp:151-216 | the collision passes leave terrain, obstacles, distance, timers and the running flag alone |
| Frames.AdvanceFacts | src/Game.cpp:106-148 | movement and spawning keep the craft, timers, terrain and bands sound and leave score and high score alone |
| Frames.Advance | src/Game.cpp:106-148 | movement and spawning leave state, running flag, score, kills, distance and high score alone, and never shorten the bullet, enemy or obstacle lists |
| Frames.Resolve | src/Game.cpp:151-216 | the collision passes change only the craft, bullets, enemies, particles, counters and game-over bookkeeping; the state stays or becomes GAME_OVER; the score grows by exactly 100 per kill |
| Frames.SettleKeepsInv | src/Game.cpp:219-223 | the score update and the cleanup restore the invariant |
| Frames.FrameKeepsInv | src/Game.cpp:102-224 | every frame keeps the game invariant |
| Frames.FrameHighScore | src/Game.cpp:180-220 | the high score is either unchanged or set once, at game over, to the starting score plus 100 per kill, without this frame's distance step |
| Games.Game.constructor | src/Game.cpp:47-53 | the constructed game is Initial and valid |
| Games.Game.HandleEvents | src/Game.cpp:57-100 | the state after polling is AfterEvents of the old state, and validity is kept |
| Games.Game.HandleEvent | src/Game.cpp:60-97 | one loop iteration computes OnEvent |
| Games.Game.ResetGame | src/Game.cpp:424-446 | the state becomes ResetWorld of the old state |
| Games.Game.ClearEntities | src/Game.cpp:426-434 | the four lists are emptied and nothing else changes |
| Games.Game.ReseedTerrain | src/Game.cpp:438 | the terrain is regenerated from the next rand() value |
| Games.Game.ClearStats | src/Game.cpp:441-445 | statistics and timers are zeroed and nothing else changes |
| Games.Game.SpawnEnemy | src/Game.cpp:347-351 | the state becomes Worlds.SpawnEnemy of the old state |
| Games.Game.SpawnObstacle | src/Game.cpp:353-358 | the state becomes Worlds.SpawnObstacle of the old state |
| Games.Game.CreateExplosion | src/Game.cpp:360-368 | the state becomes Explode of the old state |
| Games.Game.AddSpark | src/Game.cpp:362-366 | one particle from the next four rand() values is appended |
| Games.Game.EnterGameOver | src/Game.cpp:180-185 | the state becomes GameOverAt of the old state |
| Games.Game.Crash | src/Game.cpp:195-202 | the state becomes Frames.Crash of the old state |
| Games.Game.CleanupEntities | src/Game.cpp:370-422 | the state becomes CleanupPhase of the old state |
| Games.Game.CleanupBullets | src/Game.cpp:372-382 | the bullet list keeps its active bullets |
| Games.Game.CleanupEnemies | src/Game.cpp:385-395 | the enemy list keeps its active enemies |
| Games.Game.CleanupObstacles | src/Game.cpp:398-408 | the obstacle list keeps its active obstacles |
| Games.Game.CleanupParticles | src/Game.cpp:411-421 | the particle list keeps its active particles |
| Games.Game.MoveEntities | src/Game.cpp:117-134 | the state becomes MovePhase of the old state |
| Games.Game.MoveBullets | src/Game.cpp:117-119 | every bullet is updated |
| Games.Game.MoveEnemies | src/Game.cpp:122-124 | every enemy is updated toward the craft |
| Games.Game.MoveObstacles | src/Game.cpp:127-129 | every obstacle is updated |
| Games.Game.MoveParticles | src/Game.cpp:132-134 | every particle is updated |
| Games.Game.TargetOf | src/Game.cpp:154-167 | the inner loop finds FirstTarget |
| Games.Game.ShootEnemies | src/Game.cpp:151-169 | the state becomes BulletsFrom of the old state |
| Games.Game.ShootBullet | src/Game.cpp:152-167 | one bullet's iteration computes ShootOne |
| Games.Game.StrikeEnemy | src/Game.cpp:158-159 | the bullet is deactivated and the enemy takes 15 damage |
| Games.Game.KillEnemy | src/Game.cpp:161-165 | the destroyed enemy explodes into 20 particles, and the kill count and score rise |
| Games.Game.CountKill | src/Game.cpp:163-164 | the kill count rises by 1 and the score by 100 |
| Games.Game.RamEnemies | src/Game.cpp:172-188 | the state becomes RamFrom of the old state |
| Games.Game.RamEnemy | src/Game.cpp:173-187 | one enemy's iteration computes RamOne |
| Games.Game.RetireEnemy | src/Game.cpp:177-178 | the enemy is deactivated and explodes into 15 particles |
| Games.Game.DeactivateEnemy | src/Game.cpp:177 | only the enemy's flag is cleared |
| Games.Game.CrashIntoObstacles | src/Game.cpp:191-204 | the state becomes CrashFrom of the old state |
| Games.Game.CrashIntoTerrain | src/Game.cpp:207-216 | the state becomes GroundPhase of the old state |
| Games.Game.Update | src/Game.cpp:102-224 | the state becomes Frame of the old state, and validity is kept |
| Games.Game.AdvanceAll | src/Game.cpp:106-148 | the state becomes Advance of the old state |
| Games.Game.FlyPlayer | src/Game.cpp:111 | the state becomes PlayerPhase of the old state |
| Games.Game.ScrollTerrain | src/Game.cpp:114 | the state becomes TerrainPhase of the old state |
| Games.Game.TickEnemySpawn | src/Game.cpp:137-141 | the state becomes EnemySpawnPhase of the old state |
| Games.Game.TickObstacleSpawn | src/Game.cpp:144-148 | the state becomes ObstacleSpawnPhase of the old state |
| Games.Game.ResolveCollisions | src/Game.cpp:151-216 | the state becomes Resolve of the old state |
| Games.Game.AdvanceScore | src/Game.cpp:219-220 | the state becomes ScorePhase of the old state |

## Left out

- Rendering. The `render*` functions, the helicopter's `rotation` tilt and
  the rotor animation are drawing only and change no simulation state.
- SDL setup and teardown, the frame-pacing loop, event polling and keyboard
  reads. Events and held keys are inputs to the model.
- High-score file I/O. `saveHighScore` is a ghost append to `saved`, and
  the value `loadHighScore` reads is a constructor parameter.
- `rand`, `srand` and `time`. The generator is a value stream with a
  position counter. Its values are not constrained, because the model
  applies every `%` range exactly as the source does.
- `std::sin` is an unconstrained parameter. Properties that need its range
  assume it.
- `Obstacle::deactivate` (include/Obstacle.h:32) is never called by the game:
  obstacles only retire by scrolling off screen, which `Obstacles.Updated` models.
- `CollisionDetector::checkCircleCollision` is not used by the simulation
  and uses `sqrt`.
- Floating-point rounding. Positions, speeds and the distance are reals, so
  the model says nothing about `0.1f` accumulation or other rounding.
- 32-bit `int` overflow, including `x + seed` in the terrain noise when the
  seed is close to `RAND_MAX`.
- Unused header members: `thrustPressed`, fonts and `renderText`.
- Entity objects in place. Bullets, enemies, obstacles and particles are
  values held in sequences, and their `update` and `takeDamage` are
  functions returning the new value. The vectors own their entities and
  never share them, so no aliasing is lost. Raw `new`/`delete` ownership is
  not modelled.
- Terrains.Terrain.Update: requires the buffer to be non-empty after the
  front drop, because the source reads `points.back()` unchecked there. The
  covering invariant guarantees this at the game's scroll speed
  (`Terrains.CoveringCanScroll`).
- Games.Game.Update: requires the game invariant, which the constructor
  establishes and every method keeps. It is needed for the terrain
  precondition above.
- Frames.Frame: its own contract states only that a frame outside
  `PLAYING` changes nothing. The per-phase functions and the `Frames`
  lemmas state what a playing frame does.
