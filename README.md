# LEDmeESP32 shooter: entity simulation and scoring

This project models the game logic of a small shooter for a 32×16 LED matrix:
the player's ship, the enemies, the shots, the power-ups, and the `Game` object
that runs one tick of the game per call of `loop`.

- **PlayerShip** (`Player.PlayerShip`). It holds a byte position and a shield.
  `initialize` puts it at (4, 14) with shield 100. `move` takes the position
  the input handler chose and clamps it to column ≤ 31 and row ≤ 15.
  `explode` sets the shield to 0.
- **Enemy** (`Enemies.Enemy`). `initialize(type)` makes it active in a random
  whole column of the top row, with hit points (type+1)×10. `move` descends
  0.5 rows and deactivates it below row 15. `explode` deactivates it and sets
  its hit points to 0.
- **Shot** (`Shots.Shot`). `move` adds the velocity to the position and
  deactivates the shot once it leaves [0,32)×[0,16).
- **PowerUp** (`PowerUps.PowerUp`). `move` descends 0.2 rows and deactivates
  it below row 15.
- **Game** (`Session.Game`). `setup` resets the counters and spawns
  level×difficulty enemies. `loop` moves every entity once and then runs
  `handleCollisions`, `updateScore` and `checkGameOver`. The shot/enemy pass of
  `handleCollisions` scores 100 for every colliding pair. The player/enemy pass
  explodes the player at the first colliding enemy and stops.

Every class has a `State()` function that returns its fields as a datatype
value. Each method is proved against a pure function on those values: `Step`,
`Exploded`, `Moved`, `ScanEnemies`, `ShotPass`, `PlayerPass`, `Tick`. The
properties of the game are lemmas about these functions. Examples: an enemy's
31-move lifetime, a shot's straight flight path, what the collision pass
changes, and the high score being the best score seen.

The firmware leaves both collision tests empty. Here they are parameters: any
predicate on the states of the shot and the enemy, or of the ship and the
enemy. `rand()` is an arbitrary natural number, taken `% 3` for the enemy type
and `% 32` for the column. `handleInput` is also empty; `move` takes the
position it leaves as a parameter.

Two consequences of the collision code are worth knowing. The inner loop of
the shot/enemy pass (Game.cpp:118-124) has no `break`. So a shot that has hit
keeps being tested against the remaining enemies, and one shot can explode
several of them (`Collisions.OneShotHitsSeveral`). A collision between the
player and an enemy calls `explode` (Game.cpp:129), which sets the shield to 0
(mimas.cpp:206-209); there is no partial damage. `Main.cpp` has an older
`PlayerShip::initialize` that sets the shield to 0; the model follows
`mimas.cpp`, which sets it to 100.

The code also has two properties worth knowing. Nothing ever adds a shot or a
power-up: `fire` is empty, and no code creates power-ups. So after `setup`
both vectors stay empty (`Session.SessionAfterSetup`). Also, the entry point
`loop()` runs a statically allocated game and never calls `setup`. Its ship
keeps the zero-initialised shield, so the game-over condition (shield ≤ 0)
holds after every tick (`Session.GameOverWithoutSetup`). On this path
`display.initialize()` never runs either, so the display is never set up.
`updateScore` draws through it before `checkGameOver` is reached; that drawing
is outside the model.

## Model

| member | source | states |
|---|---|---|
| Player.Clamp | mimas.cpp:184-187 | the clamped coordinate is at most the maximum, and a coordinate already in range is kept |
| Player.Moved | mimas.cpp:181-188 | after `move` the ship is at column ≤ 31 and row ≤ 15 for any input; in-range input coordinates are kept; the shield is unchanged |
| Player.Exploded | mimas.cpp:206-209 | `explode` sets the shield to 0 and leaves the position alone |
| Player.ExplodeIdempotent | mimas.cpp:206-209 | exploding twice gives the same ship as exploding once |
| Player.MoveKeepsOnScreenShip | mimas.cpp:181-188 | a ship already on screen, with the input handler leaving it in place, does not move |
| Player.PlayerShip.constructor | Game.cpp:154 | the ship of the statically allocated game starts at (0, 0) with shield 0 |
| Player.PlayerShip.Initialize | mimas.cpp:175-179 | the ship is at (4, 14) with shield 100 |
| Player.PlayerShip.Move | mimas.cpp:181-188 | the new fields are `Moved` of the old ones and the input position |
| Player.PlayerShip.Explode | mimas.cpp:206-209 | the new fields are `Exploded` of the old ones |
| Player.PlayerShip.GetShieldEnergy | mimas.cpp:211-213 | returns the shield |
| Enemies.Step | mimas.cpp:239-247 | an inactive enemy is unchanged; an active one descends exactly 0.5 with x, type and hit points kept, and becomes inactive iff its new row is past 15 |
| Enemies.Exploded | mimas.cpp:262-266 | status and hit points are 0 whatever the prior state; position and type kept |
| Enemies.ExplodeIdempotent | mimas.cpp:262-266 | exploding twice is exploding once |
| Enemies.DescendsWhileOnScreen | mimas.cpp:242-246 | an active enemy whose path stays above row 15 is, after n moves, the same enemy 0.5·n rows lower |
| Enemies.InactiveStaysPut | mimas.cpp:240 | any number of moves leaves an inactive enemy unchanged |
| Enemies.MovesCompose | mimas.cpp:239-247 | m moves followed by n moves are m + n moves |
| Enemies.NeverReactivated | mimas.cpp:240-246 | once inactive, no later move makes an enemy active again |
| Enemies.SpawnedLifetime | mimas.cpp:231-246 | a freshly initialised enemy is active at row 15 after 30 moves and inactive at row 15.5 after 31 |
| Enemies.Enemy.Initialize | mimas.cpp:231-237 | the enemy is active at row 0 in a whole column in [0, 32), with the given type and hit points (type+1)·10 |
| Enemies.Enemy.Move | mimas.cpp:239-247 | the new fields are `Step` of the old ones |
| Enemies.Enemy.Explode | mimas.cpp:262-266 | the new fields are `Exploded` of the old ones |
| Shots.Step | Shot.cpp:24-34 | an inactive shot is unchanged; an active one moves by its velocity and becomes inactive iff it leaves [0,32)×[0,16); the velocity never changes; an active result is on screen; no shot is reactivated |
| Shots.FlightPath | Shot.cpp:25-33 | a shot still active after n moves was active throughout and is at its start plus n times its velocity |
| Shots.InactiveStaysPut | Shot.cpp:25 | any number of moves leaves an inactive shot unchanged |
| Shots.ActiveShotOnScreen | Shot.cpp:31-33 | after at least one move, an active shot lies in [0,32)×[0,16) |
| Shots.Shot.Initialize | Shot.cpp:16-22 | the shot holds the given position and velocity and is active |
| Shots.Shot.Move | Shot.cpp:24-34 | the new fields are `Step` of the old ones |
| Shots.Shot.Deactivate | Game.cpp:121 | only the status changes, to 0 |
| Shots.Shot.IsActive | Shot.cpp:43-45 | true iff the status is 1 |
| PowerUps.Step | PowerUp.cpp:22-30 | an inactive power-up is unchanged; an active one descends exactly 0.2 with x and type kept, and becomes inactive iff its new row is past 15; no power-up is reactivated |
| PowerUps.DriftPath | PowerUp.cpp:22-30 | a power-up still active after n moves was active throughout, has descended 0.2·n with nothing else changed, and (after at least one move) has not passed row 15 |
| PowerUps.InactiveStaysPut | PowerUp.cpp:23 | any number of moves leaves an inactive power-up unchanged |
| PowerUps.PowerUp.Initialize | PowerUp.cpp:15-20 | the power-up holds the given position and type and is active |
| PowerUps.PowerUp.Move | PowerUp.cpp:22-30 | the new fields are `Step` of the old ones |
| PowerUps.PowerUp.IsActive | PowerUp.cpp:39-41 | returns the active flag |
| Collisions.ScanEnemies | Game.cpp:118-124 | one shot's scan keeps the number of enemies |
| Collisions.ScanEffect | Game.cpp:118-124 | the scan lists each enemy at most once, in increasing order; exactly the listed enemies are exploded and the rest untouched; the shot is deactivated iff it hit anything |
| Collisions.ScanHitTest | Game.cpp:118-124 | an enemy is listed iff the collision test holds for it and for the shot as the scan reaches it (deactivated once an earlier enemy was hit) |
| Collisions.OneShotHitsSeveral | Game.cpp:118-124 | with a test that always holds, one active shot explodes two enemies and scores both |
| Collisions.ShotPass | Game.cpp:115-125 | the shot/enemy pass keeps the number of shots and enemies |
| Collisions.PassPairs | Game.cpp:115-125 | every colliding pair names an existing shot that was active when the pass reached it and an existing enemy, and no pair repeats |
| Collisions.PassListed | Game.cpp:115-125 | the pair (i, k) is listed iff shot i was active and its scan, over the enemies as the earlier shots left them, listed enemy k |
| Collisions.PassHitTest | Game.cpp:115-125 | the pair (i, k) is listed, and scored, iff shot i was active and the collision test held for it (as the scan reached enemy k) and for enemy k as the earlier shots left it |
| Collisions.PassShots | Game.cpp:115-125 | a shot in some colliding pair ends deactivated; every other shot is untouched |
| Collisions.PassEnemies | Game.cpp:115-125 | an enemy in some colliding pair ends exploded; every other enemy is untouched |
| Collisions.FirstHit | Game.cpp:127-133 | the result is the first enemy colliding with the player, or none when no enemy collides |
| Collisions.PlayerPass | Game.cpp:127-133 | the player is exploded if some enemy collides with it and untouched otherwise |
| Session.HighScore | Game.cpp:136-139 | the new high score is the larger of score and old high score |
| Session.UpdateScoreIdempotent | Game.cpp:136-139 | a second `updateScore` changes nothing |
| Session.NewEnemyHitPoints | Game.cpp:108 | an enemy made by `spawnEnemies` has 10, 20 or 30 hit points |
| Session.Advance | Game.cpp:55-78 | the movement phase leaves the ship on screen with its shield, keeps the number of enemies, shots and power-ups, and changes nothing else |
| Session.ResolveShots | Game.cpp:115-125 | the shot pass keeps the number of shots and enemies, adds a non-negative multiple of 100 to the score, and changes nothing else |
| Session.ResolvePlayer | Game.cpp:127-133 | the player pass explodes the ship if some enemy collides with it and changes nothing otherwise |
| Session.Tick | Game.cpp:53-86 | one `loop` keeps the vector lengths, level and difficulty; the score never decreases; the high score becomes max(old high score, new score); the ship ends on screen; its shield is kept or 0 |
| Session.TickMovesEachOnce | Game.cpp:53-86 | in one tick each enemy is moved once and possibly exploded, each shot moved once and possibly deactivated, each power-up moved once |
| Session.Run | Game.cpp:153-156 | repeated `loop` calls keep the number of enemies, shots and power-ups, level and difficulty; the score never decreases; after at least one call the ship is on screen |
| Session.RunKeepsRecord | Game.cpp:53-86 | over any sequence of ticks the lengths are kept, the score never decreases, and the high score ends as the best score seen |
| Session.SessionAfterSetup | Game.cpp:36-51 | after `setup`, any number of ticks keeps shots and power-ups empty, keeps one enemy, and keeps the high score equal to the score |
| Session.GameOverWithoutSetup | Game.cpp:153-156 | a game whose ship has zero shield signals game over after every tick |
| Session.Game.constructor | Game.cpp:153-156 | the statically allocated game starts with every field zero and empty vectors |
| Session.Game.Setup | Game.cpp:36-51 | level, difficulty and max level are 1, score and high score are 0, the ship is at its spawn, shots and power-ups are empty, and there is exactly one new enemy, active at row 0 |
| Session.Game.SelectDifficulty | Game.cpp:88-94 | difficulty becomes 1 and nothing else changes |
| Session.Game.SelectLevel | Game.cpp:96-102 | level becomes 1 and nothing else changes |
| Session.Game.SpawnEnemies | Game.cpp:104-111 | exactly level·difficulty new enemies are appended, each active at row 0 with type in {0, 1, 2}; the existing enemies are kept |
| Session.Game.MoveEnemies | Game.cpp:59-62 | every enemy is moved exactly once and nothing else changes |
| Session.Game.MoveShots | Game.cpp:65-70 | every shot is moved exactly once and nothing else changes |
| Session.Game.MovePowerUps | Game.cpp:73-78 | every power-up is moved exactly once and nothing else changes |
| Session.Game.AdvanceAll | Game.cpp:55-78 | the ship and every entity are moved once, as `Advance` describes |
| Session.Game.CollideShot | Game.cpp:116-124 | an inactive shot is skipped; an active one changes the shot, enemies and score as `ScanEnemies` describes, 100 per hit; the other shots are untouched |
| Session.Game.ScanShot | Game.cpp:118-124 | the inner loop leaves the active shot, the enemies and the score as `ScanEnemies` describes, 100 per hit |
| Session.Game.ScoreHit | Game.cpp:119-122 | one collision: the enemy is exploded, the shot deactivated, 100 points scored, and no other enemy changes |
| Session.Game.ResolveShotHits | Game.cpp:115-125 | shots, enemies and score end as `ShotPass` describes, 100 per colliding pair |
| Session.Game.ResolvePlayerHit | Game.cpp:127-133 | the player ends as `PlayerPass` describes, and game over is signalled iff some enemy collides with the player |
| Session.Game.HandleCollisions | Game.cpp:113-134 | the state after both passes is the shot pass followed by the player pass; it reports game over iff an enemy collided with the player |
| Session.Game.UpdateScore | Game.cpp:136-141 | the high score becomes the larger of score and old high score, and nothing else changes |
| Session.Game.CheckGameOver | Game.cpp:143-150 | signals game over iff the shield is ≤ 0 |
| Session.Game.Loop | Game.cpp:53-86 | the new state is `Tick` of the old one, the vectors are the same objects, and game over is signalled iff the shield is ≤ 0 |

## Left out

- Display output is not modelled. `Display` drives an LED panel through a foreign library. The `draw` methods, `clearScreen` and `drawText` only draw, including the calls inside `updateScore`, `checkGameOver`, `selectDifficulty` and `selectLevel`.
- Sound is not modelled: `SoundManager::playTone` is empty, and `playSoundtrack` and `playBossMelody` only call it.
- `PlayerShip::fire` and `Enemy::fire` are not modelled because their bodies are empty.
- `handleInput` has an empty body. The position it leaves is a parameter of `move` and of `loop`.
- `rand()` is not modelled as a generator. Each call is an arbitrary natural number, reduced `% 3` or `% 32` as the code does.
- The two collision tests are empty in the code. They stay uninterpreted predicates over the entities' current states. No distance test is invented.
- Positions are `real`, not `double`. The 0.5 enemy step is exact in binary, so `Enemies.SpawnedLifetime` holds in `double` too. The 0.2 power-up step is not exact, so `PowerUps.DriftPath` holds over the reals only, and no power-up step count is claimed. Likewise `Shots.FlightPath`'s closed form (start plus n times velocity) holds over the reals only; in `double` it fails for a velocity that is not exact in binary, such as 0.1.
- Session.Game.ScoreHit: the score is an unbounded integer. The 32-bit `long` of the target, whose `score += 100` (Game.cpp:122) would overflow after about 21 million hits, is not modelled.
- Session.ResolveShots: the same unbounded score; its "grows by a multiple of 100" holds only while the `long` does not overflow.
- Session.Tick: "the score never decreases" relies on the unbounded score; a wrapped `long` would break it.
- Session.Run: "the score never decreases" relies on the unbounded score, as for `Tick`.
- Session.RunKeepsRecord: "the score never decreases" and the record being the best score seen rely on the unbounded score, as for `Tick`.
- Session.Game.UpdateScore: the high score is unbounded too, copied from the score.
- Player.Clamp: the `< 0` tests on the byte coordinates can never be true, so they are left out.
- Session.Game.HandleCollisions: it is one C++ function, here split into `ResolveShotHits` and `ResolvePlayerHit`, one per loop. The inner loop of the shot pass and its body are further split into `ScanShot` and `ScoreHit`.
- Session.Game.Loop: only the result of its own final game-over check is returned. The check inside `handleCollisions` is reported by `HandleCollisions`.
- `Main.cpp` is an older draft with empty bodies. `Enemy.cpp` and `PlayerShip.cpp` are only declarations, and they make `explode` private even though `Game` calls it. None of them is modelled.
