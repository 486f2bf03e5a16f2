# Mini arcade shooter: the simulation core in Dafny

This project models the game logic of the single-page arcade shooter in
`app/page.tsx`. The player's ship moves along the bottom of an 800×600
playfield and fires bullets upward. Enemies of three kinds fall from the top.
Each animation frame in play runs one tick of `updateGame`:

1. the arrow keys move the ship;
2. bullets rise, and those above the top are spliced out;
3. the enemies are scanned from the last one down. Each enemy falls, then
   leaves the screen, hits the ship, is shot, or simply stays;
4. explosions age;
5. a new enemy may spawn;
6. the difficulty multiplier is recomputed.

Around the tick sit `startGame`, `resetGame` and the key handlers. Space fires
only while a round is in play.

The model has two layers:

- **Pure layer** (modules `Geometry`, `Entities`, `Steps`, `Session`):
  - datatypes for the records;
  - a function per stage of the tick;
  - `Tick`, their composition;
  - the session transitions, as functions on a `World` value.
- **Imperative layer** (module `Arcade`): a class `Game` whose fields are the
  component's refs and state.
  - The tick's loops are written over those fields in the source's own order:
    reverse index, overwrite in place, splice.
  - Each method is proved equal to its pure counterpart, e.g.
    `ensures View() == Tick(old(View()), now, d)` on `UpdateGame`.
  - The properties are then proved once, about the pure functions, in
    `SessionFacts`. The main ones:
    - an invariant that every event keeps;
    - the high score never goes down;
    - the game-over rule;
    - an enemy's speed is fixed once it spawns;
    - the spawn rule;
    - a handful of concrete rounds.

Conventions:

- Coordinates and speeds are exact `real`s.
- The clock is a parameter `now`: Date.now() is read once per tick.
- The three `Math.random()` values that reach `spawnEnemy`'s result (the
  chosen template's speed jitter, the template roll and the x roll) are a
  parameter `Dice`. Each value is in [0, 1).

## Tick-level behaviour kept as the code has it

- **The score is read at tick start.** The score used inside one tick is the
  value when the tick began (`score0`), because the tick's closure captures
  what the last render rendered. Points go in through a functional updater.
  - Three places read that score: the spawn delay, the new multiplier, and the
    high score written at game over.
  - So points won in the tick that ends a round are not in the high score
    (`SessionFacts.HighScoreMissesFinalTick`).
- **Lives are not clamped.** Two enemies that reach the ship in the tick that
  takes the last life leave −1 (`SessionFacts.LivesCanGoNegative`).
  - The game ends as soon as any decrement reaches ≤ 0. The lives only go down
    within a tick, so this is `EndsGame`.
  - Nothing clamps lives at 0, so they are not always in [0, 3].
- **A bullet is dropped by its top edge.** The removal test is `y < 0`, so a
  bullet is dropped as soon as its top edge passes above the playfield, even
  while most of it is still visible.
- **The bullet scan runs from the highest index.** The bullet that hits is the
  overlapping one with the largest index, not the first in order.
- **The walls are guards, not clamps.** Each move tests the position before
  it. The ship still never leaves the playfield: it starts at 375 and moves in
  steps of 5, so it stays on a 5-unit grid
  (`Steps.SteerStaysOnTrack`, `Steps.OnTrack`).
- **Holding both arrows can cancel out.** Left is applied first, then right is
  tested against the position left produced.
- **The multiplier lags one tick.** It is stored, not derived. An enemy
  spawned in a tick gets the multiplier the previous tick left
  (`SessionFacts.TickFreezesEnemySpeed`, `SessionFacts.TickSpawnRule`).

## Model

| member | source | states |
|---|---|---|
| Geometry.OverlapsSymmetric | app/page.tsx:77-84 | the collision test gives the same answer with its two arguments swapped |
| Geometry.EdgeContactIsNoOverlap | app/page.tsx:77-84 | boxes that only share a vertical or horizontal edge do not collide (the inequalities are strict) |
| Geometry.OverlapsIffSharedPoint | app/page.tsx:77-84 | for boxes with positive width and height, the test holds exactly when some point lies strictly inside both |
| Entities.ArchetypeIndex | app/page.tsx:94 | `floor(roll * 3)` is one of the three template indices, and each index is chosen by exactly one third of [0, 1) |
| Entities.NewEnemy | app/page.tsx:87-104 | a spawned enemy has one template's size and points, starts at y = −height with 0 ≤ x < 800 − width, has speed (min + jitter·range)·gameSpeed, and that speed is at least 0.5 when the multiplier is at least 1 |
| Entities.NewBullet | app/page.tsx:109-119 | a shot is 4×15 with speed 10, centred on the ship's centre line, at the ship's top edge |
| Steps.Steer | app/page.tsx:384-393 | player movement changes only the ship's x |
| Steps.SteerLeft | app/page.tsx:386-389 | with left held and right not, whatever other keys are held, the ship moves left by exactly its speed, and only when x > 0 |
| Steps.SteerRight | app/page.tsx:390-393 | with right held and left not, whatever other keys are held, the ship moves right by exactly its speed, and only when x < 800 − width |
| Steps.SteerAgainstWalls | app/page.tsx:386-393 | left (without right) at x = 0 and right (without left) at x = 800 − width leave the ship where it is, whatever other keys are held |
| Steps.SteerBothArrows | app/page.tsx:386-393 | with both arrows held, a ship on its track away from the left wall does not move (even at the right wall), and at the left wall it moves right by its speed |
| Steps.SteerNoArrows | app/page.tsx:386-393 | with neither arrow held, whatever other keys are held, the ship does not move |
| Steps.SteerStaysOnTrack | app/page.tsx:384-393 | a ship on the 5-unit grid inside [0, 750] at y = 520, which is where the ship of lines 47-54 starts, stays there after every movement step, so the guards keep it in the playfield |
| Steps.AdvanceBullets | app/page.tsx:401-406 | the bullet loop never adds bullets |
| Steps.AdvanceBulletsAppend | app/page.tsx:401-406 | the bullet step works bullet by bullet, so it distributes over concatenation and the survivors keep their relative order |
| Steps.AdvanceBulletsKeeps | app/page.tsx:401-406 | a bullet survives exactly when its y after rising by its speed is not below 0 |
| Steps.AdvanceBulletsOnScreen | app/page.tsx:403-405 | no surviving bullet has y < 0 |
| Steps.AdvanceBulletsOrigin | app/page.tsx:402 | every surviving bullet is an input bullet whose y dropped by exactly its own speed |
| Steps.LastOverlap | app/page.tsx:441-459 | the inner scan finds nothing exactly when no bullet overlaps the enemy; when it finds j, bullet j overlaps and no bullet above j does |
| Steps.FateOf | app/page.tsx:413-461 | after falling, an enemy has exactly one fate: off screen iff y > 600; otherwise it hits the ship iff it overlaps it; otherwise it is shot by the highest-index overlapping bullet; otherwise it advances |
| Steps.SettleOutcome | app/page.tsx:416-461 | per fate: off screen removes the enemy and changes nothing else; a ship hit adds one explosion of radius 40 at the enemy centre, takes one life and leaves the bullets alone; a shot adds one explosion of radius 30, scores the enemy's points and removes exactly the hitting bullet; otherwise the enemy stays, moved down |
| Steps.ResolveEnemies | app/page.tsx:409-462 | the enemy sweep: bullets only disappear, and only from the input; one explosion per hit or shot; hits + shots + kept enemies ≤ enemies; points are non-negative when every enemy's are; every explosion is new (life 20, radius 30 or 40) |
| Steps.ResolveEnemiesOrigin | app/page.tsx:413 | every enemy kept by the sweep is an input enemy moved down by its own speed |
| Steps.ResolveEnemiesKeepsLive | app/page.tsx:416-437 | no enemy the sweep keeps is below the bottom edge (y ≤ 600) or overlapping the ship: those are removed |
| Steps.DecayExplosions | app/page.tsx:465-470 | the decay never adds explosions and every survivor has life > 0 |
| Steps.DecayExplosionsAppend | app/page.tsx:465-470 | the decay works explosion by explosion and keeps the survivors' order |
| Steps.DecayExplosionsKeeps | app/page.tsx:466-469 | an explosion survives exactly when its decremented life is positive |
| Steps.DecayMakesSpent | app/page.tsx:465-470 | after a decay, every surviving explosion has 0 < life < maxLife |
| Steps.DecayLifetime | app/page.tsx:465-470 | an explosion with life L is present with life L − n after n < L decays and gone after L |
| Steps.ExplosionLastsTwentyTicks | app/page.tsx:124-133 | a new explosion survives 19 decays and is removed by the 20th |
| Steps.SpawnDelay | app/page.tsx:474 | the spawn delay is at least 500, at most 2000 for scores ≥ 0, exactly 500 from 750 points on, and 2000 − 2·score below that |
| Steps.Difficulty | app/page.tsx:481 | the multiplier is at least 1 for scores ≥ 0 and grows by exactly 1 per 1000 points |
| Geometry.Overlaps | app/page.tsx:77-84 | checkCollision; no contract of its own: stated by `OverlapsSymmetric`, `EdgeContactIsNoOverlap` and `OverlapsIffSharedPoint` |
| Steps.Settle | app/page.tsx:413-461 | one enemy's effect on the sweep; no contract of its own: stated by `SettleOutcome`, per fate |
| Session.EndsGame | app/page.tsx:428-435 | the game-over rule for a tick's hits; no contract of its own: stated by `SessionFacts.TickCounters`, `SessionFacts.TickFolds` and `SessionFacts.LivesCanGoNegative` |
| Session.ApplySweep | app/page.tsx:422-456 | writes the enemy sweep's lists, points, lives, phase and high score into the state; no contract of its own: stated by `SessionFacts.TickFolds` and `SessionFacts.TickCounters` |
| Session.Initial | app/page.tsx:41-60 | the page's initial state; no contract of its own: stated by `SessionFacts.InitialConsistent` and `Arcade.Game.constructor` |
| Session.SpawnStage | app/page.tsx:473-478 | the spawn gate; no contract of its own: stated by `SessionFacts.TickSpawnRule` and `SessionFacts.SpawnCadence` |
| Session.Tick | app/page.tsx:377-482 | updateGame; no contract of its own: stated by `SessionFacts.TickFolds`, `TickCounters`, `TickRest`, `TickSpawnRule`, `TickFreezesEnemySpeed` and `TickKeepsConsistent`, and equal to `Arcade.Game.UpdateGame` |
| Session.Frame | app/page.tsx:712-718 | gameLoop; no contract of its own: stated by `SessionFacts.FrameIdleOutsidePlay` and `SessionFacts.FrameKeepsConsistent` |
| Session.Start | app/page.tsx:721-731 | startGame; no contract of its own: stated by `SessionFacts.StartIsFreshRound` |
| Session.Reset | app/page.tsx:741-743 | resetGame; no contract of its own: stated by `SessionFacts.ResetToMenu` |
| Session.PressKey | app/page.tsx:775-782 | the keydown handler; no contract of its own: stated by `SessionFacts.PressKeyFrame` and `SessionFacts.SpaceFiresOnlyInPlay` |
| Session.ReleaseKey | app/page.tsx:784-786 | the keyup handler: the released key is no longer held and nothing else changes |
| SessionFacts.InitialConsistent | app/page.tsx:41-60 | the page's first state satisfies the invariant |
| SessionFacts.AdvanceKeepsBulletShape | app/page.tsx:401-406 | bullets keep their 4×15, speed-10 shape in flight |
| SessionFacts.EnemyStageShapes | app/page.tsx:409-462 | the enemy loop keeps bullet and enemy shapes and never lowers the score |
| SessionFacts.TickKeepsConsistent | app/page.tsx:377-482 | a tick of a consistent round in play is consistent: ship on track, bullet and enemy shapes kept, every explosion aged once, score and high score ≥ 0, lives ≤ 3 and > 0 while playing, multiplier ≥ 1 |
| SessionFacts.FrameKeepsConsistent | app/page.tsx:712-718 | a frame keeps the invariant |
| SessionFacts.ApplyKeepsConsistent | app/page.tsx:712-795 | every event keeps the invariant: start, menu, key down, key up, frame |
| SessionFacts.RunKeepsConsistent | app/page.tsx:712-795 | any sequence of events keeps the invariant |
| SessionFacts.ApplyKeepsHighScore | app/page.tsx:428-435 | no event lowers the high score |
| SessionFacts.HighScoreNeverDecreases | app/page.tsx:428-435 | the high score never goes down over any sequence of events |
| SessionFacts.TickCounters | app/page.tsx:422-456 | in a tick, score grows by the points shot and lives drop by the hits; the round ends exactly when lives reach ≤ 0, and the high score then becomes max(high score, tick-start score); otherwise it stays |
| SessionFacts.TickFolds | app/page.tsx:422-456 | the same counter equations for any state, with the game-over rule as `EndsGame` |
| SessionFacts.TickFreezesEnemySpeed | app/page.tsx:95-105 | after a tick every enemy is an earlier enemy moved down by its own unchanged speed, or the one spawned this tick at the previous multiplier |
| SessionFacts.TickSpawnRule | app/page.tsx:473-478 | a spawn happens iff now − lastSpawn > delay(tick-start score); it appends exactly one enemy and sets lastSpawn := now, and otherwise the list and lastSpawn are unchanged |
| SessionFacts.TickRest | app/page.tsx:384-481 | the tick moves the ship by the keys, keeps the bullets the sweep left, decays old plus new explosions, and sets the multiplier from the tick-start score |
| SessionFacts.TickEnemiesLive | app/page.tsx:409-478 | after a tick every enemy is on screen (y ≤ 600) and, for a ship not above the playfield, clear of the ship |
| SessionFacts.FrameIdleOutsidePlay | app/page.tsx:712-718 | outside play a frame changes nothing |
| SessionFacts.SpawnCadence | app/page.tsx:474-475 | at score 0 a spawn needs more than 2000 ms since the last; from 750 points on, more than 500 ms |
| SessionFacts.StartIsFreshRound | app/page.tsx:721-731 | startGame gives playing, score 0, lives 3, the ship at (375, 520), empty lists, multiplier 1 and lastSpawn = now, and keeps the high score |
| SessionFacts.ResetToMenu | app/page.tsx:741-743 | resetGame gives the menu with no explosions and leaves the counters |
| SessionFacts.SpaceFiresOnlyInPlay | app/page.tsx:775-781 | Space is recorded as held; it adds exactly one bullet at the ship while playing and none otherwise |
| SessionFacts.PressKeyFrame | app/page.tsx:775-782 | any key pressed is added to the held keys; only Space while playing changes the bullets; nothing else in the state changes |
| SessionFacts.ExampleFates | app/page.tsx:413-459 | three concrete enemies meet the three non-trivial fates (off screen, ship hit, shot by a bullet just fired from the start position), so the scenario rounds below are not vacuous |
| SessionFacts.OffScreenScenario | app/page.tsx:416-419 | an enemy that falls past the bottom is removed with no change to score, lives, explosions or phase |
| SessionFacts.PlayerHitScenario | app/page.tsx:422-437 | an enemy reaching the ship costs exactly one life and makes one explosion of radius 40, and the bullets are untouched |
| SessionFacts.BulletHitScenario | app/page.tsx:445-457 | a bullet just fired from the start position that hits the enemy after one step scores exactly the enemy's points, removes both, and leaves one radius-30 explosion aged to life 19 |
| SessionFacts.LivesCanGoNegative | app/page.tsx:427-435 | two ship hits in the tick that takes the last life leave −1 and end the round |
| SessionFacts.HighScoreMissesFinalTick | app/page.tsx:427-452 | points won in the tick that ends the round are in the score but not in the high score |
| Arcade.Game.constructor | app/page.tsx:41-60 | the component's initial refs and state |
| Arcade.Game.CreateExplosion | app/page.tsx:124-133 | appends exactly one explosion with life = maxLife = 20 at the given place and radius; nothing else changes |
| Arcade.Game.ShootBullet | app/page.tsx:109-121 | appends exactly the bullet `NewBullet` builds from the ship; nothing else changes |
| Arcade.Game.SpawnEnemy | app/page.tsx:87-106 | appends exactly the enemy `NewEnemy` builds from the dice and the current multiplier; nothing else changes |
| Arcade.Game.MovePlayer | app/page.tsx:384-393 | the two guarded in-place moves are the movement stage |
| Arcade.Game.FlyBulletAt | app/page.tsx:402-405 | one pass of the bullet loop: entry i rises and is spliced out if above the top, the rest are untouched |
| Arcade.Game.UpdateBullets | app/page.tsx:401-406 | the reverse in-place loop computes exactly the bullet stage |
| Arcade.Game.LastHitBullet | app/page.tsx:441-459 | the inner reverse scan returns the highest-index overlapping bullet, or none exactly when nothing overlaps |
| Arcade.Game.SettleEnemyAt | app/page.tsx:410-461 | one pass of the enemy loop at index i changes the state exactly as that enemy's fate says, splicing it in place |
| Arcade.Game.UpdateEnemies | app/page.tsx:409-462 | the reverse in-place enemy loop computes exactly the enemy stage |
| Arcade.Game.FadeExplosionAt | app/page.tsx:466-469 | one pass of the explosion loop: entry i loses one life and is spliced out at ≤ 0 |
| Arcade.Game.UpdateExplosions | app/page.tsx:465-470 | the reverse in-place explosion loop computes exactly the decay stage |
| Arcade.Game.UpdateGame | app/page.tsx:377-482 | the whole in-place tick equals `Tick` of the state before it |
| Arcade.Game.GameLoop | app/page.tsx:712-718 | a frame runs the tick only while playing |
| Arcade.Game.StartGame | app/page.tsx:721-731 | startGame's assignments give exactly `Start` |
| Arcade.Game.ResetGame | app/page.tsx:741-743 | resetGame gives exactly `Reset` |
| Arcade.Game.HandleKeyDown | app/page.tsx:775-782 | the keydown handler gives exactly `PressKey` |
| Arcade.Game.HandleKeyUp | app/page.tsx:784-786 | the keyup handler gives exactly `ReleaseKey` |

## Left out

- Drawing (`render`, the JSX, the `toFixed` display rounding): it reads the state and never changes it.
- The volume sliders: they change only the audio settings `musicVolume` and `sfxVolume`, never game state.
- Sound and music: audio context set-up, shot and explosion sounds, the engine sound, the melody, fades, background music. The sound calls inside the tick and inside `shootBullet` are no-ops here. The 2% engine-sound draw changes no game state and is not modelled.
- React scheduling: hooks, `requestAnimationFrame`, listener registration and the cancel/restart of the frame loop.
  - The model assumes each frame sees the state committed by the previous one. A frame that runs before React re-renders would read an older `score` or `gameState`; that is not modelled.
  - Functional updaters are applied in order at once, so a doubled invocation of an updater is not modelled either.
- Randomness and time are parameters. The distributions are not modelled.
  - `Dice` carries only the jitter of the chosen template. `spawnEnemy` also draws the jitter of the other two templates, which does not affect the result.
- Floating point: all arithmetic is exact. IEEE rounding of `1 + score * 0.001`, of the speeds and of the positions is not modelled.
- Colours of the records: drawing only.
- The two "safety check" `continue`s in the enemy loop: they cannot fire, because each index in range holds an entry. The model has none.
- Aliasing: the ship is a value in the model. In the source, `player` in the tick is the object behind the ref, mutated in place; the only effect is the same.
- Steps.Steer: its own contract says only that x alone changes. The amount moved is stated for each way the arrows can be held, whatever other keys are held: `SteerLeft` and `SteerRight` (one arrow), `SteerNoArrows` (neither) and `SteerBothArrows` (both, for a ship on its track). The wall guards are stated by `SteerAgainstWalls` and `SteerStaysOnTrack`.
- Entities.NewExplosion: it has no contract of its own. A new explosion's life of 20 is stated by `Arcade.Game.CreateExplosion` and `Steps.ExplosionLastsTwentyTicks`.
- Session.Consistent: it does not bound explosion positions or enemy x, and it does not bound lives from below, because the code does not keep them ≥ 0.
