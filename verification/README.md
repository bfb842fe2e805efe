# Platformer simulation core, modelled in Dafny

This project models the per-frame simulation of a single-screen side-scrolling
platformer (`script.js`). The player runs and jumps across platforms that scroll
to the left. It collects coins and must avoid enemies. Platforms and coins that
leave the screen come back on the right. Enemies spawn on a shrinking interval,
with a population cap. Touching an enemy or falling below the canvas ends the
game. A restart resets the session, and only the start button resumes play.

The model keeps the source's imperative form. The class `Platformer.Game`
holds the session variables as fields: the player record, the platform, coin and
enemy sequences, and the score, game speed, game-over flag, spawn interval and
last spawn time. It has one method per update routine: `UpdatePlayer`,
`UpdatePlatforms`, `UpdateCoins`, `UpdateEnemies`, `RestartGame`, `StartGame`
and `GameLoop`. The loops are written as loops over the sequences, with
invariants.

Each update routine is proved to change the fields exactly as a pure function
of module `Simulation` changes a `Session` value. The helper methods those
routines call are proved against functions of the modules below them:
`ApplyInput`, `CollidePlatforms`, `CollectCoins`, `CollideEnemies` and
`ClampToCanvas` against `PlayerController`, and `MoveEnemies` and
`AdvanceEnemyAt` against `Enemies`. The properties the game relies on are
proved about those functions, in these modules:

- `Geometry`: boxes and the shared four-inequality overlap test.
- `PlayerController`: input, jump, gravity, landing, coin pickup, the loss tests
  and the clamp.
- `Scrolling`: the platform and coin passes.
- `Enemies`: spawning and the enemy pass.
- `Simulation`: a whole frame.

Inputs that come from the browser are parameters:

- the key flags (`Keys`);
- the `requestAnimationFrame` timestamp;
- the canvas size (`Canvas`), which a resize may change at any time;
- every `Math.random()` result. Each is a real in [0, 1): one draw record per
  platform and per coin, used only if that item is recycled in the pass, and
  one enemy draw record per frame, used only on a spawn.

Numbers are exact reals, not IEEE doubles. The score is a natural number.

Points worth knowing when reading the model:

- `updatePlatforms` raises `gameSpeed` inside its `forEach`. A platform handled
  after a recycle in the same pass therefore moves by the raised speed.
  `Scrolling.PlatformsPass` models this exactly.
- The frame order is platforms, player, coins, enemies. So coin pickup is tested
  before coins move, and in the frame that sets game over, coins and enemies
  still move. The next frame is frozen.
- Landing: the first platform in order that the falling player overlaps decides
  where the player stands. The snap sets the vertical speed to 0, so no later
  platform snaps in the same frame. A platform list that overlaps the player
  twice is therefore resolved first-wins, not last-wins.
- Enemy removal: an enemy that leaves the screen triggers `enemies.shift()`,
  which drops the FRONT of the queue. The `forEach` runs over the length it had
  at the start and skips indices that no longer exist. An enemy that slides
  into an already visited index is not moved in that frame
  (`Enemies.SlidEnemyNeverMoves`, with a two-enemy instance in
  `Enemies.ShiftSkipsSlidEnemy`).
- `restartGame` sets the game-over flag to true (script.js:299). A restart
  leaves the game stopped until `startGame`.
- The initial platform and coin tables are built once, from the canvas size at
  page load. A restart copies those tables back. The restarted player's y
  uses the canvas height current at the restart.

## Model

| member | source | states |
|---|---|---|
| `Geometry.OverlapsIffCommonPoint` | script.js:188-191 | for boxes of positive size the four-inequality test holds exactly when some point lies strictly inside both boxes (positive-area intersection) |
| `Geometry.Overlaps` | script.js:188-191 | no contract of its own: the four-inequality test shared by the platform (188-191), coin (203-206) and enemy (216-219) checks; `Geometry.OverlapsIffCommonPoint` characterises it |
| `PlayerController.Airborne` | script.js:172-186 | no contract of its own: input, jump, gravity and the grounded reset; `PlayerController.JumpOnlyWhenGrounded` characterises it |
| `PlayerController.JumpOnlyWhenGrounded` | script.js:175-183 | jump held while grounded replaces dy by the impulse, so dy = gravity - jumpPower and y decreases; otherwise dy only gains gravity, and the jump key makes no difference in the air; y moves by the new dy; grounded is reset before collision |
| `PlayerController.LandsOn` | script.js:188-193 | no contract of its own: the player overlaps the platform while moving down; `PlayerController.LandIsFirstHit` and `PlayerController.GroundedIffLanded` are stated in its terms |
| `PlayerController.SnapOnto` | script.js:193-197 | after a snap the player's bottom edge is the platform's top edge, dy is 0 and grounded is true; x is kept |
| `PlayerController.Land` | script.js:187-199 | no contract of its own: the platform pass in order; `PlayerController.LandIsFirstHit`, `PlayerController.GroundedIffLanded` and `PlayerController.LandResting` characterise it |
| `PlayerController.LandResting` | script.js:193 | a player not moving down is left unchanged by the platform pass |
| `PlayerController.LandIsFirstHit` | script.js:186-199 | at most one snap per frame: the first platform in order that the falling player overlaps decides the landing; with none, the player is unchanged |
| `PlayerController.GroundedIffLanded` | script.js:186-199 | after the pass the player is grounded exactly when it already was or some platform was fallen onto |
| `PlayerController.Uncollected` | script.js:202-212 | the filter never makes the coin list longer |
| `PlayerController.Collected` | script.js:202-212 | at most as many coins are taken as there were |
| `PlayerController.UncollectedMembers` | script.js:202-212 | a coin survives pickup exactly when it was present and does not overlap the player |
| `PlayerController.UncollectedAppend` | script.js:202-212 | filtering a concatenation filters each part, so the kept coins keep their order |
| `PlayerController.PickupPartition` | script.js:202-212 | the kept and the collected coins together are exactly the coins before (as a multiset, and in number) |
| `PlayerController.UncollectedIdempotent` | script.js:202-212 | filtering again with the same player box removes nothing more |
| `PlayerController.HitsEnemy` | script.js:215-223 | no contract of its own: some enemy box overlaps the player box; `Simulation.PlayerUpdated` states that game over is set exactly when it holds or the player fell below the canvas |
| `PlayerController.ClampX` | script.js:230-232 | on a canvas at least as wide as the player, x left of 0 becomes 0 and the result lies in [0, canvas.width - width]; x right of canvas.width - width becomes exactly canvas.width - width; an x already inside is kept; on a narrower canvas x ends at canvas.width - width |
| `Scrolling.Shifted` | script.js:238 | no contract of its own: an item moved left by the game speed (also script.js:254); `Scrolling.PassVisit` and `Scrolling.CoinAfter` are stated in its terms |
| `Scrolling.OffScreen` | script.js:240 | no contract of its own: the recycle test (also script.js:257); `Scrolling.NoPlatformLeftBehind` and `Scrolling.CoinAfter` are stated in its terms |
| `Scrolling.RelocatedPlatform` | script.js:241-244 | a recycled platform gets x in [canvas.width, canvas.width + 200), y in (canvas.height - 250, canvas.height - 50], width in [50, 150), and keeps its height |
| `Scrolling.PlatformsPass` | script.js:236-249 | the platform count is kept; the recycle counter never exceeds the number of iterations; speed = start speed + 0.1 per counted recycle |
| `Scrolling.PassUntouched` | script.js:237-248 | the platforms the pass has not visited yet are untouched |
| `Scrolling.PassOutcome` | script.js:237-248 | each visited platform was either recycled into the band right of the screen, or moved left by a speed between the start and current speed of the pass and is still on screen; while nothing is recycled every visited platform moved by exactly the start speed |
| `Scrolling.PassHandlesOnce` | script.js:237-248 | a platform already handled by the pass is not changed by later iterations |
| `Scrolling.RecycledAt` | script.js:238-240 | no contract of its own: platform j, moved by the speed reached when it is visited, has left the screen; `Scrolling.RecycledMembers` and `Scrolling.RecycledCount` are stated in its terms |
| `Scrolling.PassVisit` | script.js:237-248 | platform j ends moved left by the speed the pass has reached when it visits j, and, if that took it past the left edge, relocated with the draws of index j |
| `Scrolling.RecycledMembers` | script.js:237-248 | an index is in RecycledBefore(n) exactly when it is below n and the platform there, moved by the speed reached when it is visited, has passed the left edge |
| `Scrolling.RecycledStep` | script.js:240-246 | visiting a platform adds one to the recycle counter exactly when it is recycled |
| `Scrolling.RecycledGrow` | script.js:240-246 | visiting a platform adds its index to the recycled set exactly when it is recycled |
| `Scrolling.RecycledCount` | script.js:236-249 | the recycle counter equals the number of platforms recycled, and the speed rises by exactly 0.1 per recycled platform |
| `Scrolling.NoPlatformLeftBehind` | script.js:237-248 | on a canvas of non-negative width, no platform is entirely left of the screen after the pass |
| `Scrolling.CoinAfter` | script.js:253-260 | a coin keeps its size; one that scrolled off is put back at x in [canvas.width, canvas.width + 200) inside the platform band; otherwise it moved left by exactly the game speed and is still on screen |
| `Scrolling.CoinsPass` | script.js:252-262 | the coin count is kept, and each coin becomes CoinAfter of the coin at its index with the draws of that index |
| `Enemies.SpawnDue` | script.js:266 | no contract of its own: the spawn condition; `Enemies.AfterSpawn` states that the push happens exactly when it holds |
| `Enemies.Spawned` | script.js:267-273 | a spawned enemy is 50 by 50 at the right edge, between 70 and 120 above the bottom, with speed between one and two times a non-negative game speed |
| `Enemies.NextFrequency` | script.js:275 | the new interval is never below 2500, never above the old one when that was at least 2500, and is old - 50 unless that falls below the floor |
| `Enemies.AfterSpawn` | script.js:266-276 | the push adds exactly one enemy at the end exactly when the interval has elapsed and the cap is not reached, and that enemy is the one Spawned builds; the enemies before are kept; the cap is kept |
| `Enemies.Advanced` | script.js:279 | no contract of its own: an enemy moved left by its own speed; `Enemies.EnemiesPassShape` and `Enemies.PassWithoutRemoval` are stated in its terms |
| `Enemies.LeavesScreen` | script.js:279-282 | no contract of its own: the moved enemy has passed the left edge; `Enemies.RemovalCount` is stated in its terms |
| `Enemies.ShiftsAt` | script.js:278-284 | no contract of its own: iteration k finds index k still present and its enemy leaving the screen; `Enemies.RemovalMembers` and `Enemies.SlidEnemyNeverMoves` are stated in its terms |
| `Enemies.EnemyStep` | script.js:279-284 | no contract of its own: one forEach callback; `Enemies.EnemyStepKeepsShape` and `Enemies.RemovalCount` characterise it |
| `Enemies.EnemiesPass` | script.js:278-285 | the pass never adds an enemy and removes at most one per iteration |
| `Enemies.EnemyStepKeepsShape` | script.js:278-285 | one forEach iteration keeps the queue's shape (front-only removal, each survivor moved at most once, the unvisited untouched) |
| `Enemies.MoveKeepsShape` | script.js:279 | the iteration that moves an enemy that stays on screen keeps the shape |
| `Enemies.ShiftKeepsShape` | script.js:282-284 | the iteration whose enemy leaves the screen and shifts the front keeps the shape |
| `Enemies.EnemiesPassShape` | script.js:278-285 | after the pass, only the front of the queue was removed, each survivor moved at most once and by its own speed, unvisited enemies are untouched, and with no removal every enemy moved exactly once |
| `Enemies.RemovalMembers` | script.js:278-285 | an iteration is in Removals(n) exactly when it is among the first n and its enemy, once moved, is off screen while its index still exists |
| `Enemies.RemovalsGrow` | script.js:282-284 | iteration n - 1 joins the removal set exactly when it shifts the queue |
| `Enemies.PassShrinks` | script.js:282-284 | iteration n - 1 shortens the queue by one exactly when it shifts it, and otherwise keeps its length |
| `Enemies.RemovalCount` | script.js:278-285 | the number of enemies the pass removes equals the number of visited iterations whose enemy, once moved, is off screen |
| `Enemies.PassWithoutRemoval` | script.js:278-285 | while no visited enemy leaves the screen, the first n enemies are each advanced by their own speed and the rest are untouched |
| `Enemies.SlidEnemyNeverMoves` | script.js:278-285 | after a shift at iteration k, the enemy that slides into index k has not been moved, and it is still unmoved at the end of the pass (at its new index) unless it is shifted off itself |
| `Enemies.SlidEnemyUnmoved` | script.js:279-284 | when iteration k shifts the queue, the enemy that slides into index k is one the pass has not moved |
| `Enemies.StepKeepsVisited` | script.js:279-284 | an iteration at index k leaves an enemy at an earlier index unmoved: at the same index, or one index nearer the front after a shift; the queue loses at most one enemy |
| `Enemies.SlidStaysUnmoved` | script.js:278-285 | one later iteration keeps an enemy of an already visited index unmoved, at the index its removals so far predict |
| `Enemies.VisitedStayPut` | script.js:278-285 | once iteration k is done, no later iteration moves the enemy then at index k; it only slides forward, one index per shift |
| `Enemies.EnemyCapKept` | script.js:266-285 | a whole updateEnemies keeps the enemy count at most maxEnemies (5) |
| `Enemies.ShiftSkipsSlidEnemy` | script.js:278-285 | two enemies, the first leaving the screen: the shift removes it and the second, slid into the visited index 0, is not moved that frame |
| `Simulation.InitialPlatforms` | script.js:51-56 | no contract of its own: the load-time platform table; `Simulation.FirstFrameLandsOnGround` states what its ground platform does |
| `Simulation.InitialCoins` | script.js:62-69 | no contract of its own: the load-time coin table |
| `Simulation.Reset` | script.js:296-308 | no contract of its own: the session after a restart; `Simulation.ResetEstablishesInvariant` and `Platformer.Game.RestartGame` characterise it |
| `Simulation.PlatformsUpdated` | script.js:236-249 | the platform count is kept; the score rises by the number of recycled platforms (RecycledBefore) and the game speed by 0.1 for each; nothing else changes |
| `Simulation.Landed` | script.js:172-199 | no contract of its own: the player after input, gravity and the platform pass; `Simulation.PlayerUpdated` and `Simulation.PlayerPickup` are stated in its terms |
| `Simulation.PlayerUpdated` | script.js:170-233 | the player keeps its landing and is clamped into the screen; game over is set exactly when it already was, an enemy overlaps the landed player, or the landed player's bottom is below the canvas; it is never cleared; only player, coins, score and the flag change |
| `Simulation.PlayerPickup` | script.js:201-212 | the new coins are the old ones filtered in order by the landed player's box; a coin remains exactly when it was present and does not overlap the landed player; the score rises by exactly the number of coins removed |
| `Simulation.CoinsUpdated` | script.js:252-262 | the coin count is kept and nothing but the coins changes (the score is untouched) |
| `Simulation.EnemiesUpdated` | script.js:265-286 | the cap is kept; at most one enemy is added; a spawn sets the last spawn time to the timestamp and the interval to NextFrequency; without a spawn both are unchanged and the count does not grow; the interval stays within [2500, old] |
| `Simulation.Frame` | script.js:119-141 | a frame with game over set changes nothing |
| `Simulation.FrameMonotone` | script.js:119-141 | across a frame game speed and score never fall, the platform count is kept, coins are never added, and game over stays set |
| `Simulation.FrameKeepsInvariant` | script.js:119-141 | every frame keeps: enemies at most 5, interval in [2500, 3000], game speed at least 2 |
| `Simulation.ResetEstablishesInvariant` | script.js:296-308 | the reset session satisfies the invariant and has game over set |
| `Simulation.FirstFrameLandsOnGround` | script.js:31-56 | from the start position, with no key held and a canvas at least 100 wide, the first frame snaps the player onto the ground platform at rest and grounded, and the game goes on |
| `Platformer.Game.constructor` | script.js:25-80 | the page-load session: initial tables from the load-time canvas, score 0, speed 2, interval 3000, no enemies, game over set |
| `Platformer.Game.StartGame` | script.js:110-116 | clears the game-over flag and changes nothing else |
| `Platformer.Game.RestartGame` | script.js:296-311 | the session becomes the reset session, independent of the state before (so restart is idempotent), with game over set |
| `Platformer.Game.UpdatePlatforms` | script.js:236-249 | the fields change exactly as PlatformsUpdated says |
| `Platformer.Game.ScrollPlatformAt` | script.js:237-248 | one forEach callback: the platform at i is moved by the current speed and, if it has left the screen, relocated with the draws d, the score rising by 1 and the speed by 0.1; otherwise score and speed are unchanged |
| `Platformer.Game.UpdatePlayer` | script.js:170-233 | the fields change exactly as PlayerUpdated says |
| `Platformer.Game.ApplyInput` | script.js:171-186 | the player becomes Airborne of the old player and the keys |
| `Platformer.Game.CollidePlatforms` | script.js:187-199 | the player becomes the result of the platform pass |
| `Platformer.Game.CollectCoins` | script.js:202-212 | coins become the uncollected ones; the score rises by the number collected |
| `Platformer.Game.CollideEnemies` | script.js:215-223 | game over becomes set if it was or an enemy overlaps the player |
| `Platformer.Game.ClampToCanvas` | script.js:231-232 | only the player's x changes, to ClampX of it |
| `Platformer.Game.UpdateCoins` | script.js:252-262 | the fields change exactly as CoinsUpdated says |
| `Platformer.Game.UpdateEnemies` | script.js:265-286 | the fields change exactly as EnemiesUpdated says |
| `Platformer.Game.MoveEnemies` | script.js:278-285 | the queue becomes EnemiesPass over its length at the start of the loop |
| `Platformer.Game.AdvanceEnemyAt` | script.js:279-284 | one forEach callback: the queue becomes EnemyStep at that index |
| `Platformer.Game.GameLoop` | script.js:119-141 | the fields change exactly as Frame says (nothing while game over; otherwise platforms, player, coins, enemies in that order), and the invariant is kept |

## Left out

- Canvas and DOM setup, image loading, the `draw*` functions, the game-over text and button visibility: rendering only (script.js:1-23, 121-126, 144-167, 289-293, 309-310).
- Key event listeners and `requestAnimationFrame` scheduling: browser plumbing. Key flags and the timestamp are inputs to each frame instead.
- `Math.random()` itself: every call is a parameter in [0, 1).
- IEEE floating-point rounding: numbers are exact reals, so the drift of `gameSpeed += 0.1` is not modelled.
- The canvas pixel size is a real; the browser's rounding of `canvas.width`/`canvas.height` to integers is not modelled.
- `JSON.parse(JSON.stringify(...))` deep copies: sequences of value records are copied by value.
- The commented-out coin sound.
- The player's fixed properties (speed, gravity, jumpPower, width, height) and `maxEnemies` are never reassigned, so they are module constants rather than fields.
- A second variant of the game that retries a platform recycle when the new position overlaps another platform is not part of this model; the modelled `script.js` recycles without that test.
