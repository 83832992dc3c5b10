# Eternal running dog: the simulation core in Dafny

This project models the per-tick simulation of the side-scrolling canvas game "eternal
running dog". It covers:

- the `Game` object that owns the entity pools and the score ledger: its constructor,
  `update(deltaTime)` and `addEnemy`;
- the `Player`: its `update`, `isOnGround`, `setState` and `checkCollision`;
- the seven player states, with each state's `enter` and `handleInput`;
- the pooled entities that `update` steps and compacts: the three enemy kinds, the carrot
  pickup, the explosion sprite and the two kinds of floating text.

The modules follow the source files:

| module | file | what it holds |
|---|---|---|
| `Keys` | `controls.js` (key names only) | the held keys `update` asks about |
| `Randomness` | calls of `Math.random()` | a stream of draws in [0, 1) that is consumed call by call |
| `Geometry` | the overlap test of `player.js` | boxes, strict overlap, hit counts |
| `Animation` | the sprite clock shared by all entities | the wrapping frame index |
| `Pools` | the `filter` calls of `main.js` | compaction of a pool by removal flags, duplicate freedom |
| `Particles` | the particles the states emit | a particle is its kind and its removal flag |
| `PlayerStates` | `playerState.js` | the state machine as pure decisions |
| `PlayerRules` | `player.js` | movement arithmetic and the outcome of each collision, as pure functions |
| `Enemies` | `enemy.js` | the `Enemy` class and its three constructors |
| `Replenishments` | `replenishment.js` | the `Carrot` class |
| `CollisionAnimations` | `collisionAnimation.js` | the explosion sprite |
| `FloatingMessages` | `floatingMessage.js` | static and dynamic messages |
| `Engine` | `main.js`, `player.js` | the `Game` and `Player` classes, which update each other's fields |

`Game`, `Player` and every pooled entity are classes whose methods update their fields in
place, as the source does. A pool is a `seq` field that the game reassigns. Each entity's
`update` is a method proved equal to a pure `Stepped` function of the fields it changes.
The lemmas about several updates are stated on `Stepped`, through `Run`, which applies it
`n` times.

The state machine is written as pure functions. They return what one `handleInput` call
decides: the particles to emit, whether to show the 'Energy' message, and the change of
state. `Player.HandleInput` applies that decision to the game. The contracts of the seven
per-state functions (`HandleSitting` … `HandleHit`) together are the transition table, key by
key; `HandleInput` states what holds across all states. The same split is used for
collisions: `PlayerRules.StrikeEnemy` and `PlayerRules.Collect` give the effect of one
overlap on the ledger (state, score, lives, energy, game over, enemies destroyed). The
loops of `checkCollision` are proved to move the ledger by `Strikes` and `Collects`, which
repeat those effects once per overlapping entity. Closed forms of both are proved.

Numbers are `real` (the source uses JavaScript floating point) and `int`.
`Math.random()` is an `Rng` object. It holds an arbitrary stream `draws` of values in
[0, 1) and counts the draws used. Every constructor that draws states how many draws it
used. `Math.sin` is a parameter `sin` of the enemy and carrot updates.

Behaviour of the code worth noting, which the model keeps:

- Lives are not clamped below at 0. Every non-invulnerable hit takes one life, so one pass
  over several overlapping enemies can take lives below 0. In debug mode hits keep taking
  lives with no game over.
- Energy has no floor at 0. A rolling player pays 0.25 per frame advance, and the roll is
  only ended after the payment, once energy is at or below 0.
- The '+1' and 'life +1' messages have the target (0, 0) in screen coordinates. They glide
  toward the top-left corner; they do not stay where they appeared.
- The 'Energy' message is shown by every state that tries to roll: Sitting, Running and
  Jumping when space is held with too little energy, and Diving in the air when space is
  released with too little energy.
- The pickup loop increments `replenishmentCount` on the player object (`player.js:202`),
  not the game's counter. The game's `replenishmentCount` stays 0 in the model.
- `addEnemy` draws a random number only while the world scrolls. With the world stopped it
  adds one flying enemy and consumes no draw for the ground-or-climbing choice.
- An explosion is centred on the centre of the entity that was hit.

## Model

| member | source | states |
|---|---|---|
| Randomness.Rng.Next | components/main.js:91 | one call of `Math.random()` returns the next draw of the stream, a value in [0, 1), and consumes exactly one draw |
| Geometry.OverlapsIffCommonPoint | components/player.js:145-150 | for boxes of positive size, the strict overlap test holds exactly when the boxes share an interior point, so boxes that only touch at an edge do not collide |
| Geometry.CountBelowNone | components/player.js:143-150 | the count of set flags in a prefix is zero exactly when no flag in that prefix is set |
| Geometry.Hits | components/player.js:143-150 | the number of overlapping entities is at most the size of the pool |
| Geometry.HitsNone | components/player.js:143-150 | a pass hits nothing exactly when no entity's box overlaps the player's box |
| Animation.Wrap | components/enemy.js:17-21 | a frame index within [0, maxFrame] stays within it, and the next index is the following frame or 0 |
| Animation.WrapTimesSplit | components/enemy.js:17-21 | a + b frame advances are a advances followed by b advances |
| Animation.WrapTimesCounts | components/enemy.js:17-21 | below the last frame, n advances add exactly n to the index |
| Animation.WrapPeriod | components/enemy.js:17-21 | the index is periodic: after maxFrame + 1 advances the sprite is back on the frame it started from |
| Pools.DistinctIndices | components/main.js:145-155 | the model invariant that no entity sits twice in a pool (every push appends a new object) holds exactly when no two positions hold the same entity |
| Pools.DistinctPush | components/main.js:93 | pushing an entity that is not in a pool keeps the pool free of duplicates |
| Pools.DistinctUnshift | components/playerState.js:60-66 | unshifting an entity that is not in a pool keeps the pool free of duplicates |
| Pools.DistinctPrefix | components/main.js:115-118 | truncating a pool to its first n entries keeps it free of duplicates |
| Pools.Retain | components/main.js:127-131 | compaction never lengthens a pool |
| Pools.Unmarked | components/main.js:127-131 | the positions whose flag is clear, in increasing order, and all of them |
| Pools.RetainPositions | components/main.js:127-131 | compaction keeps exactly the unmarked entities in their original order: the k-th survivor is the entity at the k-th unmarked position |
| Pools.RetainMembers | components/main.js:127-131 | an entity survives compaction exactly when it sits at some unmarked position |
| Pools.RetainNothingMarked | components/main.js:127-131 | a pool with no flag set is left unchanged |
| Pools.RetainSameLength | components/main.js:127-131 | the survivors' flags are as many as the survivors |
| Pools.RetainFlagsClear | components/main.js:127-131 | every survivor's flag is clear |
| Pools.RetainIdempotent | components/main.js:127-131 | compacting twice with no update between is the same as compacting once |
| Pools.RetainDistinct | components/main.js:127-131 | compaction keeps a pool free of duplicates |
| Particles.Survivors | components/main.js:130 | the particle filter keeps exactly the particles whose flag is clear |
| PlayerStates.EnterVelocity | components/playerState.js:89-182 | Jumping's `enter` kicks upward by 27 only from the ground, Diving's `enter` sets the vertical velocity to 15, and every other `enter` leaves it alone |
| PlayerStates.Splashes | components/playerState.js:197-205 | the landing dive emits exactly n splash particles, all of kind Splash |
| PlayerStates.TryRoll | components/playerState.js:35-42 | space rolls (scroll speed 2) exactly when energy is above 1, and shows the 'Energy' message exactly when it is not |
| PlayerStates.HandleSitting | components/playerState.js:32-44 | Sitting: left or right runs, and is checked before space; space tries to roll; otherwise nothing happens and nothing is emitted |
| PlayerStates.HandleRunning | components/playerState.js:58-80 | Running: always one Dust particle; down sits, else up jumps, else space tries to roll |
| PlayerStates.HandleJumping | components/playerState.js:98-112 | Jumping: past the apex (vertical velocity above the weight) it falls whatever is held; else space tries to roll; else down dives |
| PlayerStates.HandleFalling | components/playerState.js:126-132 | Falling: on the ground it runs; in the air down dives |
| PlayerStates.HandleRolling | components/playerState.js:146-169 | Rolling: one Fire particle; releasing space runs on the ground or falls in the air; space and up on the ground kick upward without leaving the state; down in the air dives |
| PlayerStates.HandleDiving | components/playerState.js:184-215 | Diving: one Fire particle; on landing it runs and adds thirty splashes; releasing space in the air tries to roll |
| PlayerStates.HandleHit | components/playerState.js:229-242 | Hit: no key is read; it stays until the last frame is reached, then runs on the ground or falls in the air |
| PlayerStates.HandleInput | components/playerState.js:21-243 | every switch follows the transition table with the scroll multiplier of its target; rolling is only entered with energy above 1; the 'Energy' message only comes with a refused roll and no switch; the upward kick only happens while rolling on the ground with space and up held; the number of particles emitted per state |
| PlayerRules.ClampX | components/player.js:69-74 | the player's x ends in [0, worldWidth - width] when it fits, is untouched when already inside, and otherwise sits at a boundary |
| PlayerRules.SteerX | components/player.js:55-67 | right beats left, no arrow stops the player, and a player in Hit cannot steer |
| PlayerRules.Fall | components/player.js:76-85 | the player never ends below the ground line; landing stops the vertical velocity, in the air the velocity grows by the weight |
| PlayerRules.StrikeEnemy | components/player.js:150-188 | one enemy met: it always counts as destroyed; rolling or diving scores a point and an energy and loses no life; any other state is put in Hit, loses a point and a life, and the game ends at 0 lives unless in debug mode |
| PlayerRules.StrikesClosedForm | components/player.js:143-190 | a pass over n overlapping enemies in closed form: the state is re-read for every enemy, so after the first hit every later overlap is a hit too, and an invulnerable player is never hurt in the pass |
| PlayerRules.StrikesState | components/player.js:143-190 | after a pass the player is in Hit exactly when there was an overlap and it was not rolling or diving |
| PlayerRules.Collect | components/player.js:198-220 | one pickup: a life if below the maximum, two energy, nothing else of the ledger changes |
| PlayerRules.CollectsClosedForm | components/player.js:191-221 | n pickups: lives rise by one per pickup up to the maximum and never beyond, energy rises by two per pickup |
| PlayerRules.LivesStayBounded | components/player.js:212-214 | neither kind of pass lifts lives above the maximum |
| PlayerRules.GameOverStays | components/player.js:184-187 | once the game is over, no collision pass undoes it |
| Enemies.Enemy.FlyingEnemy | components/enemy.js:50-64 | a flying enemy enters right of the world within half a width, in the upper half, drifting left at a speed in (1, 2], with a phase speed in [0.1, 0.2); it uses four draws |
| Enemies.Enemy.GroundEnemy | components/enemy.js:73-85 | a ground enemy stands on the ground line at the right edge and does not move by itself |
| Enemies.Enemy.ClimbingEnemy | components/enemy.js:88-100 | a climbing enemy hangs at the right edge in the upper half and moves up or down at speed 1; it uses two draws |
| Enemies.Enemy.Stepped | components/enemy.js:11-112 | one update: x drifts by the own velocity minus the scroll speed; the sprite clock wraps; the enemy is retired once off the left edge, and a climbing one also once above the top; a climbing one reverses its vertical velocity exactly when its new y is below the ground line, and otherwise keeps it |
| Enemies.Enemy.RunClimbSpeed | components/enemy.js:98-107 | a climbing enemy that starts at speed 1 up or down keeps speed 1 up or down over any number of updates |
| Enemies.Enemy.Update | components/enemy.js:11-112 | the method changes the enemy's fields exactly as `Stepped` says |
| Enemies.Enemy.RunDrift | components/enemy.js:13 | over n updates an enemy drifts by exactly n times (velocity - scroll speed) |
| Enemies.Enemy.RunKeepsMark | components/enemy.js:26-28 | no update clears the removal flag |
| Enemies.Enemy.ScrollsOff | components/enemy.js:26-28 | an enemy that does not move right is retired once the world has scrolled past its right edge |
| Enemies.MarkAt | components/player.js:152 | marking the i-th hit enemy extends the marked prefix by one and changes no other flag |
| Enemies.UpdateAll | components/main.js:84-86 | every enemy of the pool takes exactly one step |
| Enemies.Survivors | components/main.js:127 | the enemy filter keeps exactly the enemies whose flag is clear |
| Replenishments.Carrot.constructor | components/replenishment.js:50-64 | a carrot enters like a flying enemy; half of the carrots also drift vertically, up at a speed in (0, 1] or down at a speed in [1, 2); the coin that decides and the number of draws used are stated |
| Replenishments.Carrot.Stepped | components/replenishment.js:11-70 | one update: x drifts by the own velocity minus the scroll speed, the phase advances and y bobs by its sine, the sprite clock wraps, and the carrot is retired once off the left edge |
| Replenishments.Carrot.Update | components/replenishment.js:11-70 | the method changes the carrot's fields exactly as `Stepped` says |
| Replenishments.Carrot.RunDrift | components/replenishment.js:11-70 | over n updates a carrot drifts by n times (velocity - scroll speed) and its phase advances by n phase steps |
| Replenishments.Carrot.ScrollsOff | components/replenishment.js:26-28 | a carrot is retired once it has drifted past the left edge |
| Replenishments.MarkAt | components/player.js:200 | marking the i-th hit pickup extends the marked prefix by one and changes no other flag |
| Replenishments.UpdateAll | components/main.js:100-102 | every carrot of the pool takes exactly one step |
| Replenishments.Survivors | components/main.js:128 | the pickup filter keeps exactly the carrots whose flag is clear |
| CollisionAnimations.CollisionAnimation.constructor | components/collisionAnimation.js:2-18 | the sprite is scaled by a factor in [0.5, 1.5), centred on the given point, and plays at a rate in [5, 15) frames per second, so its interval lies in (1000/15, 200] |
| CollisionAnimations.CollisionAnimation.Stepped | components/collisionAnimation.js:34-53 | one update: shift left with the scroll, advance the frame without wrapping once the clock has passed the interval, retire the sprite once past its last frame |
| CollisionAnimations.CollisionAnimation.Update | components/collisionAnimation.js:34-53 | the method changes the sprite's fields exactly as `Stepped` says |
| CollisionAnimations.CollisionAnimation.RunSplit | components/collisionAnimation.js:34-53 | a + b updates are a updates followed by b updates |
| CollisionAnimations.CollisionAnimation.RunFrames | components/collisionAnimation.js:39-52 | the frame never goes back and advances at most once per update; the clock accumulates while it has not advanced; the flag is set exactly when the last frame was passed |
| CollisionAnimations.CollisionAnimation.ShownForAllFrames | components/collisionAnimation.js:49-52 | a fresh sprite survives its first maxFrame updates |
| CollisionAnimations.CollisionAnimation.Advances | components/collisionAnimation.js:39-41 | the frame advances once the clock would have passed the interval |
| CollisionAnimations.CollisionAnimation.Block | components/collisionAnimation.js:39-44 | k + 1 updates whose k steps exceed the interval advance the frame |
| CollisionAnimations.CollisionAnimation.Paced | components/collisionAnimation.js:39-44 | j blocks of k + 1 updates advance the frame at least j times |
| CollisionAnimations.CollisionAnimation.Finishes | components/collisionAnimation.js:49-52 | every sprite is eventually retired: after (maxFrame + 1)(k + 1) updates it is marked |
| CollisionAnimations.UpdateAll | components/main.js:122-124 | every explosion of the pool takes exactly one step |
| CollisionAnimations.Survivors | components/main.js:131 | the explosion filter keeps exactly the sprites whose flag is clear |
| FloatingMessages.Approach | components/floatingMessage.js:51-52 | one easing step leaves 97% of the distance to the target and never overshoots it |
| FloatingMessages.Remaining | components/floatingMessage.js:51-52 | the share of the distance still to cover lies in (0, 1] |
| FloatingMessages.FloatingMessage.StaticMessage | components/floatingMessage.js:25-28 | a static message starts where it is shown with a zero timer and a clear flag |
| FloatingMessages.FloatingMessage.DynamicMessage | components/floatingMessage.js:41-46 | a dynamic message starts where it is shown and keeps its target |
| FloatingMessages.FloatingMessage.Stepped | components/floatingMessage.js:10-53 | one update: the timer counts, the message is retired past 100, and a dynamic message eases toward its target |
| FloatingMessages.FloatingMessage.Update | components/floatingMessage.js:10-53 | the method changes the message's fields exactly as `Stepped` says |
| FloatingMessages.FloatingMessage.RunTimer | components/floatingMessage.js:12-13 | after n updates the timer has counted them, and the message is retired exactly when the timer passed 100 |
| FloatingMessages.FloatingMessage.ShownForLifetime | components/floatingMessage.js:12-13 | a fresh message is shown for exactly 100 updates |
| FloatingMessages.FloatingMessage.StaticStill | components/floatingMessage.js:30-32 | a static message never moves |
| FloatingMessages.FloatingMessage.EasesGeometrically | components/floatingMessage.js:48-53 | after n updates a dynamic message's distance to the target is 0.97^n of the initial distance on both axes |
| FloatingMessages.FloatingMessage.NoOvershoot | components/floatingMessage.js:48-53 | a dynamic message stays between its start and its target |
| FloatingMessages.UpdateAll | components/main.js:105-107 | every message of the pool takes exactly one step |
| FloatingMessages.Survivors | components/main.js:129 | the message filter keeps exactly the messages whose flag is clear |
| Engine.Entered | components/playerState.js:26-227 | `enter` restarts the animation at frame 0 on the state's sprite row, applies the state's vertical impulse, and leaves position, horizontal velocity and clock alone |
| Engine.Reacted | components/playerState.js:32-242 | a `handleInput` decision keeps the animation in step with the state; staying changes nothing, the rolling kick only lowers the vertical velocity by 27, a switch lands in the new state at frame 0 |
| Engine.EnteredAgain | components/player.js:179 | being put in Hit again by a later enemy of the same pass changes nothing more |
| Engine.AppendedTrans | components/player.js:156-218 | pushes in a row only append |
| Engine.CollisionsStayDistinct | components/player.js:156-162 | appending new explosions keeps the explosion pool free of duplicates |
| Engine.MessagesStayDistinct | components/player.js:171-173 | appending new messages keeps the message pool free of duplicates |
| Engine.Player.constructor | components/player.js:16-46 | the player starts at the left edge on the ground line with the source's sizes, speeds and weight |
| Engine.Player.Enter | components/playerState.js:26-227 | the current state's `enter` changes the player exactly as `Entered` says |
| Engine.Player.SetState | components/player.js:136-141 | the scroll speed becomes the given multiple of the maximum and the new state is entered |
| Engine.Player.StrikeOne | components/player.js:150-189 | one overlapping enemy moves the ledger by `StrikeEnemy` and appends a new explosion centred on the enemy's centre; a rolling or diving player keeps its body and scroll speed and gets a new '+1' message at the enemy's corner gliding to (0, 0); any other player is put in Hit with the scroll stopped and no message |
| Engine.Player.Reward | components/player.js:164-175 | a point and one energy, and a new '+1' message appended at the given point, gliding toward (0, 0) |
| Engine.Player.Penalise | components/player.js:176-188 | Hit with the scroll stopped, a point and a life lost, game over at 0 lives unless in debug mode |
| Engine.Player.CollectOne | components/player.js:198-220 | one overlapping pickup moves the ledger by `Collect`, appends a new explosion centred on the carrot's centre and a new 'life +1' message at the carrot's corner gliding to (0, 0) |
| Engine.Player.StrikeAll | components/player.js:143-190 | the enemy loop: after it the ledger has moved by `Strikes` over the overlapping enemies and exactly those are marked |
| Engine.Player.StrikeAt | components/player.js:145-189 | one iteration of the enemy loop keeps the loop's invariant |
| Engine.Player.StrikeHit | components/player.js:151-188 | the overlapping case of one iteration keeps the loop's invariant |
| Engine.Player.CollectAll | components/player.js:191-221 | the pickup loop: after it the ledger has moved by `Collects` over the overlapping pickups and exactly those are marked |
| Engine.Player.CollectAt | components/player.js:193-220 | one iteration of the pickup loop keeps the loop's invariant |
| Engine.Player.HandleInput | components/playerState.js:32-242 | the decision of `PlayerStates.HandleInput` is applied: particles unshifted newest first, the 'Energy' message pushed, the change of state made through `setState` or the kick applied |
| Engine.Player.CheckEnemies | components/player.js:143-190 | the ledger moves by `Strikes` over the enemies that overlap the player's box, the player is in Hit if hurt, and exactly the overlapping enemies get marked |
| Engine.Player.CheckPickups | components/player.js:191-221 | the ledger moves by `Collects` over the pickups that overlap the player's box, and exactly those get marked |
| Engine.Player.CheckCollision | components/player.js:142-222 | the enemy pass then the pickup pass, both with the player's box from before either: the ledger moves by `Strikes` then `Collects` |
| Engine.Player.Move | components/player.js:54-85 | x moves by the previous velocity and is clamped by `ClampX`; the new velocity is `SteerX`; y and its velocity follow `Fall` |
| Engine.Player.Animate | components/player.js:87-102 | past the interval the frame wraps, a rolling player pays 0.25 energy unless in debug mode, and the clock restarts; otherwise the clock accumulates |
| Engine.Player.Update | components/player.js:47-111 | the game's invariant is kept; a game over stays over; the player ends inside the world horizontally, not below the ground line, and never rolling without energy; no arrow held means no horizontal velocity |
| Engine.Player.Respond | components/player.js:51-110 | the reaction to the keys then the movement, clock and drained-roll exit keep the invariant; energy changes by nothing or by one 0.25 payment; the player ends in bounds and never rolling without energy |
| Engine.Player.Collide | components/player.js:49 | the collision check as `update` runs it: the ledger moves by `Strikes` then `Collects` over the overlapping enemies and pickups, the player is put in Hit with the scroll stopped exactly when hurt and is otherwise unchanged; the invariant is kept and a game over stays over |
| Engine.Player.React | components/player.js:51 | the state's reaction as `update` runs it: the body changes as `Reacted` says for the decision of `PlayerStates.HandleInput`, the emitted particles are unshifted before the old pool, one message is added exactly on a refused roll; the animation and the scroll speed stay in step with the state |
| Engine.Player.Settle | components/player.js:52-110 | x and the horizontal velocity follow `ClampX` and `SteerX`, y and the vertical velocity follow `Fall`, a rolling player pays 0.25 energy per frame advance unless in debug mode, the frame wraps or holds, and a drained roll ends in Sitting on the ground or Falling in the air at frame 0; the invariant is kept |
| Engine.Player.ExitDrainedRoll | components/player.js:104-110 | a rolling player with no energy sits down on the ground or falls in the air, with the matching scroll speed; afterwards the player never rolls without energy |
| Engine.Game.AddParticles | components/playerState.js:60-66 | the emitted particles are unshifted in order, so the newest is first, and the old pool follows them |
| Engine.Game.WarnEnergy | components/playerState.js:39-41 | a static 'Energy' message at (24, 107) is pushed |
| Engine.Game.AddCollision | components/player.js:156-162 | one new explosion is appended, scaled in [0.5, 1.5), centred on the given point, on its first frame and not retired; it uses two draws |
| Engine.Game.constructor | components/main.js:21-58 | the source's constants, three lives, five energy, empty pools, and the player sitting on the ground with the Sitting animation; the invariant holds |
| Engine.Game.Update | components/main.js:60-132 | the invariant is kept, time advances by the step, the game ends past the time limit unless in debug mode and once over stays over, and both spawn clocks move as the source says |
| Engine.Game.Play | components/main.js:61-75 | time advances by the step and the game ends past the time limit unless in debug mode; after the player's update the invariant holds, the player is inside the world horizontally, not below the ground line and never rolling without energy; the spawn clocks are untouched |
| Engine.Game.StepPools | components/main.js:77-102 | both spawn clocks move as the source says, only new enemies and carrots join the pools, and every enemy and carrot that was there takes exactly one step; the invariant is kept |
| Engine.Game.Finish | components/main.js:104-131 | the effects, the particle cap and the compaction restore the invariant, the particle cap included, and leave the clocks and the game-over flag alone |
| Engine.Game.StepEnemies | components/main.js:78-86 | only new enemies join the pool, and every enemy that was there takes exactly one step |
| Engine.Game.StepPickups | components/main.js:90-102 | only new carrots join the pool, and every carrot that was there takes exactly one step |
| Engine.Game.StepEffects | components/main.js:105-124 | every message and explosion takes one step and the particle pool is cut to its cap |
| Engine.Game.Tick | components/main.js:61-69 | time advances by the step, the game ends past the time limit unless in debug mode, and energy regenerates by 0.001 per millisecond |
| Engine.Game.AddEnemy | components/main.js:145-155 | while the world scrolls a ground enemy (first draw below 0.5) or a climbing one is appended, then always a flying one; new enemies are unmarked and the old pool is a prefix |
| Engine.Game.SpawnEnemies | components/main.js:78-83 | past the interval enemies are added and the clock restarts, otherwise the clock accumulates and the pool is unchanged |
| Engine.Game.SpawnPickups | components/main.js:90-99 | past the interval a carrot is added on a draw below 0.5 and the clock restarts, otherwise the clock accumulates and the pool is unchanged |
| Engine.Game.CapParticles | components/main.js:115-118 | an over-full particle pool keeps its first maxParticles entries, the newest; the pool ends within the cap |
| Engine.Game.Compact | components/main.js:127-131 | the five filters leave every pool free of duplicates and do not grow the particle pool |
| Engine.Game.CompactEnemies | components/main.js:127 | the enemy pool becomes exactly its unmarked enemies in their order |
| Engine.Game.CompactPickups | components/main.js:128 | the pickup pool becomes exactly its unmarked carrots in their order |
| Engine.Game.CompactMessages | components/main.js:129 | the message pool becomes exactly its unmarked messages in their order |
| Engine.Game.CompactParticles | components/main.js:130 | the particle pool becomes exactly its unmarked particles in their order |
| Engine.Game.CompactCollisions | components/main.js:131 | the explosion pool becomes exactly its unmarked sprites in their order |

## Left out

- Drawing, the canvas, sprite images, the UI, the background layers (`background.update()` in `update`) and sound: they do not change the simulated state.
- The input handler of `controls.js` (keyboard and touch events): the held keys are a parameter of `update`.
- The debug toggle of the 'd' key (`controls.js:24-26`): `debug` is a field of the game that the model reads but no modelled operation flips.
- The 'q' cheat key of debug mode (`controls.js:36-47`), which appends an explosion centred on every enemy and marks them all: it runs from a key event, outside `update`.
- The animation loop, the pause flag and the game-over stop of the loop: they decide whether `update` runs, not what it does. `deltaTime` is a parameter.
- Particle motion and lifetime: `particle.js` is not part of this model. A particle is its kind and its removal flag, the flag is never set, and the particle pool is still capped and filtered as the source does.
- `Math.random()` is an arbitrary stream of draws in [0, 1) and `Math.sin` an arbitrary function, both passed in.
- Floating-point rounding and overflow: numbers are mathematical reals.
- The player's own `replenishmentCount` field, which the source creates by incrementing an undefined property: nothing reads it.
- The positions of particles and the text of messages are only kept where a contract states them.
- Engine.Game.Update: does not state the ledger after the tick (score, lives, energy, enemies destroyed) or the player's state and body; the collision part is stated by Engine.Player.Collide, the reaction by Engine.Player.React, the movement and drained-roll exit by Engine.Player.Settle, and energy regeneration by Engine.Game.Tick. It also does not state which entities survive the tick. Which entities each pool keeps is stated pool by pool by Engine.Game.CompactEnemies and its four siblings, and that every old enemy and carrot takes one step by Engine.Game.StepEnemies and Engine.Game.StepPickups.
- Engine.Game.Compact: states only that no pool gains a duplicate and that the particle pool does not grow; the exact survivors are stated by the five methods it calls.
- Engine.Player.CheckCollision: does not repeat which entities get marked; Engine.Player.CheckEnemies and Engine.Player.CheckPickups state that.
- Engine.Player.Update: states the invariants the player update keeps and the bounds it ends in, not the ledger after the update (score, lives, energy, enemies destroyed) or the player's new state and body; those are stated step by step by Engine.Player.Collide, Engine.Player.React and Engine.Player.Settle, not composed.
- Engine.Player.Respond: states the invariant, the bounds and that energy changes by at most one 0.25 payment; the exact body and state are stated by Engine.Player.React and Engine.Player.Settle.
- Engine.Game.Play: does not state the ledger after the player's update; energy regeneration is stated by Engine.Game.Tick and the player's part by Engine.Player.Update and the methods it calls.
- Engine.Player.React: states the particle and message counts and the order of the particle pool, not the kinds of the new particles or the text of the message; Engine.Player.HandleInput states those.
- Engine.Game.Finish: states only the invariant; the steps of the effects are stated by Engine.Game.StepEffects.
