# Spirit Shift — a verified model of the game core

Spirit Shift is a side-scrolling platformer. The player switches between five
elements (spirit, fire, water, earth, air) and shoots elemental projectiles at
enemies standing on platforms. All game state lives in one React store, which
a reducer (`gameReducer`) updates. A frame loop (`useGameLoop`) reads a
snapshot of that store on every animation frame. It computes movement, gravity
and landing, then dispatches a fixed series of commands back to the reducer.
Levels after the tutorial are drawn procedurally from a seed by a
linear-congruential generator.

This project models that core in Dafny:

- `game_types.dfy` (`GameTypes`): the store's records. These are the player,
  platforms, enemies, projectiles, the game state and the 32 reducer commands.
  `Date.now()` readings travel inside the commands that need them
  (`StartGame(now)`, `RestartGame(now)`, `PlayerShoot(now, ux, uy)`,
  `EndGame(bootSeed)`).
- `prng.dfy` (`Prng`): the generator `seed = (seed * 9301 + 49297) % 233280`
  and its scaling into a range. The closure's hidden seed is threaded
  explicitly.
- `level_gen.dfy` (`LevelGen`): `generatePlatforms` and `generateEnemies`.
  Each is written twice:
  - a tail-recursive function that the reducer uses;
  - an imperative method that runs the source's loop: the seed is reassigned
    by each draw, rejected candidates repeat the iteration (`i--`), and the
    enemy loop `splice`s the chosen platform out of its list.

  Each method is proved to compute exactly what its function computes. Lemmas
  prove the shape of every generated level:
  - the ground, then the start platform, then floating platforms;
  - no floating platform overlaps an earlier one;
  - each enemy is on its own floating platform at full health.
- `collision.dfy` (`Collision`): the three player-versus-platform tests of the
  frame loop, and how they relate.
- `combat.dfy` (`Combat`): the elemental damage table and one projectile's
  tick. `ResolveProjectile` is the callback with its two `break` loops.
- `reducer.dfy` (`Reducer`): every case of `gameReducer` as a total function,
  the fold of a command list, and the provider's level-advance rule.
- `game_loop.dfy` (`GameLoop`):
  - `updateGameState`: a specification function `Plan` and an imperative
    method `UpdateGameState` proved to dispatch exactly `TickCommands`.
  - `Tick`: the effect of one tick on the store, which is those commands
    folded through the reducer.
  - `FrameClock`: the frame gate of `gameLoop`, a class over
    `previousTimeRef`.

Positions, velocities, health, energy and score are `real`. Seeds, levels and
ids are natural numbers, and times are integers.

Several behaviours of the code are modelled as written, and lemmas state them:

- Projectile hits compute damage only in the callback's local copy of the
  enemy list. The reducer never stores that copy, so `UPDATE_PROJECTILES`
  removes and scores only enemies that were already at health 0
  (`ProjectileHitsDoNotDamage`).
- `UPDATE_PLAYER`, which the tick dispatches with the regenerated energy, has
  no reducer case, so the energy is never stored (`TickProgress`).
- `PLAYER_LAND` treats the player's `y` as the top edge of its box. The tick
  treats `y` as the bottom edge. The tick's move command overwrites the
  landing, so a landed player's stored `y` is the platform's top
  (`LandingConventionsDisagree`).
- The tick advances past the tutorial once `x > 600`. The provider's effect
  waits for `x > 800`. A tick that moves a tutorial player to an `x` in
  (600, 800] advances the level, while the provider's rule at that same
  position does not fire (`TutorialExitsDisagree`).
- The damage table's same-element branch also covers spirit against spirit,
  which gives 0.25.
- The tick applies no element modifier to the vertical velocity after
  gravity. Only the take-off velocity of a jump depends on the element.
- `START_GAME` and `RESTART_GAME` use the same tutorial platform list as the
  initial state: the ground alone (`generateTutorialLevel`).

## Model

| member | source | states |
|---|---|---|
| GameTypes.InitialGameState | src/contexts/GameContext.tsx:277-292 | the state before any command: not playing, level 1 tutorial with only the ground, no enemies or projectiles, seeded by the load-time clock |
| Prng.NextSeed | src/contexts/GameContext.tsx:150-154 | one generator step always yields a seed below the modulus 233280 |
| Prng.Scaled | src/contexts/GameContext.tsx:150-154 | `min + (seed / 233280) * (max - min)` lies between min and max, strictly below max when the range is non-empty |
| Prng.ScaledBounds | src/contexts/GameContext.tsx:150-154 | the bounds of the scaled draw, for either order of the range's ends |
| Prng.PickIndex | src/contexts/GameContext.tsx:191-192 | `Math.floor(rng(0, n))` is a valid index below n |
| Collision.Overlapping | src/hooks/useGameLoop.tsx:84-103 | `checkPlatformCollision`: the boxes overlap strictly on the horizontal axis, touching included on the vertical one |
| Collision.StandingOn | src/hooks/useGameLoop.tsx:105-126 | `checkStandingOnPlatform`: moving down or at rest, the bottom edge between the platform's top and 10 below it, spans overlapping |
| Collision.HittingBottom | src/hooks/useGameLoop.tsx:128-149 | `checkHittingPlatformBottom`: only a pass-through platform, moving up, the top edge within 10 under the platform's bottom, spans overlapping |
| Collision.StandingExcludesHitting | src/hooks/useGameLoop.tsx:105-149 | standing on a platform and striking its underside never both hold: one needs downward motion, the other upward |
| Collision.HittingBottomFacts | src/hooks/useGameLoop.tsx:128-149 | an underside hit means a pass-through platform, upward motion, and the player's top within 10 of the platform's bottom |
| Collision.StandingIsOverlapping | src/hooks/useGameLoop.tsx:84-125 | a player standing on a platform overlaps it as `checkPlatformCollision` tests, once the two heights reach the 10-unit tolerance |
| Collision.SnappedStaysStanding | src/hooks/useGameLoop.tsx:105-125 | a player whose bottom is snapped to a platform's top, at rest, passes the standing test for it |
| Combat.DamageMultiplier | src/contexts/GameContext.tsx:590-608 | the element table: 2 for fire→air, water→fire, earth→water, air→earth, 0.5 for the reverse pairs, 0.25 for the same element, 1 otherwise |
| Combat.MultiplierFollowsCycle | src/contexts/GameContext.tsx:590-608 | the multiplier is 2 exactly against the element's prey in the cycle fire→air→earth→water→fire, 0.5 exactly against the element that preys on it, 0.25 exactly for the same element (spirit included), and 1 otherwise |
| Combat.AdvantageIsReversedDisadvantage | src/contexts/GameContext.tsx:590-608 | a doubled pairing read backwards is a halved one, and the converse |
| Combat.PreyIsFourCycle | src/contexts/GameContext.tsx:592-605 | each non-spirit element beats a different non-spirit element, and four steps of the cycle return to the start |
| Combat.FirstStruck | src/contexts/GameContext.tsx:581-619 | the enemy loop stops at the first enemy in list order whose box the projectile meets, or reports none when it meets no enemy |
| Combat.Struck | src/contexts/GameContext.tsx:610-614 | only the struck enemy changes; its health becomes `max(0, health - damage * multiplier)` |
| Combat.StepProjectile | src/contexts/GameContext.tsx:568-641 | an inactive projectile is unchanged; an active one moves by exactly one velocity step and is deactivated there when it leaves the 2000×800 world; it stays active only if it stays in the world and meets no enemy and no solid platform, and an in-world active projectile that stops did meet one |
| Combat.LocalEnemies | src/contexts/GameContext.tsx:579-619 | the callback's local enemy copy has as many enemies as the store's |
| Combat.ResolveProjectile | src/contexts/GameContext.tsx:568-641 | the callback's loops, with its `hasCollided` flag and `break`s, return exactly `StepProjectile` and `LocalEnemies` |
| Combat.KeepActive | src/contexts/GameContext.tsx:642 | keeps exactly the active projectiles, as a sub-multiset of the input |
| Combat.KeepActiveAppend | src/contexts/GameContext.tsx:642 | the active filter distributes over concatenation, so it keeps the projectiles' order |
| Combat.AdvanceProjectiles | src/contexts/GameContext.tsx:566-642 | the result is `KeepActive` of the one-tick steps in input order, so it keeps one survivor per input, in order; every survivor is active, inside the world, and the step of an active input projectile; every input whose step stays active survives |
| Combat.Survivors | src/contexts/GameContext.tsx:644 | keeps exactly the enemies with positive health, as a sub-multiset of the input |
| Combat.SurvivorsAppend | src/contexts/GameContext.tsx:644 | the health filter distributes over concatenation, so it keeps the enemies' order |
| Combat.SurvivorsCount | src/contexts/GameContext.tsx:644-647 | the filter removes exactly the enemies at health 0 or below, so the defeated count is their number |
| LevelGen.PlatformCount | src/contexts/GameContext.tsx:176 | `5 + min(3 * level, 20)` platforms, between 5 and 25 |
| LevelGen.Candidate | src/contexts/GameContext.tsx:181-194 | one pass's five draws in order: x in the pass's segment, y, width, element, pass-through; the seed after them stays below the modulus |
| LevelGen.CandidateIsFloating | src/contexts/GameContext.tsx:180-194 | every drawn candidate is 15 high, 80 to 200 wide, with its top between 150 and 450 and one of the four floating elements |
| LevelGen.PlaceFrom | src/contexts/GameContext.tsx:180-216 | the rejection loop never shortens the list it is given and keeps its first platform |
| LevelGen.PlaceFromExtends | src/contexts/GameContext.tsx:180-216 | the rejection loop only appends: the platforms it was given stay, in order, at the front |
| LevelGen.ExtendLayout | src/contexts/GameContext.tsx:196-212 | pushing a floating platform that overlaps nothing placed keeps the layout free of overlaps |
| LevelGen.PlaceFromStep | src/contexts/GameContext.tsx:196-214 | one attempt drops an overlapping candidate and retries the same index, or pushes the candidate and moves on |
| LevelGen.PlaceFromShape | src/contexts/GameContext.tsx:180-216 | from any well-formed prefix, the loop yields a well-formed layout of at most `2 + PlatformCount` platforms, complete exactly when every platform was placed |
| LevelGen.PlatformLayout | src/contexts/GameContext.tsx:149-219 | every layout starts with the ground; the tutorial layout is the ground alone |
| LevelGen.PlatformLayoutShape | src/contexts/GameContext.tsx:149-219 | beyond the tutorial: the ground, the start platform at (50, 350), then non-overlapping floating platforms, complete exactly when all `PlatformCount` were placed |
| LevelGen.DrawCandidate | src/contexts/GameContext.tsx:181-194 | the five in-order `rng` calls of one pass yield exactly `Candidate` and the seed it leaves |
| LevelGen.GeneratePlatforms | src/contexts/GameContext.tsx:149-219 | the source's loop, with its `push` and `i--` and its seed reassigned by every draw, computes exactly `PlatformLayout` |
| LevelGen.Attempt | src/contexts/GameContext.tsx:180-216 | one pass of the loop body advances the index by at most one and leaves the rest of the loop's outcome unchanged |
| LevelGen.EnemyCount | src/contexts/GameContext.tsx:236 | `min(2 * level, 15)` enemies are attempted |
| LevelGen.InitialSlots | src/contexts/GameContext.tsx:240 | `platforms.slice(2)`, as the indices 2, 3, … of the platform list, empty for fewer than two platforms |
| LevelGen.SpawnEnemy | src/contexts/GameContext.tsx:245-267 | the drawn platform slot is one of the slots still available |
| LevelGen.SpawnIsWellPlaced | src/contexts/GameContext.tsx:245-267 | the drawn enemy is 30×30 with id i and full health `30 + 5 * level`, stands on the drawn platform's top, is of a floating element, and has speed between 0.5 and `0.5 + 0.2 * level` |
| LevelGen.Splice | src/contexts/GameContext.tsx:269 | `splice(index, 1)` removes exactly that entry and keeps the order of the rest |
| LevelGen.SpliceKeepsSlotsFree | src/contexts/GameContext.tsx:245-269 | after a splice the remaining slots are still distinct and unused, and the used slot is recorded |
| LevelGen.SpawnFrom | src/contexts/GameContext.tsx:242-270 | the roster loop never shortens the roster it is given |
| LevelGen.SpawnFromExtends | src/contexts/GameContext.tsx:242-270 | the roster loop only appends: earlier enemies and their platforms stay, in order, at the front |
| LevelGen.SpawnFromShape | src/contexts/GameContext.tsx:242-270 | each enemy is well placed on a platform no other enemy uses, and the roster holds `min(EnemyCount, free platforms)` enemies |
| LevelGen.EnemyRoster | src/contexts/GameContext.tsx:222-226 | the tutorial level has no enemies |
| LevelGen.EnemyRosterShape | src/contexts/GameContext.tsx:222-273 | every generated enemy is on its own floating platform, and there are as many as the level asks for or as there are floating platforms, whichever is fewer |
| LevelGen.SpawnFromStep | src/contexts/GameContext.tsx:243-270 | one pass of the roster loop leaves the rest of the roster to the spliced list |
| LevelGen.DrawLevel | src/contexts/GameContext.tsx:715-718 | level 1 draws only the ground and no enemies |
| LevelGen.DrawLevelShape | src/contexts/GameContext.tsx:715-718 | a drawn level beyond the tutorial has a well-formed layout and at most `EnemyCount` enemies, one per floating platform at most, numbered in order and at full health |
| LevelGen.DrawLevelRoster | src/contexts/GameContext.tsx:715-718 | every enemy of a drawn level stands 30 above its own floating platform, no two on the same one |
| LevelGen.RosterHealth | src/contexts/GameContext.tsx:242-270 | a roster beyond the tutorial has at most `EnemyCount` enemies and at most one per floating platform, with ids 0, 1, … and full health |
| LevelGen.DrawEnemy | src/contexts/GameContext.tsx:245-267 | the five in-order `rng` calls over the shrinking platform copy draw exactly `SpawnEnemy`'s enemy, slot and seed |
| LevelGen.SpliceKeepsAligned | src/contexts/GameContext.tsx:269 | splicing the same entry out of the platform copy and out of its index list keeps them aligned |
| LevelGen.GenerateEnemies | src/contexts/GameContext.tsx:222-273 | the source's loop, with its early `break`, `push` and `splice`, computes exactly `EnemyRoster`'s enemies |
| Reducer.Started | src/contexts/GameContext.tsx:299-316 | `START_GAME` is a running, unpaused tutorial at level 1 with score 0, only the ground, no enemies or projectiles, the clock as world seed, and the initial player at (100, 450) on a platform |
| Reducer.RestartIsStart | src/contexts/GameContext.tsx:323-342 | `RESTART_GAME` yields the same state as `START_GAME`, whatever came before |
| Reducer.MoveLeft | src/contexts/GameContext.tsx:372-384 | only the left flag, the horizontal velocity and the facing change; pressing faces left and sets `velocityX` to −3 when ducking and −5 otherwise; releasing keeps the facing and sets +3/+5 while the right flag is held, 0 otherwise |
| Reducer.MoveRight | src/contexts/GameContext.tsx:385-397 | the mirror image of `MoveLeft`: pressing faces right at +3 ducking or +5, releasing leaves −3/−5 while the left flag is held, 0 otherwise |
| Reducer.CrouchVelocity | src/contexts/GameContext.tsx:406-407 | ducking keeps the direction of motion and sets a moving player's speed to exactly 2 |
| Reducer.StandVelocity | src/contexts/GameContext.tsx:408 | standing up moves exactly when a movement flag is set, rightward exactly when the right flag is, at speed exactly 5 |
| Reducer.Duck | src/contexts/GameContext.tsx:398-411 | only the ducking flag, height (30 ducking, 50 standing) and horizontal velocity change |
| Reducer.JumpVelocity | src/contexts/GameContext.tsx:419-435 | every take-off velocity is upward, between -18 and -14 |
| Reducer.Jump | src/contexts/GameContext.tsx:412-446 | a jump is refused while jumping or off a platform; otherwise the player leaves the platform with its element's take-off velocity |
| Reducer.JumpIsIdempotent | src/contexts/GameContext.tsx:412-446 | no double jump: a second jump right after the first changes nothing |
| Reducer.Land | src/contexts/GameContext.tsx:447-459 | landing stops the fall, ends the jump, sets `onPlatform`, and puts the player's `y` one height above the platform's top |
| Reducer.Aim | src/contexts/GameContext.tsx:468-479 | the aim vector is stored, and the player faces right exactly when its x is non-negative |
| Reducer.NewShot | src/contexts/GameContext.tsx:489-553 | the new projectile is active, carries the next id and the player's element with its damage and size, starts at the player's mid-height and half a width from its centre along the shot direction, and flies at 12 times the unit vector the command carries, or straight ahead in the facing direction when the aim is shorter than 0.1 |
| Reducer.Shoot | src/contexts/GameContext.tsx:480-565 | during the cooldown or below 10 energy nothing changes; otherwise one projectile is appended, the id counter increases, 10 energy is spent and the shot time recorded |
| Reducer.CooldownAllowsOneShot | src/contexts/GameContext.tsx:480-487 | two shots less than a cooldown apart add at most one projectile |
| Reducer.SetHealth | src/contexts/GameContext.tsx:676-684 | health is the payload clamped to [0, maxHealth]: the payload itself in range, maxHealth at or above it, 0 at or below 0; `gameOver` becomes exactly "payload ≤ 0" |
| Reducer.SetEnergy | src/contexts/GameContext.tsx:702-709 | energy is the payload clamped to [0, maxEnergy]: the payload itself in range, maxEnergy at or above it, 0 at or below 0 |
| Reducer.ProjectileTick | src/contexts/GameContext.tsx:566-655 | projectiles advance one step with the spent ones dropped; the enemy list becomes `Survivors` of the old one; the score rises by 10 per enemy removed |
| Reducer.DropProjectile | src/contexts/GameContext.tsx:656-660 | the projectile list becomes `Without` the id; exactly the projectiles with other ids remain |
| Reducer.Without | src/contexts/GameContext.tsx:659 | the id filter keeps exactly the projectiles with other ids, as a sub-multiset of the input |
| Reducer.WithoutAppend | src/contexts/GameContext.tsx:659 | the id filter distributes over concatenation, so it keeps the projectiles' order |
| Reducer.ReplaceById | src/contexts/GameContext.tsx:691-701 | every enemy with the payload's id is replaced by the payload, the others kept in place |
| Reducer.DamageById | src/contexts/GameContext.tsx:756-760 | every enemy with the id loses the damage, floored at 0; the others are kept in place |
| Reducer.EnemiesWithout | src/contexts/GameContext.tsx:774-778 | exactly the enemies with other ids remain, as a sub-multiset of the input |
| Reducer.EnemiesWithoutAppend | src/contexts/GameContext.tsx:774-778 | the enemy id filter distributes over concatenation, so it keeps the enemies' order |
| Reducer.HurtEnemy | src/contexts/GameContext.tsx:755-773 | an enemy remains exactly when it is in the damaged list with positive health, so every enemy at health 0 or below is removed, not only the one hit, and scores 10 |
| Reducer.NextLevel | src/contexts/GameContext.tsx:715-739 | the next level is drawn from `worldSeed + level`; the player is put at (100, 300) at rest on a platform with +20 health and +50 energy, capped; projectiles and progress are cleared and the tutorial flag dropped |
| Reducer.NextLevelLayout | src/contexts/GameContext.tsx:715-739 | the level entered has the shape of a generated level: a well-formed layout, enemies numbered in order and at full health, at most one per floating platform |
| Reducer.NextLevelRoster | src/contexts/GameContext.tsx:715-739 | each enemy of the level entered stands on its own floating platform |
| Reducer.RegenerateLevel | src/contexts/GameContext.tsx:740-749 | only platforms and enemies change, drawn again from the current level's seed |
| Reducer.Reduce | src/contexts/GameContext.tsx:295-782 | `gameReducer`: one case per command, unknown commands (`UPDATE_PLAYER`) leave the state as it was |
| Reducer.ReduceAll | src/contexts/GameContext.tsx:295-782 | dispatching a list of commands one after the other |
| Reducer.ReduceAllAppend | src/contexts/GameContext.tsx:295-782 | dispatching two command lists one after the other is dispatching their concatenation |
| Reducer.LifecycleKeepsBounded | src/contexts/GameContext.tsx:299-342 | the lifecycle commands keep health and energy within their limits |
| Reducer.PositionKeeps | src/contexts/GameContext.tsx:345-371 | the position commands keep the play flags and the health and energy bounds |
| Reducer.WalkKeeps | src/contexts/GameContext.tsx:372-411 | the walking and ducking commands keep the play flags and the bounds |
| Reducer.StanceKeeps | src/contexts/GameContext.tsx:412-479 | jump, land, aim and element change keep the play flags and the bounds |
| Reducer.ShotKeeps | src/contexts/GameContext.tsx:480-660 | shooting and the projectile commands keep the play flags and the bounds |
| Reducer.VitalsKeep | src/contexts/GameContext.tsx:676-714 | the health, energy and score commands keep the play flags and the bounds |
| Reducer.RosterKeeps | src/contexts/GameContext.tsx:685-701 | the enemy-list commands keep the play flags and the bounds |
| Reducer.CasualtyKeeps | src/contexts/GameContext.tsx:755-778 | damaging and removing enemies keep the play flags and the bounds |
| Reducer.WorldKeeps | src/contexts/GameContext.tsx:343-344 | game over, platform replacement and the unknown `UPDATE_PLAYER` keep the play flags and the bounds |
| Reducer.LevelKeeps | src/contexts/GameContext.tsx:715-749 | advancing and regenerating a level keep the play flags and the bounds |
| Reducer.ReduceKeepsPlayState | src/contexts/GameContext.tsx:295-782 | every command except the five lifecycle ones leaves `isPlaying` and `isPaused` as they were |
| Reducer.IgnoresRunFlags | src/contexts/GameContext.tsx:295-782 | no case checks the play state: every command except the five lifecycle ones gives the same result on a state whatever its `isPlaying`, `isPaused` and `gameOver`, carrying those flags through, except that `GAME_OVER` and `UPDATE_HEALTH` set `gameOver` |
| Reducer.ShootIgnoresFlags | src/contexts/GameContext.tsx:480-565 | a shot's result does not depend on the run flags, which it carries through |
| Reducer.NextLevelIgnoresFlags | src/contexts/GameContext.tsx:715-739 | the next level's state does not depend on the run flags, which it carries through |
| Reducer.PositionIsBlind | src/contexts/GameContext.tsx:345-467 | `PLAYER_MOVE`, `PLAYER_MOVE_WITH_VELOCITY`, `UPDATE_VELOCITY_Y` and `SET_ON_PLATFORM` act the same whatever the run flags |
| Reducer.WalkIsBlind | src/contexts/GameContext.tsx:372-411 | `PLAYER_MOVE_LEFT`, `PLAYER_MOVE_RIGHT` and `PLAYER_DUCK` act the same whatever the run flags |
| Reducer.JumpIsBlind | src/contexts/GameContext.tsx:412-459 | `PLAYER_JUMP` and `PLAYER_LAND` act the same whatever the run flags |
| Reducer.AimIsBlind | src/contexts/GameContext.tsx:468-670 | `UPDATE_AIM_DIRECTION` and `CHANGE_ELEMENT` act the same whatever the run flags |
| Reducer.ShotIsBlind | src/contexts/GameContext.tsx:480-565 | `PLAYER_SHOOT` acts the same whatever the run flags |
| Reducer.ProjectilesAreBlind | src/contexts/GameContext.tsx:566-660 | `UPDATE_PROJECTILES` and `REMOVE_PROJECTILE` act the same whatever the run flags |
| Reducer.VitalsAreBlind | src/contexts/GameContext.tsx:676-714 | `UPDATE_HEALTH`, `UPDATE_ENERGY` and `UPDATE_SCORE` act the same whatever the run flags, `UPDATE_HEALTH` setting `gameOver` from its payload alone |
| Reducer.RosterIsBlind | src/contexts/GameContext.tsx:685-754 | `UPDATE_ENEMIES`, `UPDATE_ENEMY` and `ADD_ENEMY` act the same whatever the run flags |
| Reducer.CasualtyIsBlind | src/contexts/GameContext.tsx:755-778 | `DAMAGE_ENEMY` and `REMOVE_ENEMY` act the same whatever the run flags |
| Reducer.WorldIsBlind | src/contexts/GameContext.tsx:343-780 | `GAME_OVER`, `SET_PLATFORMS` and the unhandled `UPDATE_PLAYER` act the same whatever the run flags, `GAME_OVER` always setting `gameOver` |
| Reducer.LevelIsBlind | src/contexts/GameContext.tsx:715-749 | `ADVANCE_LEVEL` and `GENERATE_LEVEL` act the same whatever the run flags |
| Reducer.ReduceKeepsBounded | src/contexts/GameContext.tsx:295-782 | every command keeps health in [0, maxHealth] and energy in [0, maxEnergy] |
| Reducer.KeepsByGroup | src/contexts/GameContext.tsx:343-782 | every command that is not a lifecycle command keeps the play flags and the bounds |
| Reducer.ReduceAllKeepsBounded | src/contexts/GameContext.tsx:295-782 | any sequence of commands keeps health and energy within their limits |
| Reducer.PauseResumeRoundTrip | src/contexts/GameContext.tsx:317-320 | pausing then resuming changes nothing but the pause flag; pausing twice is pausing once |
| Reducer.MoveWithVelocityKeepsVelocityX | src/contexts/GameContext.tsx:354-363 | `PLAYER_MOVE_WITH_VELOCITY` ignores the horizontal velocity it carries |
| Reducer.ProjectileHitsDoNotDamage | src/contexts/GameContext.tsx:566-655 | after `UPDATE_PROJECTILES` every remaining enemy is an unchanged enemy of the old list: hits never lower health |
| Reducer.AdvanceDue | src/contexts/GameContext.tsx:909-920 | the provider's advance rule: a running game whose player is past 800 on the tutorial or past 1500 on another level |
| Reducer.AdvanceFiresOnce | src/contexts/GameContext.tsx:909-920 | once the advance rule fires and the level is entered, the rule does not fire again on the new state |
| GameLoop.CappedDelta | src/hooks/useGameLoop.tsx:153 | the step is the elapsed time capped at 0.1 seconds |
| GameLoop.BaseSpeed | src/hooks/useGameLoop.tsx:167-180 | air is faster and earth slower than the walking speed, and the other elements walk at it |
| GameLoop.HorizontalVelocity | src/hooks/useGameLoop.tsx:182-189 | zero exactly when both or neither movement flag is set, leftward exactly when only left is held, otherwise at the base speed |
| GameLoop.HorizontalVelocityIgnoresMomentum | src/hooks/useGameLoop.tsx:161-189 | the stored velocity plays no part in the tick's horizontal velocity, and ducking slows it |
| GameLoop.ClampX | src/hooks/useGameLoop.tsx:203 | the centre stays within [w/2, 1600 − w/2]; an in-range x is unchanged, one left of w/2 becomes w/2, one right of 1600 − w/2 becomes 1600 − w/2 |
| GameLoop.LandScan | src/hooks/useGameLoop.tsx:219-236 | a landing zeroes the velocity on a listed platform the player stands on; the velocity otherwise stays, becomes 0 or half its size, never decreasing while upward |
| GameLoop.FallingLandsOnFirstMatch | src/hooks/useGameLoop.tsx:219-236 | a falling player lands on the first platform in list order that qualifies, and on none exactly when none qualifies |
| GameLoop.RisingBouncesOnFirstUnderside | src/hooks/useGameLoop.tsx:219-236 | a rising player passes every platform up to the first whose underside it strikes; there the velocity becomes `|vy * 0.5|` and the scan goes on with the rest; with no such platform the scan ends with `vy` and no landing |
| GameLoop.EnergyRegen | src/hooks/useGameLoop.tsx:273-289 | regeneration per tick lies between 0.05 and 0.1 and is highest exactly for fire |
| GameLoop.MovedX | src/hooks/useGameLoop.tsx:192-203 | the player moves by exactly `velocityX * 60 * cappedDelta` when that stays in the world, and stops at the wall it would cross otherwise |
| GameLoop.GravityBlock | src/hooks/useGameLoop.tsx:210-246 | the block runs exactly for a jumping or unsupported player; it reports `PLAYER_LAND` with the platform's top and zero velocity, or `SET_ON_PLATFORM(false)`; otherwise `y` and the vertical velocity are unchanged |
| GameLoop.FloorClamp | src/hooks/useGameLoop.tsx:248-255 | a bottom at or past 800 is put at 800 with velocity 0; one above 800 is left alone |
| GameLoop.Plan | src/hooks/useGameLoop.tsx:151-305 | the tick's outcome: x in bounds, y at most 800 with the floor reported exactly when the gravity block's bottom reaches 800, advance exactly on the tutorial past 600, gravity exactly when airborne, energy regenerated up to the maximum |
| GameLoop.GroundedSkipsGravity | src/hooks/useGameLoop.tsx:211 | a supported, non-jumping player keeps its y and vertical velocity and reports nothing |
| GameLoop.AirborneScan | src/hooks/useGameLoop.tsx:211-246 | for an airborne player the block's outcome is the platform scan's |
| GameLoop.AirborneLandsOnFirstMatch | src/hooks/useGameLoop.tsx:211-246 | an airborne player falling after gravity lands on the first qualifying platform, at its top with zero velocity; with none the block reports `SET_ON_PLATFORM(false)` and the fall goes on |
| GameLoop.AirborneBouncesOnFirstUnderside | src/hooks/useGameLoop.tsx:211-246 | an airborne player still rising after gravity bounces at the first underside it strikes and then lands on the first qualifying platform after it, or keeps going and reports `SET_ON_PLATFORM(false)`; with no underside hit it keeps rising |
| GameLoop.CommandOrder | src/hooks/useGameLoop.tsx:206-299 | the tick dispatches 3 to 6 commands: an optional advance first, then landing and floor reports, then the move, the projectile step and the energy update, in that order |
| GameLoop.CommandReports | src/hooks/useGameLoop.tsx:206-255 | `ADVANCE_LEVEL` is dispatched exactly when the plan advances, and `SET_ON_PLATFORM(true)` exactly when the floor was reached |
| GameLoop.MoveHorizontally | src/hooks/useGameLoop.tsx:159-203 | the source's speed switch, velocity choice, step and clamp compute exactly `MovedX` and `HorizontalVelocity` |
| GameLoop.FallAndLand | src/hooks/useGameLoop.tsx:211-246 | the gravity step and the platform loop with its `break` compute exactly the gravity block |
| GameLoop.UpdateGameState | src/hooks/useGameLoop.tsx:151-305 | the imperative tick dispatches exactly the commands of the plan, in order |
| GameLoop.TickCommands | src/hooks/useGameLoop.tsx:151-305 | the commands `updateGameState` dispatches, in order |
| GameLoop.Tick | src/hooks/useGameLoop.tsx:151-305 | a tick is those commands applied to the store one after the other |
| GameLoop.ReduceAllOne | src/hooks/useGameLoop.tsx:151-305 | dispatching one command is one reducer step |
| GameLoop.TickStepKeeps | src/hooks/useGameLoop.tsx:238-299 | each non-advance tick command keeps the level, the world, the play flags, health, energy and horizontal velocity |
| GameLoop.TickStepsKeep | src/hooks/useGameLoop.tsx:238-299 | so does any sequence of them |
| GameLoop.AdvanceResets | src/contexts/GameContext.tsx:715-739 | as the tick sees it, `ADVANCE_LEVEL` enters the next level, grants 50 energy and stops the player |
| GameLoop.PlanLandingIsReport | src/hooks/useGameLoop.tsx:238-245 | the gravity block only ever dispatches `PLAYER_LAND` or `SET_ON_PLATFORM(false)` |
| GameLoop.PlanProgress | src/hooks/useGameLoop.tsx:206-299 | folding a plan's commands enters the next level exactly when it advances; otherwise level, energy and horizontal velocity stay as they were |
| GameLoop.TickProgress | src/hooks/useGameLoop.tsx:206-299 | one tick enters the next level exactly on the tutorial past 600; otherwise energy is unchanged, so the regenerated energy is never stored |
| GameLoop.ReduceAllCons | src/hooks/useGameLoop.tsx:151-305 | dispatching a command and then a list is one reducer step followed by the list |
| GameLoop.MoveSetsPosition | src/contexts/GameContext.tsx:354-363 | the move command sets x, y and vertical velocity and nothing else of the player |
| GameLoop.ProjectilesKeepPlayer | src/contexts/GameContext.tsx:649-654 | the projectile step leaves the player alone |
| GameLoop.LastTwoKeepPlayer | src/hooks/useGameLoop.tsx:270-299 | the projectile step and the ignored `UPDATE_PLAYER` leave the player alone |
| GameLoop.TailPlacesPlayer | src/hooks/useGameLoop.tsx:259-299 | the last three commands put the player where the tick computed and keep the rest of the player |
| GameLoop.PlanPlacesPlayer | src/hooks/useGameLoop.tsx:238-267 | after a plan's commands the player is where the move command put it, whatever `PLAYER_LAND` set in between |
| GameLoop.TickPlacesPlayer | src/hooks/useGameLoop.tsx:192-267 | after a tick the player is inside the world's horizontal bounds, not below 800, and at rest if on the floor |
| GameLoop.LandingConventionsDisagree | src/hooks/useGameLoop.tsx:219-267 | for a falling player landing on platform k above the floor, `PLAYER_LAND` sets y to the top minus the height, but after the tick the stored y is the platform's top |
| GameLoop.TickKeepsBounded | src/hooks/useGameLoop.tsx:151-305 | a tick keeps health and energy within their limits |
| GameLoop.TutorialExitsDisagree | src/hooks/useGameLoop.tsx:206-208 | on the tutorial with 600 < x ≤ 800 the tick enters the next level although the provider's rule would not fire at that x |
| GameLoop.Remainder | src/hooks/useGameLoop.tsx:77 | `elapsed % fpsInterval` lies in [0, fpsInterval) and differs from `elapsed` by a whole number of intervals |
| GameLoop.FloorScales | src/hooks/useGameLoop.tsx:77 | the whole number of intervals in `elapsed` fits in it, and one more does not |
| GameLoop.RemainderIsUnique | src/hooks/useGameLoop.tsx:77 | the remainder is the only value in [0, fpsInterval) that differs from `elapsed` by a whole number of intervals |
| GameLoop.FrameCommands | src/hooks/useGameLoop.tsx:55-81 | a frame dispatches something exactly when more than one interval has passed and the game runs, and then exactly the tick of the elapsed time in seconds; the first frame dispatches nothing |
| GameLoop.NextPrevious | src/hooks/useGameLoop.tsx:71-78 | after a counting frame the stored time has moved forward by a whole number of intervals and trails the frame's time by less than one; otherwise it is unchanged |
| GameLoop.FrameClock.constructor | src/hooks/useGameLoop.tsx:41 | no frame time is stored yet |
| GameLoop.FrameClock.Frame | src/hooks/useGameLoop.tsx:55-81 | one animation frame stores the first time seen, runs a tick of the elapsed seconds when the gate opens, and moves the stored time forward by whole intervals |

## Left out

- LevelGen.PlaceFrom, LevelGen.GeneratePlatforms: the rejection loop gives up after `1000 * PlatformCount` attempts and returns the layout built so far, flagged unfinished. The source has no bound and would loop forever if no candidate fits. `PlatformLayoutShape` states when the layout is complete.
- Reducer.NewShot: `Math.sqrt` is not modelled. The unit aim vector `(ux, uy)` is part of the `PlayerShoot` command. Only the test `aimLength > 0.1`, written as a squared length above 0.01, and the facing fallback are exact.
- Numbers are exact reals and naturals, not IEEE doubles. Rounding in the physics is not modelled. `seed * 9301` is exact in doubles only up to a seed of 2^53 / 9301, about 9.68e11. The world seed is `Date.now()`, about 1.7e12, so in the running game the first generator step of a level draw usually rounds, and that draw and the ones after it can differ from this model's exact ones.
- `Date.now()` and the animation frame's timestamp are parameters: they are the payloads of `StartGame`, `RestartGame`, `EndGame` and `PlayerShoot`, and the `time` of `FrameClock.Frame`.
- GameLoop.FrameClock.Frame: the frame rate is fixed at the default of 60 (`FrameInterval = 1000 / 60`). The FPS metrics, `requestAnimationFrame` rescheduling and cancellation are not modelled.
- The frame loop reads a snapshot of the store: `Frame` and `UpdateGameState` take it as the parameter `s`. Which snapshot React's closure holds is not modelled. Dispatches are collected as a command list and folded through the reducer in order.
- Console logging, the movement debug log, the React context, the provider and the `useEffect` wiring are not part of this model. Nor are keyboard and mouse listeners, or the 50 ms `setInterval` that dispatches `UPDATE_PROJECTILES`.
- Reducer.AdvanceDue: the provider's effect is modelled as a predicate over the state. When React runs it is not modelled.
- Reducer.ReduceKeepsPlayState: it speaks of `isPlaying` and `isPaused` only. `GAME_OVER` and `UPDATE_HEALTH` set `gameOver` by design.
- `generateTutorialLevel` and the `elementColors`/`elementNames` tables are taken as constants. The UI components are not part of this model.
