# Platformer core: collision, player step, oscillators and level progression

This project models the game logic of `src/game.js` (the `Game` class of a
three.js platformer) in Dafny. It covers four parts:

- **Boxes and the collision resolver** (`Geometry`, `Collision`):
  - `clamp`, the `AABB` centre/half-extent box and `aabbOverlap`;
  - the sequential pass of `_resolvePlayerCollisions`. It visits every static platform, then every moving platform. Each overlapping one pushes the player out along its minimum-depth axis, with ties going to x, then z, then y. The push zeroes the velocity on that axis. An upward y push grounds the player and, for a moving platform, binds it as the support.
- **The player step** (`Movement`, `Engine.Game`):
  - `_stepPlayer`: platform carry, the 0.12 s jump buffer, 0.10 s coyote time, the edge-triggered single-use 0.22 s dash, gravity and the horizontal blend, the jump, integration, then the settle step (ground cleared, resolver, dash restored on ground contact);
  - the death plane at y = -30, drone contact and collectible pickup within 1.2 units;
  - `_inputAxes`.
- **Oscillating movers** (`Oscillators`): `_updateMovingPlatforms` and `_updateEnemies` advance a phase by `dt * speed` (times the difficulty factor for drones). They put the entity at its base plus `sin(phase) * amp` on one named axis. Platforms also record `delta = pos - prevPos`.
- **Level progression and respawn** (`Progression`, `Engine.Game`):
  - `goToLevel`/`nextLevel` index arithmetic, with JavaScript's truncating `%` modelled explicitly as `JsRem`;
  - `_respawn`;
  - the pending-advance handshake between `_updateGoal` and `update`;
  - the asynchronous world rebuild, split into its synchronous start (`GoToLevel`, which stores the index and clears the world) and a later completion event `CompleteRebuild`. The `finally` of the rebuild that `update` starts clears the in-flight flag.

The pure parts are datatypes and functions. Each is tied by lemmas to what the game promises. The parts of the source that update state in place are the classes `Engine.Player` and `Engine.Game`. Their fields are the source's fields; the world lists are `seq` fields the methods reassign. Each method is proved against the functions of the pure modules: `ResolvePlayerCollisions` against `ResolveAll`, `PreparePlayer` against `Prepare`, `SettlePlayer` against `Settle`, the update loops against `AdvancePlatform`/`AdvanceEnemy`, and the pickup and respawn loops against `Pickup`/`ClearTaken`. The per-frame invariant `Game.Valid` holds that:

- the grace timers stay in their windows;
- `dashing` agrees with the dash timer;
- a support is bound only while grounded;
- the level indices are in range, and a queued advance waits for no rebuild;
- every platform and drone is on its track.

Scalars are mathematical reals. `Math.sin`, `Math.exp`, `Math.pow` and `Vector3.normalize` are parameters, bundled in the `MathLib` value the game holds.

## Model

| member | source | states |
|---|---|---|
| Geometry.Clamp | src/game.js:6 | the result lies in [lo, hi] when lo <= hi; x is returned unchanged inside the range, lo below it, hi above it; an inverted range yields lo |
| Geometry.AabbOverlap | src/game.js:17-22 | hit iff all three depths are strictly positive, iff the boxes' open intervals meet on every axis; each depth is at most either box's extent on that axis |
| Geometry.OverlapSymmetric | src/game.js:17-22 | swapping the two boxes changes neither the hit flag nor any depth |
| Geometry.ChooseAxis | src/game.js:670-688 | x iff its depth is no larger than both others; z iff strictly below x and no larger than y; y iff strictly below both; the chosen depth is the minimum depth |
| Collision.CollidersLayout | src/game.js:661 | the collider list is every static platform (no support index) followed by every moving platform tagged with its index |
| Collision.Direction | src/game.js:671-679 | the push direction is -1 exactly when the player's centre is strictly below the collider's on that axis, else +1 (equal centres push positive) |
| Collision.ResolveOne | src/game.js:663-687 | a non-overlapping collider changes nothing; on a hit only the chosen axis of the position moves, by direction times depth, and only that velocity component is zeroed; ground is set iff it was set or the player lands (y push, direction +1); a support is bound only by landing on a moving platform |
| Collision.ResolveOneBranches | src/game.js:670-688 | the three branches of the resolver: x push, z push, or y push with ground/support update, each moving only that axis by direction times depth and zeroing only that velocity component |
| Collision.ResolveAllStep | src/game.js:663-693 | the pass over the first i+1 colliders is the pass over the first i, then collider i |
| Collision.ResolveAllAppend | src/game.js:663-693 | resolving against s + t is resolving against s, then against t |
| Collision.ResolveAll | src/game.js:654-694 | the sequential pass over the colliders in order: a ground flag, once set, stays set, and a bound support comes with the ground flag |
| Collision.StaticsBeforeMovers | src/game.js:661 | the pass over the world's colliders is the pass over the static platforms alone, continued over the moving platforms alone |
| Collision.ResolveAllUntouched | src/game.js:664-666 | a pass over colliders none of which overlaps the player leaves the body unchanged |
| Collision.GroundedIffLanded | src/game.js:679-685 | from a cleared ground flag, the pass ends grounded exactly when some collider, at its turn, landed the player |
| Collision.SupportIsMovingPlatform | src/game.js:681-684 | from a cleared support, a bound support comes with the ground flag and is the index of some moving-platform collider |
| Collision.SupportIndexInRange | src/game.js:661-684 | a support bound during the pass is a valid index into the moving platforms |
| Collision.RestsOnFarFace | src/game.js:670-687 | a player overlapping from the far side ends with its low face exactly on the collider's high face, stopped on that axis, and no longer overlapping |
| Collision.StopsAtNearFace | src/game.js:670-687 | a player overlapping from the near side ends with its high face exactly on the collider's low face, stopped on that axis, and no longer overlapping |
| Collision.Landing | src/game.js:679-687 | coming down onto a collider with y chosen: feet exactly on its top, vertical velocity zero, grounded |
| Oscillators.Displace | src/game.js:703-706 | only the component named by the axis string gains the offset; any other name leaves the base unchanged |
| Oscillators.SpawnPlatform | src/game.js:368-380 | a built platform has phase 0, zero delta and its level definition, and its base, position, previous position and box centre are all the definition's position |
| Oscillators.AdvancePlatform | src/game.js:697-709 | the phase grows by dt * speed, the previous position is the old position, and the platform is on its track: position = base + sin(phase) * amp on its axis, box centre = position, prevPos + delta = position |
| Oscillators.StepPlatform | src/game.js:698-708 | the field-by-field loop body computes exactly `AdvancePlatform` |
| Oscillators.SpawnOnTrack | src/game.js:368-380 | with sin(0) = 0 a freshly built platform is on its track |
| Oscillators.OffAxisFixed | src/game.js:703-706 | a platform on its track differs from its base only on its configured axis |
| Oscillators.DeltaIsDisplacement | src/game.js:708 | the frame's delta is the oscillator displacement between the old and new phase |
| Oscillators.CarryIsRigid | src/game.js:533-535 | a point carried by delta keeps its offset from the platform |
| Oscillators.SpawnEnemy | src/game.js:396-402 | a built drone has phase 0 and sits at its patrol centre |
| Oscillators.SpeedMultiplier | src/game.js:714 | drone speed factor 0.8 on easy (1), 1.25 on hard (3), 1 otherwise |
| Oscillators.AdvanceEnemy | src/game.js:713-724 | the phase grows by dt * speed * factor, and the drone is at its patrol centre plus sin(phase) * amp on its axis, box centred on it |
| Oscillators.StepEnemy | src/game.js:714-723 | the loop body computes exactly `AdvanceEnemy` |
| Oscillators.SpawnEnemyOnTrack | src/game.js:396-402 | with sin(0) = 0 a freshly built drone is on its track |
| Triggers.DistanceTest | src/game.js:646 | for the distance d, `d < r` is exactly the squared test `Within` used for pickups and the goal |
| Triggers.Pickup | src/game.js:644-651 | same length and positions; a collectible is taken afterwards iff it was taken or lies within 1.2 of the player |
| Triggers.ClearTaken | src/game.js:244-247 | same length and positions; every collectible untaken |
| Triggers.PickupMonotoneIdempotent | src/game.js:644-651 | a pickup never puts a collectible back, and a second pickup at the same spot changes nothing |
| Triggers.ClearTakenIdempotent | src/game.js:244-247 | respawning twice clears the collectibles as once |
| Movement.MaxSpeed | src/game.js:559 | run speed 7.2 on easy, 6.2 on hard, 6.6 otherwise |
| Movement.DashSpeed | src/game.js:564 | dash speed 18 on hard, 20 otherwise |
| Movement.InputAxes | src/game.js:493-510 | x is +1 iff right held without left, -1 iff left without right, else 0 (z likewise for forward/back); jump and dash held iff one of their keys or buttons is |
| Movement.Respawned | src/game.js:233-243 | the respawn state: at spawn, at rest, not grounded, no support, dash available and not dashing, coyote, jump buffer and dash timer all 0, facing (0, 0, 1); so every per-player invariant holds |
| Movement.Prepare | src/game.js:529-610 | everything `_stepPlayer` does before the settle step; a fired jump leaves the player ungrounded with no support and both grace timers at 0, and a fired dash leaves no dash available |
| Movement.Settle | src/game.js:612-616 | the settle step changes only position, velocity, ground and support, except that the dash is available afterwards iff it was or the player ends grounded |
| Movement.JumpRule | src/game.js:602-610 | a jump fires iff (jump held or buffer left after dt) and (grounded or coyote left after dt); a jump sets vel.y = 9.2, ungrounds, drops the support and zeroes both timers; without a jump ground and support are unchanged |
| Movement.DashRule | src/game.js:566-583 | a dash fires iff the dash button rose this frame with a dash available and none running; it uses the dash up, sets the timer to 0.22 - dt (still dashing iff dt < 0.22) and, while the dash is still running after this frame (dt < 0.22), leaves vel.y = 0 unless a jump follows; without a dash availability is unchanged |
| Movement.TimersStayInWindows | src/game.js:537-546 | for dt >= 0 the jump buffer stays in [0, 0.12] and coyote time in [0, 0.10] across a frame |
| Movement.DashClockKept | src/game.js:580-583 | `dashing` holds exactly while the dash timer is positive, across a frame |
| Movement.SettleRule | src/game.js:614-618 | after settling, grounded iff some collider landed the player, a support only while grounded and only as a valid moving-platform index, and the dash available iff it was or the player is grounded |
| Movement.StepKeepsInvariant | src/game.js:529-618 | one frame of movement and settling keeps the timer windows, the dash clock and the support invariant |
| Movement.DashSingleUse | src/game.js:566-618 | in a frame where the dash fires, a dash is available at the end exactly when the player ends on the ground |
| Movement.LandingOnSlab | src/game.js:679-687 | a player sunk less than 0.1 into the top of a 10 x 1 x 10 slab ends standing exactly on it (y = 1.4), at rest vertically, grounded, dash restored |
| Progression.JsRem | src/game.js:117 | JavaScript's `%`: |r| < n, r takes the sign of the dividend, and r is congruent to a modulo n |
| Progression.WrapIsEuclidean | src/game.js:117 | `((a % n) + n) % n` with JavaScript's `%` equals the Euclidean remainder of a, for every integer a |
| Progression.NormalizeIndex | src/game.js:117 | the stored level index lies in [0, 7) and is congruent to the argument modulo 7 |
| Progression.NextIndex | src/game.js:124 | the next level index is in range, follows i, and wraps from the last level to the first |
| Progression.NormalizeInRange | src/game.js:487 | going to an index already in range stores it unchanged |
| Engine.Player.constructor | src/game.js:61-80 | the initial player: at the origin, at rest, dash available, facing +z, half extent (0.45, 0.9, 0.45) |
| Engine.Game.constructor | src/game.js:30-58 | a new game: level 0, normal difficulty, no advance queued or in flight, an empty world, the invariant holds |
| Engine.Game.Respawn | src/game.js:233-251 | the player is put in the respawn state at its spawn and every collectible is put back; level and advance flags are not touched |
| Engine.Game.ResolveAgainst | src/game.js:663-691 | one iteration of the resolver loop updates the player's body exactly as `ResolveOne` and nothing else of the player |
| Engine.Game.ResolvePlayerCollisions | src/game.js:654-694 | the loop over static then moving platforms leaves the player's body as `ResolveAll` over the world's colliders |
| Engine.Game.CarryPlayer | src/game.js:532-535 | a grounded player on a moving platform moves by its delta, otherwise stays |
| Engine.Game.TickGraceTimers | src/game.js:537-546 | the buffer refills while jump is held and the coyote timer while grounded; otherwise both run down to 0 |
| Engine.Game.DashPhase | src/game.js:566-583 | the dash block updates the player exactly as `DashStep` |
| Engine.Game.MovePhase | src/game.js:585-600 | gravity and steering update the player exactly as `Move` (skipped while dashing) |
| Engine.Game.JumpPhase | src/game.js:602-610 | the jump block updates the player exactly as `Jump` |
| Engine.Game.IntegratePhase | src/game.js:612 | the position advances by velocity times dt |
| Engine.Game.PreparePlayer | src/game.js:529-612 | everything before the settle step updates the player exactly as `Prepare` and records this frame's dash button |
| Engine.Game.SettlePlayer | src/game.js:614-618 | ground cleared, resolver run, dash restored on ground: exactly `Settle` over the world's colliders |
| Engine.Game.MovePlayer | src/game.js:529-618 | the movement half of the step is `Settle` after `Prepare`, and it keeps the per-player invariant |
| Engine.Game.TouchesDrone | src/game.js:633-642 | the search reports a hit exactly when the player's box overlaps some drone's box |
| Engine.Game.CollectPickups | src/game.js:644-651 | the pickup loop leaves exactly `Pickup` of the old collectibles at the player's position |
| Engine.Game.HazardsAndPickups | src/game.js:627-651 | below the death plane or touching a drone: respawn and collectibles put back; otherwise the player is unchanged and the pickups are taken |
| Engine.Game.StepPlayer | src/game.js:529-652 | the settled state s is `Settle(Prepare(...))`; if s is below y = -30 or touches a drone the player respawns and the collectibles are put back, otherwise the player is s and pickups near s are taken; the per-player invariant is kept |
| Engine.Game.UpdateMovingPlatforms | src/game.js:696-710 | every platform becomes `AdvancePlatform` of its old self, and the invariant is kept |
| Engine.Game.UpdateEnemies | src/game.js:712-725 | every drone becomes `AdvanceEnemy` of its old self, and the invariant is kept |
| Engine.Game.UpdateGoal | src/game.js:734-750 | the next level is queued exactly when the player is inside the goal, nothing is queued and no rebuild is in flight; otherwise the queue is unchanged |
| Engine.Game.GoToLevel | src/game.js:116-121 | the stored index is the normalised argument and the world is cleared |
| Engine.Game.NextLevel | src/game.js:123-126 | goes to the next index, wrapping from the last level to the first |
| Engine.Game.SetMode | src/game.js:105-109 | the rebuild of the current level starts: the level index is kept and the world is cleared |
| Engine.Game.SetDifficulty | src/game.js:111-114 | the difficulty tier is the argument, and the invariant is kept |
| Engine.Game.Reset | src/game.js:228-231 | the player is in the respawn state at its spawn and every collectible is put back; the invariant is kept |
| Engine.Game.BuildPlatforms | src/game.js:348-359 | one static platform per level entry, appended in order |
| Engine.Game.BuildMovingPlatforms | src/game.js:361-381 | one platform per entry, at its base with phase 0, appended in order and on its track |
| Engine.Game.BuildCollectibles | src/game.js:383-391 | one untaken collectible per entry, appended in order |
| Engine.Game.BuildEnemies | src/game.js:393-403 | one drone per entry, at its patrol centre with phase 0, appended in order and on its track |
| Engine.Game.CompleteRebuild | src/game.js:324-451 | the world is built from the level entry, the goal and spawn are set, the player respawns, and the rebuild started by `update` clears the in-flight flag; the invariant is kept |
| Engine.Game.AnimateWorld | src/game.js:469-472 | every platform becomes `AdvancePlatform` and every drone `AdvanceEnemy` of its old self, and an advance is pending (with no rebuild in flight) iff one was or the player stood in the goal |
| Engine.Game.PlayerTurn | src/game.js:475 | the player's turn is `_stepPlayer`: the settled state is `Settle` of `Prepare` over the world's colliders; below the death plane or touching a drone the player respawns and the collectibles are put back, otherwise the player keeps the settled state and takes the pickups within reach; the game invariant is kept |
| Engine.Game.FinishFrame | src/game.js:475-490 | after the player's turn no advance is queued; a queued advance with no rebuild in flight starts the rebuild of its target, otherwise the level, the in-flight flag, the static platforms, the moving platforms, the drones and the goal are unchanged; the game invariant is kept |
| Engine.Game.ConsumeAdvance | src/game.js:481-490 | a queued advance with no rebuild in flight is consumed: in flight, unqueued, index stored, world cleared, and the target is returned; otherwise nothing changes |
| Engine.Game.Update | src/game.js:465-491 | a frame ends with no advance queued; a rebuild starts iff none was in flight and an advance was queued or the player stood in the goal, to the queued target or the next level; otherwise the level, the in-flight flag, the static platforms and the goal are unchanged, and every platform and drone has advanced by the clamped delta |

## Left out

- Rendering, lights, meshes, materials, scene removal in `_clearWorld`, the animation mixer, `_playAction` and `_applyPlayerTransforms`: three.js display work with no game logic.
- Toast messages (`_toast`), including those for jumps, dashes, pickups and level changes.
- Input capture (`bindInput`, `bindMobileButtons`, pointer/touch/pinch handling): the key map and the on-screen buttons are fields that the model reads as they stand.
- `_cameraRelativeAxes` and `_updateCamera`: the camera's horizontal basis is a parameter of the step.
- The clock: `update` takes the elapsed time as a parameter, assumed non-negative.
- Floating point: scalars are reals. `Math.sin`, `Math.exp`, `Math.pow` and `Vector3.normalize` are parameters with no properties, except that the sine vanishes at 0. `distanceTo(...) < r` is the squared test, which `Triggers.DistanceTest` shows is equivalent.
- `_updateCollectibles`: the spin and the `performance.now()` bob of collectibles are not modelled. Collectible positions stay where the level put them.
- Asset loading (`_loadFullAssetsIfNeeded` and its fallback) and `_setupLights`: display configuration and I/O. The `mode` field itself only selects the background colour and the meshes, so `SetMode` models only the rebuild it starts.
- The level table in src/levels.js is not part of this model. `CompleteRebuild` takes the level entry as a parameter, and only the count 7 is used.
- Engine.Game.CompleteRebuild: the one `await` of a rebuild (the asset load) splits it into two events, the synchronous start (`GoToLevel`, `SetMode`) and this completion, which runs the rest of the rebuild up to `_respawn` at once. Frames that run between the two see the cleared world, and the model allows `Update` there too.
- Engine.Game.Update: the player's turn is stated only as keeping the invariant. What the turn does to the player and the collectibles is stated by `Engine.Game.PlayerTurn`, which `Update` calls through `FinishFrame`.
- Engine.Game.FinishFrame: the player's turn is stated only as keeping the invariant, so that callers need not carry its full effect. What the turn does to the player and the collectibles is stated by `Engine.Game.PlayerTurn`.
- Engine.Game.CarryPlayer: the support is an index into the moving platforms, in place of an object reference. Between a rebuild's start (`GoToLevel`, `SetMode`), which clears the lists, and its completion, which respawns and clears the support, an out-of-range index carries nothing, where the source would use the stale platform's last delta.
- Engine.Game.TouchesDrone: the source respawns inside the drone loop and returns. The model searches first and then respawns, which is the same since the loop stops at the first hit.
- `restartRun`, which src/main.js calls, is not defined in src/game.js and is not modelled.
