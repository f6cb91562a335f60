# Gameplay state machines of a Babylon.js platformer prototype

This project models the gameplay core of a small Babylon.js game. Each source file's state machine is modelled on its own terms:

- **Boss** (`Bosses`): hit points and a frame-counted attack cycle. Every 60 updates the boss spawns an attack volume, and the next update removes it.
- **Character** (`Characters`): the player's movement flags (jumping, crawling, can-jump, grabbing). It covers the four-way jump gate, gravity integration until a ground probe fires, the crawl constants and the 1500 ms jump cooldown.
- **Spider** (`Spiders`): the chase step. The spider moves toward its target only beyond a stopping distance of 2. It moves in the horizontal plane, turns to face the target and keeps its collision cube on its mesh.
- **Test level** (`Levels`): the asymmetric play-area clamp, the key-to-action record, and the speed choice near the pushable cube.
- **Prototype loop** (`Prototype`): the first render loop. A horizontal move is accepted only when it lands strictly within 9 units of the centre on x and z. A scripted jump lands on the floor height 0.6.

Two shared modules support them:

- `Engine` holds the engine values: `Vec3`, meshes, and a mutable `Vector3`. It also holds two records of uninterpreted services, passed in as parameters:
  - `World`: move-with-collisions and the ray pick.
  - `Maths`: normalise, length and atan2.
- `Controls` holds the key record and the movement direction. The level and the prototype build that direction with identical code.

Positions and speeds are exact `real`s. Engine calls the game makes but does not implement are taken as oracle answers. Timers become explicit event methods:

- The 1500 ms jump cooldown is `Characters.Character.CooldownElapsed`.
- Each render-loop frame is a `Frame` method, or a pure step function.

State that the source updates in place lives in classes. Each class has a pure function giving the new state, and the lemmas are stated about those functions.

The source files do not type-check against each other: `TestLevel.ts` default-imports a named export, reads private fields of `Character`, and calls `move` with two arguments. So the model follows each file's own logic and leaves the wiring between them out.

Some behaviour of the source worth knowing when reading the model:

- The jump cooldown is 1500 ms (`character.ts:43`).
- Crawling changes the speed from 0.1 to 0.025, a quarter (`character.ts:72`). `move` also scales the caller's direction by 0.3 while crawling (`character.ts:31-33`), and crawling sets the jump strength to 0.05 (`character.ts:73`).
- Calling `crawl(true)` while already crawling resets the height to 0.3 again (`character.ts:71`).
- The boss's hit points have no lower bound, and nothing reacts when they reach zero (`Boss.ts:52-54`).
- Landing happens only where the ground probe fires after a vertical move (`character.ts:50-55`); the character is not snapped onto the ground.

## Model

| member | source | states |
|---|---|---|
| `Bosses.Tick` | my-babylon-game/src/Boss.ts:68-81 | one update advances the counter by one, or resets it to 0 on the spawning update; it keeps the counter in [0, 60) from any counter >= -1, preserves the reachable-state invariant (a volume exists only at counter 0), always arms on the spawning update, and never leaves a volume at counter 1 |
| `Bosses.AfterUpdatesClosedForm` | my-babylon-game/src/Boss.ts:68-81 | after n updates of a fresh boss the counter is n mod 60 and a volume exists iff n > 0 and n mod 60 = 0 |
| `Bosses.FirstTelegraph` | my-babylon-game/src/Boss.ts:71-80 | over the first 61 updates the volume exists after update 60 and after no other |
| `Bosses.SpawnNeverOverwrites` | my-babylon-game/src/Boss.ts:71-74 | in every reachable state, the spawning branch is only taken when no volume exists |
| `Bosses.SingleUpdateExposure` | my-babylon-game/src/Boss.ts:77-80 | a live volume is removed by the very next update, which leaves the counter at 1 |
| `Bosses.RemovalWithoutVolume` | my-babylon-game/src/Boss.ts:77 | without a volume the removal step changes nothing beyond counting the frame (as on the first update) |
| `Bosses.HpAfterHitsClosedForm` | my-babylon-game/src/Boss.ts:52-54 | from 10, each hit lowers hp by exactly 1; after more than 10 hits hp is negative |
| `Bosses.Boss.constructor` | my-babylon-game/src/Boss.ts:5-10 | hp 10, counter 0, no volume, mesh not yet loaded |
| `Bosses.Boss.Loaded` | my-babylon-game/src/GameObject.ts:9-19 | the loader callback sets the mesh's position and scale; the boss's callback adds a collision cube at the same position |
| `Bosses.Boss.GetHit` | my-babylon-game/src/Boss.ts:52-54 | hp decreases by exactly 1, with no lower bound |
| `Bosses.Boss.CreateAttackCube` | my-babylon-game/src/Boss.ts:56-60 | a fresh volume at a copy of the mesh position when loaded, else at the origin |
| `Bosses.Boss.Update` | my-babylon-game/src/Boss.ts:68-81 | the cycle state moves by `Tick`; hp and mesh are unchanged; a spawning update holds a fresh volume at the spawn position; otherwise the volume is kept unless the counter is 1 |
| `Characters.Initial` | my-babylon-game/src/character.ts:6-13 | the initial state satisfies the invariant, not jumping, can jump, not crawling, not grabbing |
| `Characters.SubmittedIsOneScaling` | my-babylon-game/src/character.ts:31-34 | the displacement `move` submits is the direction times the speed, times 0.3 while crawling |
| `Characters.Moved` | my-babylon-game/src/character.ts:30-35 | the new position is the physics service's answer for the direction times the speed (times 0.3 while crawling); nothing else changes; the invariant is kept |
| `Characters.Jumped` | my-babylon-game/src/character.ts:38-45 | a jump keeps the invariant, changes nothing unless all four gate conditions hold, and changes nothing but velocity, the jumping flag, the can-jump flag and the pending cooldown |
| `Characters.CooledDown` | my-babylon-game/src/character.ts:43 | the cooldown callback re-enables jumping, clears the pending timer, changes nothing else and keeps the invariant |
| `Characters.Fallen` | my-babylon-game/src/character.ts:48-57 | a no-op unless jumping; while jumping the position is the physics service's answer for a vertical move by the velocity; the jump ends iff the ground probe fires there, with velocity 0, and otherwise continues with its velocity lowered by 0.005; only position, velocity and the jumping flag change; keeps the invariant |
| `Characters.Crawled` | my-babylon-game/src/character.ts:67-80 | sets the crawl flag to the argument; sets height 0.3 and y-scale 0.5 when starting, 0.6 and 1 when stopping, with x and z kept; sets speed 0.025/0.1 and jump strength 0.05/0.15; changes nothing else; keeps the invariant |
| `Characters.Grabbed` | my-babylon-game/src/character.ts:83-85 | sets only the grab flag |
| `Characters.CrawlDependsOnlyOnArgument` | my-babylon-game/src/character.ts:67-80 | the crawl fields after `crawl(start)` are the same from any state: height 0.3/0.6, y-scale 0.5/1, speed 0.025/0.1, jump strength 0.05/0.15 |
| `Characters.CrawlIdempotent` | my-babylon-game/src/character.ts:67-80 | calling crawl twice with the same argument equals calling it once |
| `Characters.CrawlRoundTrip` | my-babylon-game/src/character.ts:67-80 | from the standing values, crawling then standing returns the exact same state |
| `Characters.JumpLaunches` | my-babylon-game/src/character.ts:39-43 | a gated jump sets velocity to the jump strength, starts jumping, disables jumping and schedules the cooldown |
| `Characters.NoJumpBeforeCooldown` | my-babylon-game/src/character.ts:38-45 | while the cooldown is pending, jump is a no-op and no other operation clears the pending cooldown |
| `Characters.CrawlBlocksJump` | my-babylon-game/src/character.ts:39 | a crawling character cannot start a jump; a standing, grounded, idle one with jumping enabled does |
| `Characters.Character.IsGrounded` | my-babylon-game/src/character.ts:60-64 | the ground probe is the world's ray pick cast from the current position straight down (direction (0, -1, 0)) over length 1.2, the same probe the jump gate and the landing use |
| `Characters.Character.constructor` | my-babylon-game/src/character.ts:15-27 | a fresh sphere mesh at the given position with the initial flags and constants |
| `Characters.Character.Move` | my-babylon-game/src/character.ts:30-35 | the caller's direction is scaled by 0.3 in place when crawling; the mesh moves by the physics service's answer for direction times speed; nothing else changes |
| `Characters.Character.Jump` | my-babylon-game/src/character.ts:38-45 | the state moves by `Jumped` with the ground probe at the current position; the invariant holds |
| `Characters.Character.CooldownElapsed` | my-babylon-game/src/character.ts:43 | the deferred callback moves the state by `CooledDown` |
| `Characters.Character.ApplyGravity` | my-babylon-game/src/character.ts:48-57 | the state moves by `Fallen`; `!isJumping ==> velocityY == 0` is kept |
| `Characters.Character.Crawl` | my-babylon-game/src/character.ts:67-80 | the state moves by `Crawled` |
| `Characters.Character.GrabObject` | my-babylon-game/src/character.ts:83-85 | the state moves by `Grabbed` |
| `Spiders.MoveVector` | my-babylon-game/src/Spider.ts:70 | the move vector has no vertical part and is the horizontal projection of the direction times the speed |
| `Spiders.Plan` | my-babylon-game/src/Spider.ts:52-79 | a step exists iff both meshes are loaded and the distance is strictly above 2; its move vector is planar, is the direction's x and z times the speed, and its angle is atan2(x, z) of the direction |
| `Spiders.HoldsWithinStoppingDistance` | my-babylon-game/src/Spider.ts:66-68 | at distance 2 or less there is no step |
| `Spiders.Spider.constructor` | my-babylon-game/src/Spider.ts:9-23 | speed defaults to 0.1; mesh and collision cube not yet loaded |
| `Spiders.Spider.Loaded` | my-babylon-game/src/Spider.ts:10-19 | the loader callback sets the mesh and adds a collision cube at the same position and scale |
| `Spiders.Spider.Crawl` | my-babylon-game/src/Spider.ts:51-92 | without a step, mesh and cube are unchanged; with one, the mesh moves by the physics service's answer for the planar move vector and faces the step angle, keeping its scale and Euler rotation; a present cube takes the mesh's new position and the same yaw and rotation, keeping its scale; the cube is never the model mesh itself, as each comes from its own constructor |
| `Controls.Record` | my-babylon-game/src/TestLevel.ts:101-103 | a mapped action reads as held iff the key went down; an unmapped code changes nothing; other recorded actions keep their values and no other action becomes recorded |
| `Controls.ReleaseAfterPress` | my-babylon-game/src/TestLevel.ts:125-127 | releasing after pressing leaves the action not held and every other action as before |
| `Controls.Direction` | my-babylon-game/src/TestLevel.ts:141-148 | y is 0; each of x and z is -1, 0 or 1; x is 0 iff left and right are both held or both released, +1 iff only right; z is 0 iff forward and backward agree, -1 iff only forward |
| `Controls.MoveDirection` | my-babylon-game/src/main.ts:106-112 | the step-by-step construction yields exactly `Direction` of the held keys |
| `Levels.Clamped` | my-babylon-game/src/TestLevel.ts:69-74 | the result has x <= 9.5 and -9.5 <= z <= 9.5, the same y, x never raised, and an in-bounds position is unchanged |
| `Levels.ClampedIsNearest` | my-babylon-game/src/TestLevel.ts:69-74 | on each axis no in-bounds point is closer to the input than the clamped point |
| `Levels.ClampIdempotent` | my-babylon-game/src/TestLevel.ts:69-74 | clamping twice equals clamping once |
| `Levels.NoLowerXClamp` | my-babylon-game/src/TestLevel.ts:71 | a position far out on the negative x side (with z in range) is left as it is |
| `Levels.SelectSpeed` | my-babylon-game/src/TestLevel.ts:176-185 | grabbing within 1.5 gives 0.025; beyond 1.5 gives 0.1; at exactly 1.5, or within 1.5 without grabbing, the speed is kept |
| `Levels.SelectSpeedIdempotent` | my-babylon-game/src/TestLevel.ts:176-185 | reapplying the rule with the same distance and grab state keeps the chosen speed |
| `Levels.SwappedSideKeys` | my-babylon-game/src/TestLevel.ts:88-99 | holding only KeyA or ArrowLeft moves toward +x, holding only KeyD toward -x |
| `Levels.Level.constructor` | my-babylon-game/src/TestLevel.ts:86 | the key record starts empty |
| `Levels.Level.KeyDown` | my-babylon-game/src/TestLevel.ts:101-103 | the record marks the mapped action held; unmapped codes change nothing |
| `Levels.Level.KeyUp` | my-babylon-game/src/TestLevel.ts:125-127 | the record marks the mapped action released; unmapped codes change nothing |
| `Levels.Level.CheckBoundaries` | my-babylon-game/src/TestLevel.ts:69-74 | the object's position becomes `Clamped` of its old position |
| `Prototype.Stepped` | my-babylon-game/src/main.ts:116-122 | the moved position is taken iff it lies strictly inside (-9, 9) on x and z, otherwise the position is unchanged; a planar direction keeps the height |
| `Prototype.SteppedStaysInside` | my-babylon-game/src/main.ts:116-122 | a position strictly inside the field stays strictly inside |
| `Prototype.Launched` | my-babylon-game/src/main.ts:96-101 | Space starts a jump with velocity 0.15 only when not already jumping, and keeps the invariant |
| `Prototype.Fall` | my-babylon-game/src/main.ts:124-133 | not jumping: unchanged; jumping: the jump continues iff y plus velocity is above 0.6, then it rose by its velocity and lost 0.005 velocity; otherwise it lands at y 0.6 with velocity 0; keeps the invariant |
| `Prototype.RiseStep` | my-babylon-game/src/main.ts:125-127 | one more jump frame adds the current velocity 0.15 - 0.005(k-1) to the height gained, and that height stays positive through frame 60 |
| `Prototype.AirborneClosedForm` | my-babylon-game/src/main.ts:124-133 | k <= 60 frames after a floor jump, y = 0.6 + 0.15k - 0.0025k(k-1), velocity = 0.15 - 0.005k, still jumping |
| `Prototype.FloorJumpAirborne` | my-babylon-game/src/main.ts:92-133 | a jump from the floor is still in progress and above 0.6 on each of frames 1 to 60 |
| `Prototype.FloorJumpLasts61Frames` | my-babylon-game/src/main.ts:92-133 | a jump from the floor lands on frame 61 at 0.6 with velocity 0 |
| `Prototype.Game.constructor` | my-babylon-game/src/main.ts:91-94 | the character starts at (0, 0.6, 0), no keys held, not jumping, velocity 0 |
| `Prototype.Game.KeyDown` | my-babylon-game/src/main.ts:79-101 | the mapped action is marked held, and Space launches a jump by `Launched` |
| `Prototype.Game.KeyUp` | my-babylon-game/src/main.ts:85-88 | the mapped action is marked released |
| `Prototype.Game.Frame` | my-babylon-game/src/main.ts:105-133 | the position takes the bounded horizontal step of the normalised key direction, then the vertical state moves by `Fall`; a frame that starts not jumping leaves the height, the velocity and the jumping flag as they were; `!isJumping ==> velocityY == 0` is kept |

## Left out

- Rendering is not modelled. This covers the scene, engine, lights, ground, materials, textures, camera, bounding-box display and `scene.render`. It also covers the boss's fixed quarter-turn orientation at load time (`Boss.ts:21-28`) and the attack volume's box size of 7.
- The physics and math services are oracles. `moveWithCollisions`, the downward ray pick, `normalize`, vector length and `atan2` are parameters whose answers the model takes as given; their collision response and floating-point geometry are not modelled. The one fact about them the model relies on is that `normalize` keeps the zero vertical part of the key direction at zero; `Prototype.Game.Frame` requires it.
- The donut bounce (`TestLevel.ts:156-174`, `main.ts:136-143`) is left out because it relies on `normalize`. It runs after the bounds check and is not clamped, so it can move the character, and at `TestLevel.ts:170-171` the cube, outside the bounds. Pushing the cube (`TestLevel.ts:179-181`) is left out for the same reason, and because it relies on `moveWithCollisions`; it moves only the cube, sets the cube's height from its scale, and clamps the cube again with `checkBoundaries`.
- Vector3 aliasing is not modelled. Positions are values copied at assignment. In the source, a collision cube shares its `position` object with its mesh, and `Spider.ts:75` assigns it again, so later moves of the mesh also move the cube. In the model the cube gets the mesh's position only when `Crawl` or `Loaded` assigns it.
- Cross-file wiring in `TestLevel.ts` is left out. `TestLevel.ts:3` default-imports `Character`, but `character.ts:3` has only a named export, so none of the level's uses of `mainCharacter` resolve against `character.ts`. The model keeps each file's rules; `Levels.SelectSpeed` is the speed rule on its own. The left-out uses are:
  - calls of public methods with the right arguments: `crawl(true)` and `crawl(false)` (`107`, `131`), `isGrounded()` and `jump()` (`119-120`), `applyGravity()` (`153`), and `checkBoundaries(mainCharacter.mesh)` on the public mesh (`142`);
  - reads and writes of private fields: `isGrabbing` (`111`, `135`), `isJumping`, `velocityY` and `jumpStrength` in the first Space path (`114-116`), `canJump` (`119`), and `speed` (`178`, `184`);
  - a call with the wrong number of arguments: `move(moveDirection, this.boundary)` (`151`).
- `dispose()` of the attack volume is modelled as dropping the reference. Engine-side resource release is not modelled.
- The clocks are events, not time. The 1500 ms `setTimeout` is the event method `CooldownElapsed`, with a `jumpTimerPending` flag for the outstanding callback. The render-loop schedule is one call of `Frame` (or one step function) per frame.
- Prototype.FloorJumpLasts61Frames and Prototype.FloorJumpAirborne: use exact arithmetic. JavaScript uses doubles, and the rounding of repeated additions of 0.15 and -0.005 can move the landing to one frame later.
- Looking up a key code that names an inherited object property (such as `"toString"`) in the key-mapping record is not modelled; keyboard event codes never take those values.
- `GameObject.clone` and `isLoaded` are not modelled, and neither is anything in `InitGame.ts`. Both only wire objects together.
- The boss constructor's `speed` argument is not modelled, because the source never uses it. The model-path, file-name and scale arguments are model-loading inputs and are not modelled either.
