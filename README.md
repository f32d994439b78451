# Aquarium game rules in Dafny

This project models the game-rule layer of a Three.js underwater game. The player swims through an aquarium with a camera. They watch their health, oxygen and boost meters, avoid sharks, catch fish with the F key, and win by bringing at least two species to the totem in the centre. Rendering and asset loading are not modelled. What is modelled is the bookkeeping that runs each frame and on each key press:

- the meters and their HUD bars;
- shark damage, game over and reset;
- the movement rules of fish and sharks;
- catching fish;
- the HUD's species badges and their texture cache;
- the victory check;
- the camera's velocity, clamps and push-out from fish;
- the creation of fish and shark records;
- the order and gating of the per-frame tick.

The modules follow the JavaScript files:

| module | file | contents |
|---|---|---|
| `Geometry` | — | real 3-vectors and the host math library |
| `State` | — | the game's globals as one `World` object |
| `Controls` | controls.js | terrain height, boost, camera update, mouse and keys |
| `Gui` | gui.js | bars, fish badges, texture cache, victory flags |
| `Interactions` | interactions.js | oxygen, damage, game over, reset, agent movement, catching, totem victory |
| `Models` | models.js | model axes, clone records, plant layout |
| `App` | app.js | loading bar, end of loading, the tick of `animate`, the underwater fog |

**The World object.** The JavaScript globals that the core changes live in the fields of `State.World`. The fields are grouped into six records:

- `loading`;
- `player`: camera position, velocity, yaw, pitch and held keys;
- `meters`;
- `hud`;
- `rules`: game-over and victory flags, fog, shark timer and collected fish;
- `scene`: model axes, fish and sharks.

`World.Snap()` gives the whole state as a value.

**Methods and step functions.** Every method that changes the state is imperative and has `modifies w`. It is proved against a step function on that value, e.g. `ensures w.Snap() == OxygenTick(old(w.Snap()), dt)`. The lemmas and contracts about the step functions state what the source promises. They relate analysed global states to one another: invariants kept, gating, one-shot behaviour, idempotence, ranges and the order of updates.

**Inputs from outside.** The host's `Math.sqrt`, `Math.sin`, `Math.cos` and `Math.PI` are function values of a `MathLib`. `Valid(m)` states the facts the proofs use, such as sin² + cos² = 1 and that sqrt is exact. The following become parameters:

- `Math.random`: streams `rand: nat -> real`;
- `Date.now()`: `now`;
- `clock.getDelta()`: `dt`;
- the Box3 test of a shark against the camera: `overlap`.

## Model

| member | source | states |
|---|---|---|
| State.World.constructor | src/js/gui.js:13-17 | the initial state: full health, oxygen and boost, boost unlocked and inactive, camera at (0, 41, 0), nothing loaded, no fish |
| Controls.TerrainHeight | src/js/controls.js:33-37 | the terrain height 2·sin(0.1x) + 1.5·cos(0.15z) lies in [−3.5, 3.5] and is 1.5 at the centre |
| Controls.BoostStep | src/js/controls.js:88-109 | Shift on an unlocked meter holding more than 1.5·dt turns boosting on and spends exactly 1.5·dt; spending the last of it gives an empty, inactive, locked meter; Shift on an empty or locked meter only stops boosting; releasing Shift unlocks, stops boosting and refills to min(level + 0.5·dt, 5); the boost invariant is kept (level in [0, 5], a lockout only with an empty meter, boosting only unlocked and non-empty) |
| Controls.LockoutHeld | src/js/controls.js:91-103 | once locked out, any number of updates with Shift held leave the boost state unchanged |
| Controls.BoostRunInv | src/js/controls.js:88-109 | the boost invariant holds after any sequence of updates |
| Controls.UpdateBoost | src/js/controls.js:88-109 | the imperative update yields exactly BoostStep on the boost globals and changes nothing else |
| Controls.Net | src/js/controls.js:47-52 | the net input on an axis of two opposing keys is 0 when they cancel (both or neither held) and ±1 otherwise |
| Controls.MinusThenPlus | src/js/controls.js:47-48 | adding the backward vector for S after negating it for W is adding the net input times the vector |
| Controls.PlusThenMinus | src/js/controls.js:49-50 | the same for A and then D, in that order |
| Controls.AxesUnit | src/js/controls.js:43-44 | the backward vector is (sin yaw, 0, cos yaw) and the left vector is (−cos yaw, 0, sin yaw), both already unit |
| Controls.MoveInputAxes | src/js/controls.js:46-52 | the movement input is the sum of the three axes, each scaled by its net key input |
| Controls.MoveInputComponents | src/js/controls.js:43-52 | the same, with the axes written out in sin and cos of the yaw |
| Controls.MoveInputNorm | src/js/controls.js:43-52 | the squared length of the movement input is the number of axes whose keys do not cancel |
| Controls.NoNetInput | src/js/controls.js:55 | the input has non-zero length exactly when some pair of opposing keys does not cancel |
| Controls.CurrentSpeed | src/js/controls.js:112-114 | the camera speed is 20 while boosting and 10 otherwise |
| Controls.VelocityRule | src/js/controls.js:55-61 | with every pair cancelled the velocity is multiplied by 0.9; otherwise its length is the current speed (20 when boosting, 10 otherwise) |
| Controls.ClampPosition | src/js/controls.js:71-81 | x and z are clamped to the nearer of ±99; y is first raised to exactly terrain(x, z) + 0.5, with the terrain taken at the unclamped x and z, and then capped at exactly 44; so the result lies in the box, at most 44 and on or above the floor, and a position already inside is kept |
| Controls.PushOutToRadius | src/js/controls.js:121-128 | a camera at distance d with 0 < d < 2 from a fish ends at distance exactly 2, on the same ray from the fish |
| Controls.PushOutFar | src/js/controls.js:124 | a fish at distance ≥ 2 leaves the camera where it is |
| Controls.PushOutCentre | src/js/controls.js:121-127 | a camera exactly at a fish's centre stays there, since normalizing the zero vector gives zero |
| Controls.PushOutAllFar | src/js/controls.js:117-130 | when no fish is within radius 2, the loop leaves the camera unchanged |
| Controls.PushOutAllLast | src/js/controls.js:117-130 | after the loop the camera is outside radius 2 of the last fish checked, or exactly at its centre |
| Controls.PreventCameraThroughFish | src/js/controls.js:117-130 | the loop over fishData yields the push-outs of all fish in list order |
| Controls.UpdateCamera | src/js/controls.js:39-85 | in order: the velocity rule, updateBoost, movement by velocity·dt, the clamps, then the fish push-out |
| Controls.PitchClamp | src/js/controls.js:24-25 | pitch is kept in [−π/2 + 0.01, π/2 − 0.01]; it is unchanged inside that range and moved to the nearer bound outside it |
| Controls.MouseMove | src/js/controls.js:18-30 | yaw and pitch decrease by movement × 0.002, then the pitch is clamped |
| Controls.SetKeyDown | src/js/controls.js:8 | a key press adds the key code to the held keys |
| Controls.SetKeyUp | src/js/controls.js:9 | a key release removes it |
| Gui.BarScale | src/js/gui.js:111-115 | a bar's scale is max(0, value/max): never negative, at most 1 while the meter is within its maximum, and 0 for an empty meter |
| Gui.UpdateHUD2D | src/js/gui.js:111-115 | the three bars are set from health, oxygen and boost |
| Gui.RequestTexture | src/js/gui.js:156-166 | a cached species gets its image at once with no new load; otherwise a load is started |
| Gui.LoadHUDFishTexture | src/js/gui.js:156-166 | the imperative version changes only the HUD, as RequestTexture says |
| Gui.HudFishTick | src/js/gui.js:168-196 | no-op without the HUD fish group; the species set only grows; only the HUD changes |
| Gui.InitialHudInv | src/js/gui.js:143-149 | the empty HUD satisfies the badge invariant |
| Gui.HudFishStepInv | src/js/gui.js:172-193 | one fish keeps the invariant (one badge per species, in rows 0, 1, … in order first seen, textures cached or pending only for shown species and never both); a known species changes nothing; a new one adds exactly one badge in the next row |
| Gui.HudFishAllInv | src/js/gui.js:171-195 | the forEach keeps the invariant, adds exactly the collected names to the species set, adds as many badges as new species, and keeps the old badges as a prefix |
| Gui.HudFishAllGrows | src/js/gui.js:171-173 | the species set only grows |
| Gui.HudFishAllKnown | src/js/gui.js:172 | when every collected species is already shown, nothing changes |
| Gui.HudFishIdempotent | src/js/gui.js:168-196 | a second updateHUDFish with the same collected fish changes nothing |
| Gui.UpdateHUDFish | src/js/gui.js:168-196 | the early return and the forEach give exactly HudFishTick |
| Gui.LoadDoneInv | src/js/gui.js:162-165 | a completed load caches a species that was not cached before, exactly once; other cached entries are untouched; the invariant is kept |
| Gui.TextureLoaded | src/js/gui.js:162-165 | the load callback changes only the HUD, as LoadDone says |
| Gui.ShowVictory | src/js/gui.js:201-213 | no-op without the HUD scene or before victory is triggered; otherwise it sets gameOver, saves the current fog and darkens it to (0x000000, 0.08), and on the HUD disables controls and shows the victory box. Every other rule flag (including victoryTriggered, the shark timer and the retry text) and every other part of the HUD is kept, as are the position, the meters and the fish |
| Gui.ShowVictoryHUD | src/js/gui.js:201-213 | the imperative version gives exactly ShowVictory |
| Interactions.OxygenStep | src/js/interactions.js:2-21 | underwater (y < 40) oxygen becomes max(o − 5·dt, 0); at or above 40 it becomes min(o + 25·dt, 100) and health is kept; health changes only underwater once oxygen reaches 0, to max(h − 10·dt, 0); the meters stay in [0, 100] |
| Interactions.LastBreath | src/js/interactions.js:8-15 | oxygen running out costs health in the same call (1 oxygen, dt = 1 gives oxygen 0 and health 90) |
| Interactions.StartRefills | src/js/interactions.js:3-4 | at the start height 41 the player is above the water line, so oxygen refills |
| Interactions.UpdatePlayerOxygen | src/js/interactions.js:2-21 | the imperative update gives exactly OxygenStep |
| Interactions.DamageStep | src/js/interactions.js:27-44 | the timer always drops by dt first; while it is still > 0 health is kept; otherwise a collision costs max(h − 20, 0) once and restarts the 0.5 s cooldown; no collision keeps health |
| Interactions.MetersStayInRange | src/js/interactions.js:2-44 | health and oxygen in [0, 100] stay there through the oxygen and damage updates |
| Interactions.UpdateSharkDamage | src/js/interactions.js:27-44 | the loop stops at the first overlapping shark (at most one hit) and the result is DamageStep over "some shark overlaps" |
| Interactions.GameOverStep | src/js/interactions.js:50-67 | only when health ≤ 0 and the game is not already over: sets gameOver, saves the fog, sets the fog to (0x000000, 0.1) and shows the retry text; otherwise nothing |
| Interactions.GameOverOnce | src/js/interactions.js:51 | a second check does nothing, so the saved fog is not overwritten |
| Interactions.CheckGameOver | src/js/interactions.js:50-67 | the imperative version gives exactly GameOverStep |
| Interactions.ResetStep | src/js/interactions.js:76-92 | health and oxygen to 100, gameOver false, fog restored from the saved one, retry text hidden, camera at (0, 41, 0); boost, shark timer, fish lists, velocity, keys and HUD untouched |
| Interactions.ResetGame | src/js/interactions.js:76-92 | the imperative version gives exactly ResetStep |
| Interactions.PressRStep | src/js/interactions.js:70-74 | R resets only while the game is over |
| Interactions.PressR | src/js/interactions.js:70-74 | the listener gives exactly PressRStep |
| Interactions.ChasingDist2 | src/js/interactions.js:106-110 | a shark chases exactly when its squared distance to the player is ≤ 625 |
| Interactions.SharkSpeed | src/js/interactions.js:108-114 | the shark's speed for this move is ×5 exactly when chasing |
| Interactions.ToCentreInward | src/js/interactions.js:120 | outside the limit, the way back is level, unit, and points towards the centre line |
| Interactions.ReturnToCentre | src/js/interactions.js:116-123 | only outside \|x\| or \|z\| ≤ 95: the heading turns 5% towards the centre and is renormalized, and the change timer becomes 2 + 2r, which lies in [2, 4) for draws in [0, 1) |
| Interactions.SharkSteer | src/js/interactions.js:110-124 | a chasing shark lerps 20% towards the player; otherwise the boundary rule applies |
| Interactions.ChaseShrinksHeading | src/js/interactions.js:110-113 | the chase does not renormalize: a shark at the origin heading (1, 0, 0), with the player at (−10, 0, 0), ends with heading (0.6, 0, 0), of squared length 0.36 |
| Interactions.ChaseOverridesBoundary | src/js/interactions.js:110-124 | a chasing shark never has its change timer reset, even outside the limit |
| Interactions.Swim | src/js/interactions.js:131-135 | the horizontal move is exactly step × direction |
| Interactions.BobBound | src/js/interactions.js:135 | the vertical bobbing moves an agent by at most 0.005 × baseSpeed |
| Interactions.SharkStep | src/js/interactions.js:100-139 | a shark ends with y in [5, 25], its steered heading, and a horizontal move along that heading at the chase-dependent speed × dt × baseSpeed |
| Interactions.FishStep | src/js/interactions.js:142-168 | a fish ends with y in [5, 25], the boundary rule applied, and a horizontal move along its renormalized heading at speed × dt × baseSpeed |
| Interactions.FishAll | src/js/app.js:105 | every fish is updated, each by the rule, in place in the list |
| Interactions.SharksAll | src/js/app.js:106 | every shark is updated towards the same player position |
| Interactions.AgentsInWater | src/js/interactions.js:137-138 | after an update every fish and shark is between heights 5 and 25; a shark keeps its name, speed, scale and base speed |
| Interactions.UpdateAllFish | src/js/app.js:105 | the loop over fishData gives exactly FishAll |
| Interactions.UpdateAllSharks | src/js/app.js:106 | the loop over sharkData gives exactly SharksAll |
| Interactions.InReachDist2 | src/js/interactions.js:186-188 | a fish is in reach exactly when its squared distance is ≤ 25 |
| Interactions.CatchIndex | src/js/interactions.js:183-195 | the fish taken is the one of highest index within reach; when there is none, no fish is in reach |
| Interactions.CatchStep | src/js/interactions.js:180-197 | at most one fish moves: the chosen one is appended to collectedFish and removed from fishData; the total and the multiset of fish are preserved; with none in reach nothing changes |
| Interactions.CatchKeepsOrder | src/js/interactions.js:192 | the remaining fish keep their relative order |
| Interactions.AttemptCatchFish | src/js/interactions.js:180-197 | the backward loop with break gives exactly CatchStep |
| Interactions.PressF | src/js/interactions.js:174-178 | F tries a catch whether or not the game is over |
| Interactions.GoalPos | src/js/interactions.js:209 | the goal is 10 above the totem, which stands on the terrain at the centre, so it is (0, 11.5, 0) |
| Interactions.VictoryStep | src/js/interactions.js:203-216 | no-op once triggered; fires, and shows the victory HUD, only within distance < 10 of the goal with at least two species on the HUD |
| Interactions.VictoryOnce | src/js/interactions.js:204 | the check is idempotent |
| Interactions.VictoryCondition | src/js/interactions.js:208-212 | before victory, it fires exactly when the squared distance to (0, 11.5, 0) is < 100 and the HUD shows ≥ 2 species |
| Interactions.CheckTotemVictory | src/js/interactions.js:203-216 | the imperative version gives exactly VictoryStep |
| Models.OrDefault | src/js/models.js:38-40 | a missing option takes its default value |
| Models.ModelLoadedStep | src/js/models.js:14-19 | a loaded model records its forward axis normalized; nothing else changes |
| Models.LoadedAxisUnit | src/js/models.js:18 | a recorded non-zero axis is a unit vector |
| Models.ModelLoaded | src/js/models.js:14-19 | the callback gives exactly ModelLoadedStep |
| Models.DrawInRange | src/js/models.js:45 | lo + r·(hi − lo) lies in [lo, hi) for r in [0, 1) |
| Models.CloneRanges | src/js/models.js:44-89 | for draws in [0, 1) a record has: its name and base speed copied; the normalized axis as heading; change timer in [2, 4); speed in [0.8, 1.2) × base speed; scale in [min, max); a random position in [−50, 50) × [5, 25) × [−50, 50); or a position from the position function |
| Models.Clones | src/js/models.js:43-99 | n clones are n records, the i-th built from draws 6i … 6i + 5 |
| Models.SpawnStep | src/js/models.js:31-102 | nothing for a model not yet loaded; otherwise exactly `count` records are appended to sharkData for 'shark' and to fishData for any other name, with no other list touched |
| Models.DefaultCloneRanges | src/js/models.js:38-89 | with default options, every new record has speed in [0.8, 1.2), scale in [0.1, 0.2), timer in [2, 4), and a position in the spawn box |
| Models.PushClones | src/js/models.js:43-99 | the counted loop pushes exactly the records Clones describes, in order, after the existing ones |
| Models.SpawnClones | src/js/models.js:31-102 | the early return, the defaults and the loop onto the species' list give exactly SpawnStep |
| Models.PlantInGroup | src/js/models.js:123-131 | a plant's x and z lie in [−98, 98] and its y is terrain(x, z) + 0.1 |
| Models.PlantOffsetKept | src/js/models.js:129-130 | the clamp moves a plant only when its offset would take it past ±98, and then to that bound |
| Models.PlantsUpTo | src/js/models.js:117-133 | every plant placed so far is inside [−98, 98] and rests 0.1 above the terrain |
| Models.PlantCount | src/js/models.js:117-120 | groups of plantsPerGroup give groups × plantsPerGroup plants |
| Models.SpawnPlantGroups | src/js/models.js:105-157 | no plants for a model not yet loaded; otherwise the nested loops give the plant layout, each plant clamped inside the terrain and resting on it |
| App.LoadingBarStep | src/js/app.js:155-157 | the loading progress is clamped to [0, 1], and kept when already inside |
| App.UpdateLoadingBar | src/js/app.js:155-157 | the imperative version gives exactly LoadingBarStep |
| App.Ease | src/js/app.js:160-163 | the new bar scale lies between the old scale and the progress, closing a tenth of the gap |
| App.EaseInUnit | src/js/app.js:162 | a scale and progress in [0, 1] give a new scale in [0, 1] |
| App.RenderLoadingScreen | src/js/app.js:160-166 | the loading screen changes only the bar's scale |
| App.UnderwaterTick | src/js/environment.js:216-225 | the fog is (0x66ccff, 0.02) below the water line and (0xa0e0ff, 0.002) above it |
| App.UpdateUnderwaterEffect | src/js/environment.js:216-225 | the imperative version gives exactly UnderwaterTick |
| App.LoadingFinishedStep | src/js/app.js:146-150 | after loading: loadingComplete, the HUD scene and its fish group exist, and the fog follows the camera |
| App.LoadingFinished | src/js/app.js:146-150 | the completion callback gives exactly LoadingFinishedStep |
| App.Animate | src/js/app.js:88-132 | one frame: before loading only the loading screen; then, unless the game is over, push-out, fish, sharks, fog, oxygen, shark damage, boost and camera in that order; then checkGameOver, checkTotemVictory, updateHUD2D and updateHUDFish |
| App.NothingBeforeLoading | src/js/app.js:93-97 | before loading completes a frame changes only the loading bar's scale |
| App.GameOverFreezes | src/js/app.js:102-116 | while the game is over: camera, velocity, fish, sharks, health, oxygen, boost, shark timer and collected fish stay as they are |
| App.VictoryLagsCatch | src/js/app.js:118-128 | with fewer than two species on the HUD at the start of a frame, the frame cannot trigger victory, even if it adds the second species to the HUD |
| App.BoostTwice | src/js/app.js:114-115 | in a running frame the boost globals receive exactly two boost updates, with the same Shift state and dt |
| App.InitialInv | src/js/gui.js:13-17 | the initial state satisfies the game invariant: meters in range, boost invariant, a saved fog whenever the game is over, and the badge invariant |
| App.PlayStepInv | src/js/app.js:102-116 | the running updates keep the game invariant |
| App.CheckStepInv | src/js/app.js:118-128 | the checks after the running updates keep the game invariant |
| App.TickInv | src/js/app.js:88-132 | every frame keeps the game invariant |
| App.PressRInv | src/js/interactions.js:70-92 | the R key keeps the game invariant; the invariant guarantees that a reset always has a saved fog to restore |
| App.EventInv | src/js/app.js:88-132 | every event keeps the game invariant: a frame, a key press or release, a mouse move, the R and F listeners, a finished texture load, loading progress and completion, a loaded model and a spawnClones call |
| App.Run | src/js/app.js:88-132 | after any sequence of events from a state satisfying the invariant, the invariant still holds |
| App.ReachableInv | src/js/interactions.js:70-92 | every state reachable from the initial state satisfies the invariant, so a game over always has a saved fog for R to restore |

## Left out

- Rendering, meshes, materials, lights, the scene graph, sprites and text: the retry text and the victory box are the flags `retryShown` and `victoryShown`. HUD badges keep their row (`slot`) instead of pixel positions.
- Camera orientation: the quaternion built from yaw and pitch, and the fish and shark `setFromUnitVectors`/`slerp` rotation. These are orientation only and do not affect the rules.
- Asset loading: the promises and loaders of loadTextures and loadSceneModels, `gltfAnims`, and the loading-manager callbacks. What the callbacks do to the state is modelled as `ModelLoaded`, `UpdateLoadingBar` and `LoadingFinished`.
- Animation mixers, the bubble system and the seabed children's updates, which are cosmetic.
- `restartAfterVictory`: it reloads the page, which ends the model.
- The `if (!camera)` and `if (loadingBarMesh)` guards. Both objects are created in `init` before any frame or event, so the guards are never taken.
- The `!collectedFish` guard of updateHUDFish. collectedFish is always an array, so only the `!hudFishGroup` half is modelled.
- Texture loads finish asynchronously in any order. This is modelled as a `pending` list and `TextureLoaded(i)` for any pending index.
- Math.random is a stream of values passed in. Within one frame the fish and the sharks each read their own stream, by index, instead of one shared stream consumed only by the agents that call it.
- The Math.random calls that three.js makes for object identifiers are not part of the `rand` streams. These calls happen in `THREE.SkeletonUtils.clone` (models.js:44) and `material.clone()` (models.js:55-59). `rand` carries only the draws that set a record. The real stream is interleaved with those identifier draws, but `rand` is arbitrary, so the set of records that can be produced is the same.
- The default arguments of spawnPlantGroups (12 groups of 20 plants, models.js:105) and of loadModel's forward axis ((−1, 0, 0), models.js:10) are not modelled. `SpawnPlantGroups` and `ModelLoaded` take these values as required parameters.
- Date.now() is read once per agent update (interactions.js:135, 163). The model reads one `now` per frame. The few milliseconds between those reads only shift the phase of the bobbing, and `BobBound` bounds the bobbing for any phase.
- `controlsEnabled` is an implicit global that the source only ever writes (gui.js:205) and never reads. The model keeps it as a HUD flag and starts it at true.
- A key press runs the key-set listener of controls.js and the R and F listeners of interactions.js. In `App.Event` each of these is a separate event (`KeyDown`, `PressRKey`, `PressFKey`). The three listeners touch disjoint parts of the state, so their order does not matter.
- The Box3 test of a shark against the camera is the parameter `overlap`, because bounding boxes of skinned meshes are outside the model.
- Floating point: all arithmetic is on reals. sqrt, sin, cos and π are the abstract `MathLib` constrained by `Valid`, and the exact results of `lerp` and `normalize` are those real formulas.
- SpawnClones: the source decides between sharkData and fishData inside the loop, at every push; the model decides once and then runs the loop. The name does not change during the loop, so the result is the same.
- spawnPlantGroups adds its plants to the scene only, so the model returns them instead of storing them. Their mixers and materials are left out.
- Fish and shark records are JavaScript objects updated in place. The model keeps them as values in `fishData`, `sharkData` and `collectedFish`. A caught fish is removed from `fishData` when it is appended to `collectedFish`, so no update reaches the shared object afterwards.
- drone.js, lighting.js, textures.js, and the scene construction in environment.js (apart from the totem height and the underwater fog) are outside the game rules.

## Notes on the source

Where the code does something other than its own documentation states, the model follows the code:

- The chase branch of updateShark lerps the heading towards the player without renormalizing it. A chasing shark's heading can therefore be shorter than one, and it moves more slowly than speed × 5 suggests. `Interactions.ChaseShrinksHeading` gives such a heading, of length 0.6.
- The per-frame order evaluates oxygen and shark damage before updateCamera moves the camera (`App.PlayStep`).
- A camera exactly at a fish's centre is left there by the push-out, since normalizing the zero vector gives zero (`Controls.PushOutCentre`).
- checkTotemVictory runs while the game is over. showVictoryHUD saves the current fog again, so after a death followed by a victory, the death fog becomes the saved fog (`Gui.ShowVictory`).
