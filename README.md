# block-arena, modelled in Dafny

block-arena is a top-down physics sandbox built on matter-js. A circular player
avatar moves through a rectangular world full of square boxes. Keys A, D, W and S
set a target velocity that the avatar's velocity is smoothed toward. The avatar
is clamped into the world. Boxes drift with random velocities and wrap to the
opposite side when they leave the world. A camera follows the player, and a
sensor cursor body circles the avatar in the direction of the pointer.

The model covers the simulation core, one Dafny module per source file:

- `Vectors` (vectors.dfy): the vector helpers of `src/modules/matter/vector.ts`
  and the matter-js `Vector` arithmetic they use.
- `Matter` (matter.dfy): a matter-js `Body` as a class with mutable position and
  velocity, plus its shape and sensor flag.
- `Optional` (optional.dfy): an `Option` type.
- `Keyboard` (keyboard.dfy): the pressed-key set of `src/keyboard.ts`. Its
  `keydown`, `keyup` and `blur` listeners are methods, and `isDown` is a query.
- `Players` (player.dfy): the `Player` class of `src/modules/game/player.ts`.
- `Games` (game.dfy): the `Game` class of `src/modules/game/game.ts`. This covers
  box creation, random velocities, the box wrap and the frame update.
- `Rendering` (renderer.dfy): the camera of `src/modules/game/game-renderer.ts`.
- `Arena` (arena.dfy): the standalone page `src/pages/index.tsx`. It has its own
  player body, 150 boxes in a 5000 x 5000 world, and a frame callback that moves
  the player, wraps the boxes and sets a viewport clamped into the world.

The page `src/pages/index.tsx` imports its vector helpers from `src/vector.ts`,
which is not part of this model. The model takes them to behave like those of
`src/modules/matter/vector.ts`, so `Arena` reuses the `Vectors` module. By the
same choice, `Arena` reuses the box creation, box wrap and target velocity of
`Games` and `Players`, because the page's code for these does what the game's
does.

Coordinates are reals. Random draws, the cosine and sine of angles, the pressed
keys, the pointer position and the canvas size are all parameters.

The box wrap's upper test is strict (`x > worldSize.x` and `y > worldSize.y`,
src/modules/game/game.ts:66,68 and src/pages/index.tsx:107,109). A wrapped box
therefore lies in the closed interval `[0, w]`, and a coordinate exactly equal
to `w` stays where it is.

## Model

| member | source | states |
|---|---|---|
| Vectors.OriginIsNeutral | src/modules/matter/vector.ts:4 | `originVector` is (0, 0); adding it or subtracting it changes no vector, and `v - v` is the origin |
| Vectors.Clamp | src/modules/matter/vector.ts:2 | the imported `clamp`, taken to be `min(max(v, lo), hi)`: with ordered bounds the result lies in them; an in-range value is returned unchanged; values below/above give `lo`/`hi` |
| Vectors.ClampVector | src/modules/matter/vector.ts:6-11 | with `min <= max` on an axis, that component of the result lies in `[min, max]`; an in-range vector, or an in-range component, is returned unchanged |
| Vectors.ClampVectorIdempotent | src/modules/matter/vector.ts:6-11 | clamping twice equals clamping once, for any bounds, including the unordered bounds the page produces when the canvas is larger than the world |
| Vectors.ClampVectorAxesIndependent | src/modules/matter/vector.ts:6-11 | the x component of the result depends only on the x inputs, and the y component only on the y inputs |
| Vectors.LerpVector | src/modules/matter/vector.ts:13-19 | amount 0 gives the start vector, amount 1 gives the target |
| Vectors.LerpVectorBetween | src/modules/matter/vector.ts:13-19 | for an amount in [0, 1], each component lies between the start and target components |
| Vectors.LerpVectorClamped | src/modules/matter/vector.ts:21-27 | amount <= 0 gives the start, amount >= 1 gives the target, and each component always lies between the start and target components |
| Vectors.LerpVectorClampedInRange | src/modules/matter/vector.ts:21-27 | for an amount in [0, 1], the clamped interpolation equals the plain one |
| Vectors.VectorFromSize | src/modules/matter/vector.ts:33-38 | width becomes x, height becomes y |
| Keyboard.AnyPressed | src/keyboard.ts:15-17 | `keys.some(has)` is true exactly when some listed `ki` is in the pressed set |
| Keyboard.PressedKeys.IsDown | src/keyboard.ts:15-17 | `isDown(k1..kn)` is true exactly when some listed code is in the tracker's current set |
| Keyboard.NothingPressed | src/keyboard.ts:15-17 | `isDown()` with no codes is false, and nothing is down in the empty set |
| Keyboard.AnyPressedOnlyReadsListed | src/keyboard.ts:15-17 | two pressed sets that agree on every listed code give the same answer |
| Keyboard.KeyDownMakesDown | src/keyboard.ts:4-6 | after adding a code, any query that lists it is true |
| Keyboard.KeyUpMakesUp | src/keyboard.ts:7-9 | after removing a code, a query that lists only that code is false |
| Keyboard.OtherKeysUnaffected | src/keyboard.ts:4-9 | adding or removing one code leaves every query that does not list it unchanged |
| Keyboard.PressedKeys.constructor | src/keyboard.ts:1 | the pressed set starts empty |
| Keyboard.PressedKeys.KeyDown | src/keyboard.ts:4-6 | the set gains the code (and is unchanged if it was already there); queries listing the code become true, others keep their value |
| Keyboard.PressedKeys.KeyUp | src/keyboard.ts:7-9 | the set loses the code; `isDown(code)` is false; queries not listing it keep their value |
| Keyboard.PressedKeys.Blur | src/keyboard.ts:10-12 | the set is empty and every query is false |
| Players.TargetVelocity | src/modules/game/player.ts:30-34 | each target component is -5 or 5 exactly when only the matching key of its axis is held, and 0 exactly when both or neither are held |
| Players.TargetVelocityComponents | src/modules/game/player.ts:30-34 | every target component is one of -5, 0 and 5 |
| Players.TargetFromKeys | src/modules/game/player.ts:30-34 | the `+=`/`-=` steps from the origin produce the target velocity |
| Players.SmoothedVelocity | src/modules/game/player.ts:36-43 | the smoothed velocity equals the target when `delta >= 0.1` and the old velocity when `delta <= 0`; if old and target are within speed 5 on each axis, so is the new velocity |
| Players.Steer | src/modules/game/player.ts:36-49 | the new velocity is `lerpVectorClamped(old, target, delta * 10)`; the new position is the old one clamped to `[0, worldSize]`, and lies in that range |
| Players.Player.constructor | src/modules/game/player.ts:12-23 | the avatar (radius 30, not a sensor) is at the spawn point scaled by the world size; the cursor (radius 10, a sensor) is on it; the two bodies are different |
| Players.Player.Position | src/modules/game/player.ts:25-27 | the `position` getter returns the avatar body's current position |
| Players.Player.Move | src/modules/game/player.ts:29-50 | with the held keys as a set, velocity and position become the smoothed target and the clamped position; the position ends in the world; the cursor body is unchanged |
| Players.AimVector | src/modules/game/player.ts:54-62 | world mouse minus player position equals screen mouse minus half the canvas |
| Players.AimIgnoresPlayerPosition | src/modules/game/player.ts:54-62 | the aim vector does not depend on the player position |
| Players.Player.UpdateCursorPosition | src/modules/game/player.ts:52-70 | for the unit direction of the aim, the cursor is placed at the avatar plus 70 times that direction, exactly 70 away from the avatar; the avatar and the cursor's velocity are unchanged |
| Games.WrapAxis | src/modules/game/game.ts:65-68 | below 0 adds the extent; `[0, extent]` is unchanged; above the extent subtracts it |
| Games.WrapAxisSingleStep | src/modules/game/game.ts:65-68 | for a positive extent, one wrap lands in `[0, extent]` if and only if the coordinate was in `[-extent, 2 * extent]` |
| Games.WrapPosition | src/modules/game/game.ts:64-69 | each axis is wrapped on its own; a position in the world is unchanged |
| Games.WrapPositionInWorld | src/modules/game/game.ts:64-69 | a wrapped position is in the world if and only if it started within one extent of it; for such positions, wrapping again changes nothing |
| Games.WrapAcrossRightEdge | src/modules/game/game.ts:64-69 | (4990, 2500) moved 20 to the right in a 5000-wide world wraps to (10, 2500) |
| Games.BoxSpawnPosition | src/modules/game/game.ts:39-40 | for draws in [0, 1), the spawn point lies in `[0, w) x [0, h)` |
| Games.BoxSpeed | src/modules/game/game.ts:54 | for a draw in [0, 1), the speed `r * 2 + 1` lies in [1, 3) |
| Games.CreateBoxes | src/modules/game/game.ts:36-49 | exactly 150 fresh, distinct, non-sensor 100 x 100 boxes at rest; box `i` is at the spawn point of draw `i`; for a positive world and draws in [0, 1), every created box lies in `[0, w) x [0, h)` |
| Games.RandomizeVelocities | src/modules/game/game.ts:51-60 | box `i` gets velocity `directions[i] * (r * 2 + 1)`; no position changes |
| Games.WrapBoxes | src/modules/game/game.ts:62-71 | every box position is replaced by its wrap; velocities, box count and order are unchanged |
| Games.Game.constructor | src/modules/game/game.ts:12-23 | a fresh player with fresh avatar and cursor bodies, then 150 fresh boxes at their spawn points with randomized velocities; the player's bodies are not among the boxes, so the new game can be updated at once |
| Games.Game.Update | src/modules/game/game.ts:31-34 | the player moves first (smoothed velocity, clamped position), then every box is wrapped; the cursor body and the game invariant are kept |
| Games.Game.ClampBoxesToWorld | src/modules/game/game.ts:62-71 | every box is wrapped with its velocity kept; boxes that started within one extent of the world end inside it |
| Rendering.PlayerRegistry.GetPlayer | src/modules/game/game-renderer.ts:59-60 | the lookup finds a player exactly when the id is registered, and then returns that player |
| Rendering.CameraStep | src/modules/game/game-renderer.ts:43-48 | the camera snaps to the target when `delta >= 0.1`, stays put when `delta <= 0`, and stays on target once there |
| Rendering.CameraStepApproaches | src/modules/game/game-renderer.ts:43-48 | with a fixed target, neither axis's distance to the target grows; when `delta > 0`, each axis not yet on target strictly shrinks |
| Rendering.CameraConverges | src/modules/game/game-renderer.ts:43-48 | over any run of frames with a fixed target, the distance never grows on either axis; a camera on target stays there; after any frame with `delta >= 0.1` it ends on target |
| Rendering.ContractScalar | src/modules/game/game-renderer.ts:43-48 | one axis of an interpolation with amount `a` in [0, 1] keeps exactly the fraction `1 - a` of its distance to the target |
| Rendering.Retained | src/modules/game/game-renderer.ts:43-48 | the share of the offset one update keeps, `1 - clamp(delta * 10, 0, 1)`, lies in [0, 1]; it is 0 when `delta >= 0.1` and below 1 when `delta > 0` |
| Rendering.CameraStepContracts | src/modules/game/game-renderer.ts:43-48 | one update multiplies each axis's offset from the target by `Retained(delta)` |
| Rendering.CameraAfterAxes | src/modules/game/game-renderer.ts:43-48 | over a run of updates, each camera axis evolves on its own |
| Rendering.AxisAfterOffset | src/modules/game/game-renderer.ts:43-48 | along one axis, the offset after a run of updates is the starting offset times the product of the frames' retained shares |
| Rendering.CameraAfterOffset | src/modules/game/game-renderer.ts:43-48 | with a fixed target, each axis's offset after any run of updates is the starting offset times the product of the retained shares |
| Rendering.RetainedAfterSteady | src/modules/game/game-renderer.ts:43-48 | for frames that all have one length, the product of shares is `Retained(delta)^n` |
| Rendering.PowShrinks | src/modules/game/game-renderer.ts:43-48 | powers of a share in [0, 1] stay in [0, 1] and never grow with the exponent; a positive power of a share below 1 is below 1 |
| Rendering.CameraConvergesGeometrically | src/modules/game/game-renderer.ts:43-48 | over `n` frames of one length `delta`, the multi-frame share is `Retained(delta)^n` and each axis's offset from a fixed target is the starting offset times that share |
| Rendering.SteadyShareBounds | src/modules/game/game-renderer.ts:43-48 | over a steady run the share of the offset kept lies in [0, 1], and is below 1 once the run has a frame of positive length, so the offset shrinks geometrically |
| Rendering.Viewport | src/modules/game/game-renderer.ts:50-55 | the viewport's min is the camera position and `max - min` is the canvas size |
| Rendering.GameRenderer.constructor | src/modules/game/game-renderer.ts:13-14 | camera position and target both start at the origin; nothing has been looked at |
| Rendering.GameRenderer.CanvasSize | src/modules/game/game-renderer.ts:34-36 | the canvas width becomes x and its height becomes y |
| Rendering.GameRenderer.Update | src/modules/game/game-renderer.ts:43-56 | the camera makes one smoothing step toward the unchanged target; the viewport is the canvas-sized rectangle at the new camera position; the camera snaps when `delta >= 0.1` and never moves away on either axis |
| Rendering.GameRenderer.LookAtPlayer | src/modules/game/game-renderer.ts:58-66 | an unknown id changes nothing; a known one sets the target so that target plus half the canvas is the player position, leaving camera position and viewport alone |
| Rendering.GameRenderer.ToWorldPosition | src/modules/game/game-renderer.ts:68-74 | a translation by the camera position that subtracting it undoes; it reads state and changes none |
| Rendering.ToWorldPreservesOffsets | src/modules/game/game-renderer.ts:68-74 | two screen points are as far apart in the world as on the screen |
| Arena.TopLeft | src/pages/index.tsx:117-121 | for a canvas no larger than the world, the top-left lies in `[0, world - canvas]`; when the player is at least half a canvas from every edge, it is the player position less half the canvas |
| Arena.ViewBounds | src/pages/index.tsx:123-128 | the bounds start at the top-left and span exactly the canvas |
| Arena.ViewInsideWorld | src/pages/index.tsx:117-128 | for a canvas no larger than the world, both corners of the viewport lie in the world |
| Arena.Arena.constructor | src/pages/index.tsx:21-53 | a fresh player body at its draws scaled by 5000, which lies in `[0, 5000) x [0, 5000)` for draws in [0, 1); 150 fresh, distinct boxes at their spawn points with randomized velocities; no viewport yet, so the new page can run frames at once |
| Arena.Arena.Frame | src/pages/index.tsx:80-130 | the velocity becomes the smoothed target of the held keys; the position is clamped into the world and ends there; every box is wrapped with its velocity kept; with a canvas, the viewport becomes the clamped view bounds; without one, the frame stops before `lookAt` |
| Arena.Arena.Simulate | src/pages/index.tsx:82-111 | the player movement and the box wrap of one frame, for given key states |

## Left out

- The matter-js engine, runner and `Composite` are not modelled. They are a foreign physics library. Between frames, body positions and velocities are whatever the boxes and bodies hold.
- `Render.create`, `Render.run` and drawing are left out because they are rendering. Only the bounds handed to `Render.lookAt` are kept, recorded as a `viewport` field.
- `GameRenderer.run`, `Game.run` and the renderer's `windowSize` options are left out. They start and stop the engine or the render loop.
- `vectorFromAngle`, and the `atan2`, `cos` and `sin` calls in the cursor offset and the box velocities, are not modelled because trigonometry has no exact real model. The cosine and sine appear as inputs. For the cursor they must form a unit vector pointing along the aim.
- `Math.random` is not called: every random draw is a parameter.
- The `clamp` helper (`src/modules/helpers/clamp`) is not part of this model. It is taken to be `min(max(v, lo), hi)`.
- `src/vector.ts`, which the page imports, is not part of this model. It is taken to behave like `src/modules/matter/vector.ts`, and `Arena` uses the `Vectors` module for it.
- `useAnimationLoop` from `src/useAnimationLoop`, which the page imports, is not part of this model. Each animation frame is one call of `Arena.Frame` with that frame's `delta`.
- `worldSize` from `src/modules/game/constants` is not part of this model. It is a constructor parameter of `Game` and `Player`. The page uses its own 5000 x 5000 constant.
- `isKeyDown` from `src/modules/dom/keyboard` is not part of this model. `Player.Move` and `Game.Update` take the set of pressed codes instead.
- `getMousePosition` is an input. The pointer position is a parameter of `UpdateCursorPosition`.
- `Game.getPlayer` is not part of this model. It is a partial map from id to body (`PlayerRegistry`).
- `raise` is not modelled as an exception. A missing canvas is `None`, and the frame then reports `completed == false` after the movement and the wrap.
- The React and DOM wiring is left out because it is event plumbing: `useEffect`, `useRef`, the animation loop, the window listeners, the pointer hooks and `use-keyboard.ts`. The last duplicates the pressed-set logic of `src/keyboard.ts`.
- The box friction options (`friction: 0`, `frictionAir: 0`) are not modelled. They only affect the physics engine.
- A grab, hold and throw state machine is not modelled: none of the modelled files implements one.
- IEEE double rounding is not modelled. Coordinates are mathematical reals.
