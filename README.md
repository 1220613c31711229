# Truck showcase: interaction logic in Dafny

This project models the interaction logic of a small Three.js showcase. The showcase has three pages:

- A main page with a first-person camera. The pointer-locked mouse looks around, and W/A/S/D walks.
- A truck page. Dragging or one-finger touch orbits the model, and the wheel or a two-finger pinch zooms. Clicking the truck goes to the box page. The page also hosts an 8 × 8 Minesweeper game.
- A box page. Its cube spins every frame, and clicking the cube goes back to the truck page.

Rendering is not modelled. What is modelled is the state the page scripts keep and how each listener changes it:

- **Minesweeper** (`minesweeper.dfy`): a `Board` class holds the mine list, the revealed flags and each cell's face. Its methods are `GenerateMines`, the board constructor (`initGame`) and the recursive flood-fill `Reveal` with its `forEach` over the neighbours (`RevealNeighbors`, one call at a time in `RevealNext`). The nested-loop `GetNeighbors` is a module-level method, as `getNeighbors` is a module-level function. Each is proved against pure functions (`Neighbors`, `Dedup`, `CountMines`, `Label`) and lemmas about those functions. The flood-fill also returns, as ghost values, the cells it opened in order and, for each, the cell it was reached from.
- **Orbit controls** (`orbit.dfy`): the module-level variables the canvas listeners reassign become the `OrbitControls` class. Each handler is proved equal to a pure step function on a `View` value. Lemmas over those functions cover single events and whole event sequences. `public/truck.js` has the same mouse and wheel handlers but no touch handlers. Its wheel has an extra `zoomSpeed` factor of 1, so the same class models both pages' mouse and wheel handling.
- **First-person controls** (`first_person.dfy`): the key map, mouse look with clamped pitch, pointer-lock attach/detach, and the per-frame WASD step.
- **Picking** (`picking.dfy`): pointer-to-NDC normalisation, first-match click navigation, the hover flag and its two cursor classes, building the clickable-mesh list, and the cube's per-frame spin.
- **Common** (`common.dfy`): `THREE.MathUtils.clamp`, ASCII `toLowerCase` and `String.prototype.includes`.

Browser-supplied values are parameters:
- the successive `Math.random` draws;
- the results of `Math.sqrt`, `Math.cos` and `Math.sin`;
- `Math.PI / 2`;
- the window size;
- the raycaster's hit list, as names, nearest first.

Numbers are exact reals, not IEEE doubles.

## Model

| member | source | states |
|---|---|---|
| Common.Clamp | src/truck.js:102 | The result lies in [lo, hi]. It equals v when v is inside the range, lo at or below the range, and hi at or above it. |
| Common.Lower | src/main.js:104 | Lower-casing keeps the length. Each upper-case ASCII letter becomes its own lower-case letter (code + 32), and every other character is unchanged. |
| Minesweeper.Neighbors | src/truck.js:185-200 | Every cell that `getNeighbors` lists is a different cell of the grid, at most one row and one column away. |
| Minesweeper.NeighborsShape | src/truck.js:185-200 | The list has at most eight cells, in strictly increasing index order, so no cell appears twice. |
| Minesweeper.NeighborsExact | src/truck.js:185-200 | A cell is listed exactly when it touches `index`. No wrap-around across row ends, and no cell is missed. |
| Minesweeper.NeighborsSymmetric | src/truck.js:185-200 | j is a neighbour of i exactly when i is a neighbour of j. |
| Minesweeper.GetNeighbors | src/truck.js:185-200 | The two nested offset loops, with the centre skipped and the bounds checked, return exactly `Neighbors(index)`. |
| Minesweeper.CountMines | src/truck.js:211 | The filtered count is at most the number of neighbours. It is 0 exactly when no listed neighbour is a mine. |
| Minesweeper.CountMinesIsIntersection | src/truck.js:211 | Over distinct cells, the count equals the number of those cells that hold a mine. |
| Minesweeper.MinesAroundCounts | src/truck.js:211-213 | The number a cell shows is the number of adjacent cells holding a mine, and it is at most 8. |
| Minesweeper.Dedup | src/truck.js:177-183 | Keeping each draw only if it is not yet listed gives a duplicate-free list with the same values as the draws. |
| Minesweeper.DedupPrefix | src/truck.js:177-183 | More draws only extend the mine list. Earlier positions are never removed or reordered. |
| Minesweeper.DedupSize | src/truck.js:177-183 | The deduplicated list has one entry per distinct drawn value. |
| Minesweeper.Board.GenerateMines | src/truck.js:177-183 | The loop keeps the first distinct draws, up to ten. The mines are distinct and in range. Exactly ten are placed whenever the draws hold ten distinct values. |
| Minesweeper.Board.constructor | src/truck.js:219-230 | `initGame` places the mines and creates 64 hidden cells. No game-over alert has been raised. |
| Minesweeper.Board.Reveal | src/truck.js:202-217 | Revealing a revealed cell changes nothing. A mine reveals only itself and raises one alert. A cell with mines around reveals only itself. Cells are never hidden again. Every other newly revealed cell is mine-free. Every newly revealed cell with no mine around has all its neighbours revealed. The newly revealed cells are exactly the returned flood, which starts at the clicked cell; every later cell touches an earlier one that has no mine on or around it. So the flood stops at numbered cells and recurses only from blank ones. Faces match `Label` throughout. |
| Minesweeper.Board.RevealNeighbors | src/truck.js:214-215 | `forEach(reveal)` over a mine-free neighbourhood reveals every neighbour and raises no alert. Every cell it uncovers with no mine around has its own neighbours revealed. The uncovered cells are exactly the returned flood, and each one touches the centre cell or an earlier cell of the flood with no mine on or around it. |
| Minesweeper.Board.RevealNext | src/truck.js:214-215 | One `reveal` call of the `forEach` extends the flood so far by the cells it opens, keeping every promise of `RevealNeighbors` for the neighbours handled up to then. |
| Minesweeper.FloodPrepend | src/truck.js:211-216 | A flood from a blank cell, put after that cell, is a flood in order: every later cell touches an earlier blank one. |
| Minesweeper.FloodAppend | src/truck.js:214-215 | The flood of one neighbour's `reveal`, appended to the flood so far, is still a flood from the centre cell. |
| Orbit.InitialIsSteady | src/truck.js:85-88 | At load nothing is held, the camera is at z = 25, and pitch and z are within their ranges. |
| Orbit.StepKeepsSteady | src/truck.js:90-162 | Every mouse, wheel and touch handler keeps pitch in [0, 1], camera z in [5, 100], and the pivot equal to the rotation. |
| Orbit.IdleMoveIsNoOp | src/truck.js:96-97 | A `mousemove` without a held button changes nothing. |
| Orbit.DragMove | src/truck.js:96-106 | A drag move turns yaw by -0.01 per pixel of x and pitch by 0.005 per pixel of y, clamped. It then makes the pointer the new reference. |
| Orbit.PressAndRelease | src/truck.js:90-109 | `mousedown` starts a drag at the pointer without turning. `mouseup` and `mouseleave` both end it, in the same way. |
| Orbit.WheelZoom | src/truck.js:111-115 | The wheel moves the camera by deltaY / 100, held inside [5, 100]. The same holds for public/truck.js:115-120. |
| Orbit.PinchZoom | src/truck.js:128-156 | A pinch sets the camera to the distance saved at touch-start, times the start span over the current span, clamped to [5, 100]. It does not turn the model. |
| Orbit.PinchHalfSpanDoubles | src/truck.js:150-155 | Halving the finger span doubles the camera distance, up to 100. |
| Orbit.RunKeepsSteady | src/truck.js:90-162 | Any sequence of events keeps pitch in [0, 1] and camera z in [5, 100]. |
| Orbit.ZoomStaysInRange | src/truck.js:85-162 | From page load, any mix of drags, wheel turns and touches leaves the camera in [5, 100] and pitch in [0, 1]. |
| Orbit.DragTelescopes | public/truck.js:95-109 | During a drag, the total yaw change depends only on the first reference point and the last pointer position. |
| Orbit.WholeDragYaw | public/truck.js:89-109 | A whole drag changes yaw by -(last x - press x) × 0.01, however the pointer wandered. |
| Orbit.ReleasedMovesAreIgnored | public/truck.js:95-112 | After a release, pointer moves change nothing until the next `mousedown`. |
| Orbit.TouchMovesAfterEndAreIgnored | src/truck.js:139-162 | After `touchend`, touch moves with any number of fingers change nothing until a new `touchstart`. |
| Orbit.PinchZeroSpanAsWritten | src/truck.js:150-155 | As written, fingers that start and stay together give camera z = NaN. Fingers that start apart and meet send it to 100. |
| Orbit.PinchAgreesWhenSpanPositive | src/truck.js:150-155 | When the current span is positive, the guarded pinch assigns exactly what the code assigns. |
| Orbit.PinchZeroSpanHolds | src/truck.js:150-155 | With the guard, a zero current span leaves the view unchanged, and z stays in [5, 100]. |
| Orbit.OrbitControls.constructor | src/truck.js:85-88 | The handler variables start in the `Initial` view. |
| Orbit.OrbitControls.MouseDown | src/truck.js:90-94 | The `mousedown` listener is the `OnMouseDown` step, and the range invariant is kept. |
| Orbit.OrbitControls.MouseMove | src/truck.js:96-106 | The `mousemove` listener is the `OnMouseMove` step, and the range invariant is kept. |
| Orbit.OrbitControls.Release | src/truck.js:108-109 | The `mouseup`/`mouseleave` listener is the `OnRelease` step. |
| Orbit.OrbitControls.Wheel | src/truck.js:111-115 | The `wheel` listener is the `OnWheel` step, and the range invariant is kept. |
| Orbit.OrbitControls.TouchStart | src/truck.js:128-137 | The `touchstart` listener is the `OnTouchStart` step. |
| Orbit.OrbitControls.TouchMove | src/truck.js:139-157 | The `touchmove` listener is the guarded `OnTouchMove` step, and the range invariant is kept. |
| Orbit.OrbitControls.TouchEnd | src/truck.js:159-162 | The `touchend` listener clears the touch reference and the pinch start. |
| FirstPerson.NoKeys | src/main.js:96-101 | The key map has exactly the entries w, a, s and d, all up. |
| FirstPerson.PressSetsOnlyItsKey | src/main.js:103-111 | `keydown`/`keyup` set the lower-cased key when it is one of the four. They change no other entry and ignore every other key. |
| FirstPerson.PressIdempotent | src/main.js:103-106 | Auto-repeated key events change nothing after the first. |
| FirstPerson.PressIgnoresCase | src/main.js:103-111 | "W" and "w" act on the same entry. |
| FirstPerson.DirectionZero | src/main.js:118-123 | The direction is zero exactly when the pressed keys cancel: none pressed, or only opposite pairs. |
| FirstPerson.MovedKeepsHeight | src/main.js:115-137 | A frame never changes the holder's height. |
| FirstPerson.HeadingLength | src/main.js:124-132 | Turning by the yaw keeps length. The heading's length is the direction's length over the `sqrt` result. |
| FirstPerson.MovedDistance | src/main.js:115-137 | A frame moves the holder by 0.1 × \|direction\| / len, for any `sqrt` result len. The holder stays put exactly when the keys cancel. |
| FirstPerson.MovedFullStep | src/main.js:118-135 | When len is the direction's exact length and the keys do not cancel, a frame moves the holder by exactly 0.1, so diagonal movement is not faster. |
| FirstPerson.YawZeroMoves | src/main.js:115-137 | At yaw 0, w moves the holder 0.1 towards -z and d moves it 0.1 towards +x. |
| FirstPerson.QuarterTurnForward | src/main.js:115-137 | At yaw π/2, w moves the holder 0.1 towards -x. |
| FirstPerson.PitchStaysBounded | src/main.js:84-93 | Any sequence of mouse movements keeps pitch within [-π/2, π/2]. |
| FirstPerson.YawAccumulates | src/main.js:84-93 | Yaw is never clamped. It ends at its start minus 0.002 times the summed horizontal movement, with a missing movement counted as 0. |
| FirstPerson.StillMouseLooksStill | src/main.js:84-93 | A zero or missing movement leaves yaw and pitch unchanged. |
| FirstPerson.FirstPersonControls.constructor | src/main.js:20-25 | The holder starts at (0, 10, 19) with zero yaw and pitch, no key held, and no movement listener. |
| FirstPerson.FirstPersonControls.PointerLockChange | src/main.js:76-82 | Mouse look is attached exactly while the body holds the pointer lock. |
| FirstPerson.FirstPersonControls.OnMouseMove | src/main.js:84-93 | `onMouseMove` is the `Look` step. Pitch stays within [-π/2, π/2] and the camera's pitch follows it. |
| FirstPerson.FirstPersonControls.MouseMove | src/main.js:76-93 | Mouse movements reach `onMouseMove` only while attached. Otherwise nothing changes. |
| FirstPerson.FirstPersonControls.KeyDown | src/main.js:103-106 | The `keydown` listener is `Press(…, true)`. |
| FirstPerson.FirstPersonControls.KeyUp | src/main.js:108-111 | The `keyup` listener is `Press(…, false)`. |
| FirstPerson.FirstPersonControls.UpdateMovement | src/main.js:115-137 | `updateMovement` moves the holder to `Moved` of its position. |
| Picking.NormalizedRoundTrip | src/box.js:28-29 | Normalising loses nothing: the pixel can be recovered from the device coordinate. |
| Picking.NormalizedInWindow | src/box.js:28-29 | A pointer inside the window maps into [-1, 1]². The left and top edges map to -1 and +1, and the right and bottom edges to +1 and -1. |
| Picking.NormalizedMonotone | src/box.js:43-44 | Moving right raises x, and moving down lowers y. |
| Picking.AnyHitNamed | src/box.js:49 | `some` holds exactly when some hit has the target name. |
| Picking.ClickScan | src/box.js:34-39 | The click loop navigates exactly when some hit has the target name. It goes to the fixed page, stops at the first such hit, and looks at every hit when none matches. |
| Picking.TruckClick | src/truck.js:62-73 | On the truck page, a click whose hits include "truckButton" goes to box.html. Otherwise it stays. |
| Picking.BoxClick | src/box.js:27-40 | On the box page, a click whose hits include "redCube" goes to truck.html. Otherwise it stays. |
| Picking.HoveredCursor | src/box.js:49-51 | After a `mousemove`, "gun-cursor" is on exactly when hovering and "default-cursor" exactly when not. No other class changes. |
| Picking.HoveredLastWins | src/truck.js:75-83 | Only the latest `mousemove` decides the cursor. |
| Picking.Body.Hover | public/truck.js:71-81 | The hover listener toggles both classes by the `some` flag over the hits. |
| Picking.CollectClickable | public/truck.js:32-46 | Every mesh whose lower-cased name contains "truck" is renamed "truckButton" and pushed, in traversal order. No other node is pushed or renamed. |
| Picking.HoverOnClickable | public/truck.js:74-78 | When the raycaster hits only clickable meshes, the pointer counts as over the truck exactly when anything was hit. |
| Picking.SpunLinear | src/box.js:60-64 | After n frames the cube's yaw is its start plus 0.01 n. It is never wrapped. |
| Picking.Cube.Frame | src/box.js:62 | One frame adds 0.01 to the cube's yaw. |
| Picking.Cube.Frames | src/box.js:60-64 | n frames in a row give `Spun(start, n)`. |

## Findings

| source | as written | input that shows it | evidently intended | confidence | as-written member | corrected member |
|---|---|---|---|---|---|---|
| src/truck.js:150-155 | The two-finger `touchmove` divides the span saved at `touchstart` by the current span, with no guard. | Two fingers touch down on the same pixel and move while still together: 0 / 0 is NaN, and `clamp` passes NaN on to camera z. Fingers that start apart and then meet give +Infinity, which sends the camera to 100. | A zero current span leaves the camera distance as it is, so z stays in [5, 100]. | not executed | Orbit.PinchZeroSpanAsWritten | Orbit.PinchZeroSpanHolds |

## Left out

- Rendering, the loaders, textures and materials, lights, window `resize`, and the `requestAnimationFrame` scheduling are not modelled. The model starts from the values these produce. `animate` is a frame-by-frame call of `Frame` and `UpdateMovement`.
- Raycasting geometry is not modelled. A hit list is given as the hit objects' names, nearest first. Under `intersectObjects(clickableMeshes, true)`, a child of a clickable mesh keeps its own name, so it does not count as the truck.
- Minesweeper.Board.GenerateMines: `Math.random` becomes a finite sequence of draws, each in 0..63, so the loop also stops when the draws run out. Exactly ten mines are promised only when the draws hold ten distinct values. Termination of the source loop depends on the random generator and is not modelled.
- `Math.sqrt`, `Math.cos`, `Math.sin` and `Math.PI / 2` are parameters. The touch span is a parameter too, taken to be the distance between the first two touches.
- FirstPerson.FirstPersonControls.UpdateMovement: like `Moved`, it accepts any `cos`, `sin` and `len`, so it does not promise that they describe the holder's rotation or the direction's square root. Only the length lemmas (`HeadingLength`, `MovedDistance`, `MovedFullStep`) require cos² + sin² = 1, and only `MovedFullStep` requires len² = \|direction\|².
- Floating-point rounding is not modelled; numbers are exact reals. NaN and infinities appear only in `Orbit.PinchZAsWritten`.
- The `touchmove` pinch branch follows the corrected behaviour in the Findings table. It differs from the code only when the current span is 0.
- `toLowerCase` is modelled for ASCII letters only. Keys and mesh names outside ASCII lower-case as-is.
- `alert('Game Over')` is a counter on the board. The cell's text (the bomb glyph or the number) is its `Face`, and the `revealed` class is a flag.
- The honk sound, the body `click` that requests pointer lock, the `preventDefault` calls and `vite.config.js` are not modelled. They are browser services or tooling.
- The plane texture assignment inside the traversal is not modelled. It changes only the material.
- The cursor classes the HTML sets before the first `mousemove` are not modelled. `Body` starts from any class set.
- `getNeighbors` is called twice in `reveal`. The model calls it once, since both calls return the same list.
