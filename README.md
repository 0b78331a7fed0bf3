# Farmer game: a Dafny model of the game core

The farmer game is a small browser arcade game: the player's farmer walks over a
900 x 540 field collecting crops that spawn on a 30-pixel grid, and must reach 15
points before the 60-second round runs out. This project models its core in Dafny:

- `obstacle.dfy` (module `Obstacle`): the `aabb` overlap test, `clamp`, and the
  decorative scarecrow record;
- `farmer.dfy` (module `Player`): the `Farmer` class with its key-to-direction
  handling, its movement clamped to the field, and `setPos`;
- `crop.dfy` (module `Crops`): the crop type table, the default type and the `Crop`
  record with its no-op per-frame hook;
- `game.dfy` (module `FarmGame`): the constants, the five-state machine, the
  held-key tracker `Input`, and the `Game` class with `start`, `reset`,
  `togglePause`, `spawnCrop` and the per-frame `update`, with its spawn loop and
  its collision pass.

Classes are used where the source updates fields in place: `Farmer`, `Input` and
`Game`. Crops and scarecrows are values. The per-frame `update` is proved against
functions on values:

- `SpawnInterval` gives the spawn interval;
- `Spawns` gives the crops a frame spawns;
- `Overlapping` and `Remaining` give the collected crops and the surviving ones;
- `SumPoints` gives the points collected.

Lemmas beside those functions state membership, order, partition and counting
facts. The class invariant `Game.Valid` is kept by `Start`, `Reset`, `TogglePause`,
`KeyDown` and `Update`:

- the timer stays within `[0, 60]`;
- the spawn interval stays within `(0.3, 0.8]`;
- the spawn accumulator stays below one interval;
- the score is never negative;
- every crop on the field is live and worth a positive number of points.

`SpawnCrop` is called only from inside the spawn loop of a frame, where the
accumulator is briefly above one interval. So its contract states only the appended
crop, and `SpawnedCropShape` shows that crop is live and worth positive points.

Numbers are exact reals; points and the score are integers. `Math.random()` is a
parameter `rand: nat -> real` of `Game.Update`. Its values lie in `[0, 1)`, and
spawn `i` of a frame uses `rand(3i)`, `rand(3i+1)` and `rand(3i+2)`, for the
column, the row and the crop type, in the source's order. The canvas size that
`Farmer.update` clamps to is given to the `Game` constructor. The spawn position
uses the `WIDTH`/`HEIGHT` constants, as the source does.

The model follows the code in these places:

- `reset` does not touch `spawnEvery`. It keeps its last value until the next
  frame of play recomputes it.
- The constructor starts with no scarecrows; only `reset` places the two.
- `togglePause` sends MENU, GAMEOVER and WIN to PAUSED. A later `start` from
  PAUSED sets PLAYING without a reset, as `PauseFromMenuScenario` shows. In the
  source no frames are scheduled in that case (see "## Left out").
- `keyDown` toggles the pause on every key-down event for "p", auto-repeat
  included, before it records the key.

## Model

| member | source | states |
|---|---|---|
| Obstacle.Aabb | farmer-game/Obstacle.js:31-38 | definition: the four strict comparisons of the overlap test; `AabbIffCommonPoint` characterises it |
| Obstacle.Max | farmer-game/Obstacle.js:49 | definition: the larger of two numbers, as `clamp` uses it |
| Obstacle.Min | farmer-game/Obstacle.js:49 | definition: the smaller of two numbers, as `clamp` uses it |
| Obstacle.NewScarecrow | farmer-game/Obstacle.js:7-12 | a scarecrow keeps the given position and is 30 wide and 40 high |
| Obstacle.Clamp | farmer-game/Obstacle.js:48-50 | the result lies in `[lo, hi]` when `lo <= hi`; a value already in range is returned unchanged; when `lo > hi` the result is `lo` |
| Obstacle.ClampIdempotent | farmer-game/Obstacle.js:48-50 | clamping an already clamped value changes nothing |
| Obstacle.AabbSymmetric | farmer-game/Obstacle.js:31-38 | the overlap test does not depend on argument order |
| Obstacle.TouchingDoNotOverlap | farmer-game/Obstacle.js:31-38 | rectangles that only share an edge, on either axis, do not overlap |
| Obstacle.AabbContained | farmer-game/Obstacle.js:31-38 | a rectangle overlaps every rectangle of positive size that it contains |
| Obstacle.AabbReflexive | farmer-game/Obstacle.js:31-38 | a rectangle of positive size overlaps itself |
| Obstacle.AabbIffCommonPoint | farmer-game/Obstacle.js:31-38 | for positive sizes, `aabb` holds exactly when the two rectangles share an interior point |
| Player.AxisDir | farmer-game/Farmer.js:24-31 | the direction along one axis is -1, 0 or 1; it is -1 exactly when only the negative key is held and 1 exactly when only the positive key is held |
| Player.DirectionFromKeys | farmer-game/Farmer.js:24-31 | for arrows and WASD, on both axes: each component is -1, 0 or 1; it is -1 exactly when only left (up) is held, +1 exactly when only right (down) is held, and 0 when opposing keys are both held |
| Player.Moved | farmer-game/Farmer.js:39-46 | after a move, the coordinate lies in `[0, limit]`; with no direction it does not change from an in-range position |
| Player.Farmer.constructor | farmer-game/Farmer.js:11-18 | the farmer starts at the given position, 34 x 40, speed 160, colour `#3b6ba5`, with no direction |
| Player.Farmer.HandleInput | farmer-game/Farmer.js:24-31 | `dx` and `dy` become the direction of the held keys along each axis |
| Player.Farmer.Update | farmer-game/Farmer.js:39-46 | the new position is the old one moved by direction * speed * dt and clamped; the sprite then lies inside the field |
| Player.Farmer.SetPos | farmer-game/Farmer.js:62-65 | the position becomes the given one and the direction is kept |
| Crops.CropTypesTable | farmer-game/Crop.js:1-5 | there are three crop types worth 1, 3 and 5 points; every type and the default is worth a positive number of points |
| Crops.NewCrop | farmer-game/Crop.js:14-23 | a new crop is 24 x 24 at the given position, takes the type's name, points and colour, and is live |
| Crops.DefaultCrop | farmer-game/Crop.js:14 | a crop built without a type is the one-point "default" crop |
| Crops.Crop.Update | farmer-game/Crop.js:30-32 | the per-frame hook leaves the crop as it was |
| FarmGame.IsPauseKey | farmer-game/Game.js:43 | definition: the key is "p" or "P" |
| FarmGame.Toggled | farmer-game/Game.js:171 | pausing gives PLAYING exactly from PAUSED and PAUSED exactly from every other state |
| FarmGame.ToggleTwice | farmer-game/Game.js:170-173 | two toggles restore exactly PAUSED and PLAYING; from MENU, GAMEOVER or WIN they end in PLAYING |
| FarmGame.SpawnInterval | farmer-game/Game.js:209-210 | while time remains, the interval lies in `(0.3, 0.8]`; it is 0.8 at the start of a round and below 0.8 afterwards |
| FarmGame.SpawnIntervalShrinks | farmer-game/Game.js:209-210 | the spawn interval shrinks as the remaining time does |
| FarmGame.SpawnedCrop | farmer-game/Game.js:188-191 | definition: the column, the row and the type chosen from the three draws; `SpawnedCropShape` states their range |
| FarmGame.SpawnedCropShape | farmer-game/Game.js:187-191 | a spawned crop sits on the 30-pixel grid, at least one tile in from the left and top edges, with x up to 840 and y up to 480; it is a live crop of one of the three types |
| FarmGame.Spawns | farmer-game/Game.js:215-219 | a frame that runs the spawn loop `k` times spawns exactly `k` crops |
| FarmGame.SpawnsAt | farmer-game/Game.js:216-219 | the `i`-th crop of a frame is made from draws `3i`, `3i+1` and `3i+2` |
| FarmGame.SpawnsOk | farmer-game/Game.js:187-191 | every crop a frame spawns is live and worth positive points |
| FarmGame.IntervalsIsProduct | farmer-game/Game.js:215-219 | `k` subtractions of the interval remove `k * interval` seconds from the accumulator |
| FarmGame.SpawnCountIsFloor | farmer-game/Game.js:215-219 | the spawn loop runs `floor((accumSpawn + dt) / spawnEvery)` times |
| FarmGame.Overlapping | farmer-game/Game.js:221 | the collected crops are a selection of the field's crops, so no more of them |
| FarmGame.OverlappingMembers | farmer-game/Game.js:221 | a crop is collected exactly when it is on the field and overlaps the farmer |
| FarmGame.Remaining | farmer-game/Game.js:234 | the surviving crops are no more than the field's crops |
| FarmGame.RemainingMembers | farmer-game/Game.js:221-234 | a crop survives exactly when it was on the field and does not overlap the farmer |
| FarmGame.RemainingAppend | farmer-game/Game.js:234 | filtering keeps the survivors in their original order, piecewise over a concatenation |
| FarmGame.CollisionPartition | farmer-game/Game.js:221-234 | every crop is either collected or kept, never both and never neither (a multiset partition) |
| FarmGame.MarkCollected | farmer-game/Game.js:223-226 | definition: every crop that overlaps the farmer is marked dead, the others are kept as they were; `CollectThenSweep` relates it to `Remaining` |
| FarmGame.Alive | farmer-game/Game.js:234 | definition: the live crops, in order; `CollectThenSweep` and `CollectionFacts` relate it to `Remaining` |
| FarmGame.CollectThenSweep | farmer-game/Game.js:223-234 | marking the overlapping crops dead, then removing dead crops, leaves exactly the non-overlapping ones |
| FarmGame.CollectionFacts | farmer-game/Game.js:221-235 | what a collection adds to the score is not negative; the sweep leaves exactly the non-overlapping crops whether or not anything was marked; the survivors keep the crop invariant |
| FarmGame.SumPoints | farmer-game/Game.js:223-224 | definition: the points of the crops, added up in order; `SumPointsPrefix` and `SumPointsPositive` are about it |
| FarmGame.SumPointsPrefix | farmer-game/Game.js:223-224 | scoring one more collected crop adds its points |
| FarmGame.SumPointsPositive | farmer-game/Game.js:223-224 | each collected crop adds at least one point, so collecting never lowers the score |
| FarmGame.Input.constructor | farmer-game/Game.js:29-31 | the tracker belongs to the given game and starts with no keys held |
| FarmGame.Input.KeyDown | farmer-game/Game.js:42-45 | "p" or "P" toggles the pause, other keys leave the state alone; the key is added to the held set; the game invariant is kept |
| FarmGame.Input.KeyUp | farmer-game/Game.js:50-52 | the key is removed from the held set |
| FarmGame.Game.constructor | farmer-game/Game.js:70-95 | a new game is in MENU with 60 s left, interval 0.8, no accumulated time, score 0, goal 15, no crops and no scarecrows, the farmer at (433, 460) and no keys held |
| FarmGame.Game.Start | farmer-game/Game.js:139-149 | from MENU, GAMEOVER or WIN a fresh round starts in PLAYING; from PAUSED the state becomes PLAYING with nothing else changed; while PLAYING nothing changes |
| FarmGame.Game.Reset | farmer-game/Game.js:154-165 | back to MENU with a fresh round: farmer at the start, no crops, the two scarecrows, 60 s, score 0, no accumulated time; the interval and the direction are kept |
| FarmGame.Game.TogglePause | farmer-game/Game.js:170-173 | the state becomes its toggle; the game invariant is kept |
| FarmGame.Game.SpawnCrop | farmer-game/Game.js:187-192 | exactly the crop made from the three draws is appended to the field |
| FarmGame.Game.Update | farmer-game/Game.js:198-237 | outside PLAYING nothing changes. When the clamped timer reaches 0, the round ends in WIN or GAMEOVER on the score so far, the timer is 0, and nothing else changes. Otherwise the frame does four things: it recomputes the interval; it moves the farmer by the held keys; it spawns crops and reduces the accumulator by the spawned intervals; it adds the points of every overlapping crop, old or new, keeps only the others, and wins once a collection reaches the goal. The invariant is kept |
| FarmGame.Game.Advance | farmer-game/Game.js:209-236 | the part of a frame that runs while time remains, with the same outcome as the last case of `Update` |
| FarmGame.Game.SpawnDue | farmer-game/Game.js:215-219 | afterwards less than one interval is left in the accumulator; the `k` loop turns used up `k` intervals and appended `Spawns(rand, k)` |
| FarmGame.Game.AddPoints | farmer-game/Game.js:223-224 | the score grows by the points of the collected crops |
| FarmGame.Game.Collect | farmer-game/Game.js:221-235 | the score grows by the points of the overlapping crops; only the non-overlapping crops remain, still valid; WIN is set exactly when something was collected and the goal is reached |

## Left out

- Rendering (`render`, `draw` of the farmer, crops and scarecrows, the grid, the banners) is not modelled: it only paints the canvas.
- The on-page text is not modelled. This covers `syncUI`, the `ui` slots, `textContent` and the `Math.ceil` time display. The model assumes every UI slot exists. In the source a missing slot makes the next write to it throw, which would cut short `keyDown`, `start`, `reset`, `togglePause` or `update` there.
- The animation-frame driver is not modelled. This covers `tick`, `requestAnimationFrame`, `lastTime`, `performance.now` and the 33 ms cap on `dt`. `Game.Update` takes any `dt >= 0` as a parameter instead.
  - The model lets frames run in any PLAYING state. In the source, none run until the first `start` from MENU, GAMEOVER or WIN schedules the first tick. A game paused from the menu and then started stays in PLAYING with no frames.
  - Each later such `start` adds one more tick chain, and the extra frames it drives see `dt = 0`.
- Event-listener plumbing is not modelled. This covers `addEventListener`, `bind`, `dispose`, the resize handler and the button handlers. These are browser wiring; `KeyDown`, `KeyUp`, `Start` and `Reset` are the operations they call.
- The constructor's early return when no canvas exists is not modelled, because it only logs an error. The canvas size is a constructor parameter instead.
- Floating-point rounding is not modelled: numbers are exact reals. For example, repeatedly subtracting `spawnEvery` is exact here.
- `Math.random()` is not modelled: its results are supplied by the caller as `rand`, with values in `[0, 1)`.
- `Player.Farmer`: `dx` and `dy` are undefined in the source until the first `handleInput`. Here they start at 0. `Game.Update` always calls `HandleInput` before moving, so play is not affected.
- `Input.KeyDown`: `toLowerCase() === "p"` is modelled as the key being "p" or "P". Dafny has no case folding, and other strings that lower-case to "p" do not occur as key names.
- `Game.Collect`: the crops are a sequence of values. Setting `dead` on the shared crop objects is modelled by `MarkCollected` followed by the sweep, so aliasing of crop objects is not modelled.
- `Game.Valid`: the field invariant does not include grid placement. `SpawnedCropShape` and `SpawnsAt` state it for each spawned crop instead.
