# threejs-bunnymark: sprite animator, bounce motion and update loop

This project is a Dafny model of the logic in the bunnymark demo (`src/index.ts`). The demo fills a three.js scene with sprites. Each sprite drifts along x, bounces off ±60 and spins a little on every frame. A sprite-sheet animator picks which tile of a texture a bunny shows. The rendering work is done by the library and is not modelled.

The model has four modules:

- `SpriteSheet` (`sprite_sheet.dfy`) holds the pure arithmetic of the animator:
  - the row-major column and row of a tile, and the texture offset it is shown at;
  - the tile advance with its wrap test, and the tile after `k` advances;
  - `Steps`, the number of iterations the advance loop makes for a given accumulated time;
  - `Spent`, the time those iterations take off.
- `Animation` (`texture_animator.dfy`) holds two classes:
  - `Texture` has the `offset` and `repeat` pairs that the animator writes;
  - `TextureAnimator` has the source's fields, its constructor, `UpdatePosition` and `Update`.
  - `Update` keeps the source's `while` loop. It is proved against `Steps`, `Spent` and `TileAfter`.
- `Bounce` (`bounce.dfy`) holds the per-entity motion as a value:
  - `BounceStep` has the two independent strict flip tests on the pre-move x, the spin and the move;
  - `Placement` is the random starting position, using JavaScript's truncating `%`;
  - `InBounds` is the bounds invariant, proved to hold for any number of steps.
- `Scene` (`scene.dfy`) holds two classes:
  - `Entity` is a rectangle or a bunny. It has the transform fields that `update` mutates in place. Its constructors register the entity with the application, as the source's `Entity` constructor does.
  - `App` holds the `entities` sequence, `Register` and `Tick`. `Tick` is the body of the update loop and runs `Update` on each entity in index order.
  - The module also holds the bunny's starting-tile computation, both as written and corrected. See Findings.

Numbers are `real` for times, coordinates and offsets; tile counts and indices are `nat`. `Math.random()` becomes a caller-supplied argument in [0, 1).

Two consequences of the animator's strict `>` loop test are worth stating:

- From rest, `numberOfTiles × tileDisplayDuration` of elapsed time pays for only `numberOfTiles − 1` advances and leaves one whole duration over (`SpriteSheet.FullCycleTimeLeavesOneTileShort`). A round trip back to the starting tile takes `numberOfTiles` advances (`SpriteSheet.FullCycle`).
- The loop leaves `currentDisplayTime <= tileDisplayDuration`, not `<`.

## Model

| member | source | states |
|---|---|---|
| `SpriteSheet.Column` | src/index.ts:96 | the column of a tile is below `tilesHorizontal` |
| `SpriteSheet.Row` | src/index.ts:98 | `row * tilesHorizontal + column == tile`, and the row is the floor of the division |
| `SpriteSheet.RowInGrid` | src/index.ts:98 | a tile inside the `tilesHorizontal × tilesVertical` grid has a row below `tilesVertical` |
| `SpriteSheet.TileOffset` | src/index.ts:95-100 | the published offset has x in [0, 1) and y ≥ 0, with y < 1 when the tile is inside the grid |
| `SpriteSheet.TileOffsetScales` | src/index.ts:96-99 | offset.x × tilesHorizontal is the column and offset.y × tilesVertical is the row |
| `SpriteSheet.TileOffsetInjective` | src/index.ts:95-100 | two tiles shown at the same offset are the same tile |
| `SpriteSheet.OffsetExamples` | src/index.ts:95-100 | tile 3 of a 5×1 sheet is at (0.6, 0) and of a 1×5 sheet at (0, 0.6) |
| `SpriteSheet.NextTile` | src/index.ts:106-108 | an advance keeps an in-range tile in range; an out-of-range tile just grows by one |
| `SpriteSheet.NextTileIsSuccMod` | src/index.ts:106-108 | inside the range one advance is `(tile + 1) % numberOfTiles` |
| `SpriteSheet.TileAfterStaysInRange` | src/index.ts:104-110 | any number of advances from a tile in range stays in range |
| `SpriteSheet.TileAfterInRange` | src/index.ts:104-110 | `k` advances from a tile in range give `(tile + k) % numberOfTiles` |
| `SpriteSheet.FullCycle` | src/index.ts:104-110 | `numberOfTiles` advances return to the starting tile |
| `SpriteSheet.OutOfRangeNeverWraps` | src/index.ts:107-108 | from a tile ≥ `numberOfTiles` the wrap test never fires: `k` advances give `tile + k` |
| `SpriteSheet.SpentIsProduct` | src/index.ts:105 | the time taken off by `k` iterations is `k × tileDisplayDuration` |
| `SpriteSheet.Steps` | src/index.ts:104-105 | the loop runs zero times exactly when the time does not exceed the duration |
| `SpriteSheet.StepsRemainder` | src/index.ts:104-105 | after `Steps` iterations the remainder is at most one duration, and before the last one it was more |
| `SpriteSheet.StepsUnique` | src/index.ts:104-105 | those two conditions determine the iteration count uniquely |
| `SpriteSheet.NoProgressWithoutPositiveDuration` | src/index.ts:104-105 | with a duration ≤ 0 the guard still holds after any number of iterations, so the loop does not end |
| `SpriteSheet.FullCycleTimeLeavesOneTileShort` | src/index.ts:103-105 | `numberOfTiles` durations from rest pay for `numberOfTiles − 1` advances and leave one duration over |
| `Animation.Texture.constructor` | src/index.ts:124 | a freshly loaded texture has offset (0, 0) and repeat (1, 1) |
| `Animation.TextureAnimator.constructor` | src/index.ts:72-93 | display time 0, fields recorded, repeat = (1/tilesHorizontal, 1/tilesVertical), offset already that of the starting tile; the starting tile is not checked |
| `Animation.TextureAnimator.UpdatePosition` | src/index.ts:95-100 | the texture offset becomes `TileOffset(currentTile)`, and repeat is unchanged |
| `Animation.TextureAnimator.Update` | src/index.ts:102-111 | with k = `Steps(old time + milliSec)`: `old time + milliSec == new time + Spent(k)`; new tile = `TileAfter(old tile, k)`; offset is the new tile's if k > 0, else unchanged; new time ≤ duration; an in-range tile stays in range; `update(0)` with time ≤ duration changes nothing; repeat is untouched |
| `Animation.AnimatorExample` | src/index.ts:138 | the bunny sheet (1, 5, 5, 10 ms) from tile 2, advanced by 25 ms, shows tile 4 with 5 ms left at offset (0, 0.8) |
| `Bounce.BounceStep` | src/index.ts:48-58 | delta flips exactly when x > 60 or x < −60 (at most once, magnitude kept); then x' = x + delta'; rotation.z grows by 0.01; y is unchanged |
| `Bounce.JsRem` | src/index.ts:44-45 | JavaScript's `%`: `a − r` is a whole multiple of `m`, and `r` lies in [0, m) for a non-negative dividend and in (−m, 0] for a negative one |
| `Bounce.JsRemUnique` | src/index.ts:44-45 | those conditions determine the remainder: any `r` meeting them is `JsRem(a, m)` |
| `Bounce.JsRemExamples` | src/index.ts:44-45 | `-7 % 5` is −2 (the dividend's sign, not the Euclidean 3), `7 % 5` is 2 and `4.5 % 5` is 4.5 |
| `Bounce.Placement` | src/index.ts:44-45 | y ∈ [−30, 30), x ∈ [−60, 60), delta = 0.2 and rotation 0 |
| `Bounce.PlacementInBounds` | src/index.ts:139-140 | every placement satisfies the bounds invariant |
| `Bounce.BounceStepKeepsBounds` | src/index.ts:148-155 | one step keeps the invariant: speed ±0.2, x within [−60.2, 60.2], and past a bound it is still heading out |
| `Bounce.BouncesKeepBounds` | src/index.ts:148-155 | any number of steps from the invariant keeps it and keeps x in [−60.2, 60.2] |
| `Bounce.BouncesKeepLane` | src/index.ts:148-155 | after `k` steps y is unchanged, `\|delta\|` is unchanged, and rotation.z has grown by `k × 0.01` |
| `Bounce.ReflectionExamples` | src/index.ts:148-155 | x = 61 with delta 0.2 goes to delta −0.2 and x 60.8; x = −61 with delta −0.2 goes to delta 0.2 and x −60.8 |
| `Scene.Entity.Rectangle` | src/index.ts:36-46 | the new entity is appended to the registry and placed by `Placement`; it has no animator |
| `Scene.Entity.Bunny` | src/index.ts:120-141 | the new entity is appended and placed; its fresh animator has the 1×5 sheet, 5 tiles, 10 ms, the given starting tile, that tile's offset and a repeat of (1, 0.2) |
| `Scene.Entity.Update` | src/index.ts:144-157 | the entity's state becomes `BounceStep` of its old state; y and the animator are untouched |
| `Scene.App.constructor` | src/index.ts:182 | the registry starts empty |
| `Scene.App.Register` | src/index.ts:204-207 | exactly one entity is appended at the end and earlier entries are unchanged; the registry stays duplicate-free exactly when the entity was not already present |
| `Scene.App.Tick` | src/index.ts:247-250 | every registered entity's state becomes `BounceStep` of its old state (for distinct entities the visiting order is not observable, so this per-entity equation is the whole effect); the registry is unchanged; the bounds invariant is kept |
| `Scene.RegistryExample` | src/index.ts:247-250 | three rectangles registered at x = −60, 0 and 59 are at −59.8, 0.2 and 59.2 after one tick |
| `Scene.JsRound` | src/index.ts:280 | `Math.round` gives the integer within one half of `v`, halves rounded up: `r − 0.5 <= v < r + 0.5` |
| `Scene.BunnyTileAsWritten` | src/index.ts:280 | the starting tile as written lies in 0..5, so it can reach 5 |
| `Scene.BunnyTileAsWrittenOverflows` | src/index.ts:280 | the draw 0.45 gives tile 5; from there `k` advances give `5 + k`, so the index never returns into 0..4 and the offset y is ≥ 1 and grows without bound |
| `Scene.BunnyTile` | src/index.ts:280 | the corrected starting tile lies in 0..4 |
| `Scene.Populate` | src/index.ts:279-281 | the start-up loop as written: one fresh bunny per draw is appended, in draw order; each is placed by its own y and x draws; its fresh animator has the full state `new Bunny` gives it (1×5 sheet, 5 tiles, 10 ms, display time 0, repeat (1, 0.2)) on `BunnyTileAsWritten` of its tile draw, at that tile's offset, and is in range exactly when that tile is below 5; the registry stays duplicate-free |
| `Scene.PopulateCorrected` | src/index.ts:279-281 | the same loop with the corrected tile: each animator has that same full state on `BunnyTile` of its draw, so it is on one of the five tiles |
| `Scene.PopulateExample` | src/index.ts:279-281 | the draw 0.45 starts a bunny on tile 5 as written and on tile 4 corrected; the corrected animator, advanced by 25 ms, is on tile 1 |

## Left out

- Scene graph, camera, renderer, stats overlay, helpers and window sizing (src/index.ts:160-242, 257-268) are calls into three.js and the DOM. They are not modelled.
- The `requestAnimationFrame` rescheduling (src/index.ts:251, 262) is left out. The model gives one tick of the update loop; the host decides how often to run it.
- For textures, loading, materials, sprite scale and `wrapS`/`wrapT` (src/index.ts:81, 123-133) are left out. `Texture` has only the `offset` and `repeat` that the animator writes.
- In `register`, `scene.add` (src/index.ts:206) is left out. A rectangle's width, height and colour only feed the mesh, so the model drops them.
- `Math.random()` is a caller-supplied number in [0, 1). The 3000 draws of the start-up loop are the `draws` sequence of `Scene.Populate`, whose length is the caller's choice.
- Numbers are Dafny `real`, not IEEE-754 doubles. So 0.2, 0.01 and the offset divisions are exact. The rounding drift of repeated floating-point additions is not modelled.
- The base `Entity.update` (src/index.ts:28-29) is an empty method. Every entity the program creates is a Rectangle or a Bunny, so the model has only those two kinds. They are one Dafny class: the source's inheritance becomes an optional `annie` field.
- The commented-out `annie.update` call in `Bunny.update` (src/index.ts:145-146) is not wired in. `TextureAnimator.Update` is a standalone operation, and `Entity.Update` leaves the animator untouched.
- `Animation.TextureAnimator.Update` requires a positive duration. Without one the source's loop never ends once the time exceeds the duration; `SpriteSheet.NoProgressWithoutPositiveDuration` proves this.
- `Animation.TextureAnimator.constructor` requires at least one column and one row. With zero, JavaScript's offset division gives Infinity or NaN, which reals cannot represent.
- `Animation.TextureAnimator.Update` states time conservation with `Spent(k)` rather than `k × tileDisplayDuration`. They are equal by `SpriteSheet.SpentIsProduct`.
- `Scene.App.Tick` is stated only for a registry with no entity registered twice (`Distinct`). With a duplicate, the source would update that entity twice in one tick. The constructors always register a new object, so `Distinct` holds in the program.
- The TextureAnimator's geometry fields are `const`. The source declares them as ordinary fields but never writes them after construction.

## Findings

| source | as written | input that shows it | evidently intended | confidence | as-written member | corrected member |
|---|---|---|---|---|---|---|
| src/index.ts:280 | the bunny's starting tile is `Math.round(Math.random() * 10 % 5)`, which can be 5; `TextureAnimator` does not check it, and its wrap test `== numberOfTiles` then never fires | `Math.random()` = 0.45: 4.5 rounds to 5; later advances give 6, 7, …, so the index never returns into 0..4 and the offset y grows without bound (texture wrapping shows the rows again, tile mod 5) | a starting tile in 0..4, for example `Math.floor(Math.random() * 10 % 5)`, as `Scene.PopulateCorrected` uses | high (not executed) | `Scene.BunnyTileAsWrittenOverflows` | `Scene.BunnyTile` |
