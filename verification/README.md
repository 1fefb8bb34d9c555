# Predictable Tiles Game — a Dafny model of the frame update

`ray2.cpp` is a small raylib game. A ball-shaped player stands on blue
platform tiles. The tiles appear above the screen on a timer and scroll
down one pixel per frame. A seeded linear congruential generator drives a
clamped random walk that places each new tile, so the same seed always
gives the same level. The player moves sideways with the arrow keys and
jumps with space. Gravity acts only while a jump is in progress. The
player lands on the first tile in vector order that it hits while moving
down, then rides that tile down the screen. A player who falls past the
bottom edge is put back on it. Tiles below the screen are removed.

The model has one module per part of that loop:

- `Entities` — the constants, `Tile`, `Player`, `Option`. The float
  `velocityY` only ever holds multiples of 0.5, so it is stored exactly as
  an integer count of half-pixels (`velocityHalves`). The raw
  `Tile* currentTile` is an optional index into the tile vector.
- `Lcg` — `predictableRandom`'s seed update on a 32-bit unsigned integer.
  It is written as integer arithmetic modulo 2^32 and proved to be a
  bijection.
- `TileGen` — `generateTile`'s clamped walk and the tile it builds.
- `Collision` — `checkCollisionWithTile` and the first-match search that
  the landing loop performs.
- `Motion` — the player update: sideways move, jump start, gravity with
  truncation toward zero, landing, and the bottom-of-screen fallback.
- `Track` — scrolling every tile, carrying the player, and `remove_if` +
  `erase`, with the player's tile index remapped.
- `Frame` — the state of `main` (`World`), one frame as a function
  (`StepWorld`), the invariants it keeps, and the class `Game`. Its
  methods update the player, the tile sequence, the seed and the walk
  cursor in place, in the order of the loop body. Each method is proved
  equal to the functional specification.

Lifelines, hazards, a score, trails, a restart, horizontal clamping and
a gravity warm-up are not part of `ray2.cpp` and are not modelled. The player's
x is not clamped, gravity applies from the first jump, and falling past
the bottom resets the player onto the bottom edge.

## Model

| member | source | states |
|---|---|---|
| `Lcg.Next` | ray2.cpp:30-31 | the seed step `seed * 1664525 + 1013904223` with 32-bit wrap-around; `Prev` undoes it, so no two seeds have the same successor |
| `Lcg.NextPrev` | ray2.cpp:30-31 | every 32-bit seed is the successor of some seed, so the step is a bijection on 32-bit values |
| `Lcg.SeedAfterAdd` | ray2.cpp:30-31 | drawing m times and then n more times gives the seed after m + n draws |
| `Lcg.SeedAfterInjective` | ray2.cpp:30-31 | two different starting seeds never reach the same seed after the same number of draws |
| `Lcg.SeedAfter` | ray2.cpp:30-31 | the seed after n draws: no draw leaves the seed alone, one draw is a single `Next` step that `Prev` undoes; `SeedAfterAdd` composes counts and `SeedAfterInjective` shows distinct seeds stay distinct |
| `Lcg.FirstDrawFromInitialSeed` | ray2.cpp:67 | from the fixed seed 12345, the first draw yields seed 87628868 |
| `TileGen.Clamp` | ray2.cpp:39 | the clamped x lies in [0, SCREEN_WIDTH - TILE_WIDTH]; a value already in range is unchanged, a negative value becomes 0 and a value above SCREEN_WIDTH - TILE_WIDTH becomes SCREEN_WIDTH - TILE_WIDTH |
| `TileGen.ClampNoFarther` | ray2.cpp:39 | clamping never moves a value further from any point of the range |
| `TileGen.NextTileX` | ray2.cpp:36-41 | the new walk cursor is `Clamp(lastX + offset)`, so it always lies in [0, SCREEN_WIDTH - TILE_WIDTH]; from a cursor inside that range it moves by no more than the offset's magnitude |
| `TileGen.WalkStepBounded` | ray2.cpp:36-41 | from a cursor inside the range, one walk step with an offset in [-200, 200] moves the cursor by at most 200 (`NextTileX` gives the sharper bound of the offset's magnitude) |
| `TileGen.TileAt` | ray2.cpp:43-49 | the new tile's x is the truncation of the clamped x, so it lies in [0, SCREEN_WIDTH - TILE_WIDTH]; the tile sits just above the screen (y + height == 0) |
| `Collision.Collides` | ray2.cpp:54-59 | for a player of positive radius and a tile of non-negative size, the four strict integer comparisons hold exactly when the open box (x-r, x+r) x (y-r, y+r) shares a point with the tile rectangle |
| `Collision.TouchingDoesNotCollide` | ray2.cpp:54-59 | boxes that only touch along an edge do not collide |
| `Collision.FirstColliding` | ray2.cpp:116-126 | the result is the first tile index, in vector order, that collides; None means no tile collides |
| `Motion.Moved` | ray2.cpp:95-101 | x changes by +PLAYER_SPEED when right is held and by -PLAYER_SPEED when left is held (both cancel), without clamping; no other field changes |
| `Motion.TruncHalves` | ray2.cpp:112 | `static_cast<int>(velocityY)` on half-pixels: the result is v/2 rounded toward zero, for positive and negative v |
| `Motion.Landing` | ray2.cpp:117 | a landing can only be found while the velocity is downward (> 0) |
| `Motion.Jumped` | ray2.cpp:103-107 | afterwards the player is jumping exactly when it was already jumping or space was pressed; a new jump sets the velocity to JUMP_POWER; a jump in progress, or no key press, leaves the player unchanged; no other field changes |
| `Motion.Integrated` | ray2.cpp:111-112 | the velocity grows by GRAVITY; y moves in the direction of the new velocity by the velocity truncated toward zero; no other field changes |
| `Motion.Fallen` | ray2.cpp:109-136 | without a jump nothing changes; x and radius never change; a player still jumping afterwards has only been integrated; a player whose jump ended is at rest, either on a tile of the track with y = tile.y - radius (the assignments of lines 118-122, written as the helper `LandedOn`), or off any tile with y = SCREEN_HEIGHT (lines 130-134, the helper `AtBottom`) |
| `Motion.NoGravityWhenNotJumping` | ray2.cpp:110 | without a jump in progress, gravity, landing and the fallback change nothing |
| `Motion.LandsOnFirstCollidingTile` | ray2.cpp:115-126 | the first tile in vector order hit while moving down is landed on: y = tile.y - radius, velocity 0, not jumping, on a tile, currentTile = that tile, x unchanged |
| `Motion.NoLandingWhileRising` | ray2.cpp:110-135 | while the velocity after gravity is not downward, there is no landing and, from on or above the bottom edge, no fallback; y does not increase |
| `Motion.BottomFallback` | ray2.cpp:128-135 | with no landing and y > SCREEN_HEIGHT, the player is put at y = SCREEN_HEIGHT at rest, not jumping, off any tile, with no current tile; otherwise only the integration happens |
| `Track.Advanced` | ray2.cpp:139-141 | every tile's y grows by exactly TILE_SPEED; x, width, height and colour are unchanged; no tile is added or lost |
| `Track.Carried` | ray2.cpp:142-145 | the player moves down by TILE_SPEED exactly when it is on a tile and its index names a tile of the track; otherwise it stays; no other field changes |
| `Track.Kept` | ray2.cpp:149-153 | the pruned track is no longer than the original and every tile in it has y <= SCREEN_HEIGHT |
| `Track.KeptMembers` | ray2.cpp:149-153 | a tile survives the pruning exactly when it was in the track with y <= SCREEN_HEIGHT, the negation of the `remove_if` predicate of line 151, written as the helper predicate `OnScreen` |
| `Track.KeptAt` | ray2.cpp:149-153 | each surviving tile is found at its new index: the number of survivors before it |
| `Track.KeptOrder` | ray2.cpp:149-153 | survivors keep their relative order |
| `Track.KeptSource` | ray2.cpp:149-153 | every tile after the pruning is an on-screen tile of the original track at that new index, so nothing else is present |
| `Track.Remap` | ray2.cpp:143 | the player's tile index after pruning is cleared exactly when its tile was removed; otherwise it names the same tile at its new, never larger, index |
| `Track.ErasedSlotDrifts` | ray2.cpp:149-153 | as written, the pointer keeps its vector slot after `erase`. For two concrete tracks, that slot is then past the end, or it holds a different tile, while `Remap` still names the player's tile |
| `Frame.Spawned` | ray2.cpp:89-93 | without a spawn the state is unchanged; a spawn keeps the player and the existing tiles, appends the tile `TileAt` of the new walk cursor `NextTileX(lastTileX, offset)`: well formed, at y = -TILE_HEIGHT, x the truncated cursor; it keeps the cursor in range and advances the seed by one draw |
| `Frame.StepWorld` | ray2.cpp:85-153 | one frame advances the seed exactly when it spawns, leaves no tile below SCREEN_HEIGHT, and sets x only from the arrow keys |
| `Frame.InitialInv` | ray2.cpp:67-82 | the initial state of `main` satisfies the frame invariant |
| `Frame.SpawnedInv` | ray2.cpp:89-93 | a spawn appends a well-formed tile and keeps the walk cursor inside the range |
| `Frame.PlayerStepInv` | ray2.cpp:95-146 | the player update keeps the radius, zero velocity while not jumping, and a tile index only together with isOnTile |
| `Frame.TrackStepInv` | ray2.cpp:138-153 | after scrolling and pruning, every tile is well formed and lies between -TILE_HEIGHT + TILE_SPEED and SCREEN_HEIGHT; the remapped index stays in range |
| `Frame.StepPreservesInv` | ray2.cpp:85-153 | one frame keeps the whole invariant, for every input |
| `Frame.RidingSpawned` | ray2.cpp:92 | appending a tile leaves the player's tile at its index |
| `Frame.RidingPlayerUpdate` | ray2.cpp:95-136 | moving, jumping and landing keep a standing player exactly on top of its tile |
| `Frame.RidingAdvanced` | ray2.cpp:139-146 | the standing player and its tile move down by the same TILE_SPEED |
| `Frame.RidingPruned` | ray2.cpp:149-153 | after pruning and remapping, the standing player is still on top of the tile its index names |
| `Frame.RidingStep` | ray2.cpp:85-153 | over one frame, a player that holds a tile and is not jumping stays exactly on top of that tile |
| `Frame.RunPreservesInv` | ray2.cpp:85-153 | every state reached over any number of frames satisfies the invariant |
| `Frame.RunSeed` | ray2.cpp:66-93 | after any run the seed is the starting seed advanced once per spawned tile |
| `Frame.TilesStayInRange` | ray2.cpp:35-49 | every tile of every reachable state has x in [0, SCREEN_WIDTH - TILE_WIDTH] |
| `Frame.Game.constructor` | ray2.cpp:66-82 | the game starts in `INITIAL_WORLD`: seed 12345, walk cursor SCREEN_WIDTH / 2, no tiles and the player `INITIAL_PLAYER` of lines 74-82 (at (512, 500), radius 15, at rest, off any tile); it satisfies the invariant |
| `Frame.Game.PredictableRandom` | ray2.cpp:30-33 | the seed field is replaced in place by its successor |
| `Frame.Game.GenerateTile` | ray2.cpp:35-51 | draws once, sets the walk cursor to the clamped lastX + offset, and returns the tile built from it: truncated x in range, y = -TILE_HEIGHT, TILE_WIDTH x TILE_HEIGHT, BLUE |
| `Frame.Game.SpawnTile` | ray2.cpp:89-93 | exactly one generated tile is appended at the end of the track |
| `Frame.Game.MoveHorizontally` | ray2.cpp:95-101 | x changes by +PLAYER_SPEED for the right key and -PLAYER_SPEED for the left key, without clamping |
| `Frame.Game.StartJump` | ray2.cpp:103-107 | a jump starts only when space is pressed and no jump is in progress, setting velocity JUMP_POWER; otherwise the player is unchanged |
| `Frame.Game.ApplyGravity` | ray2.cpp:109-136 | the loop that breaks at the first landing tile yields the player of `Motion.Fallen` |
| `Frame.Game.AdvanceTiles` | ray2.cpp:138-146 | the in-place loop scrolls every tile and carries the player when it is on a tile that its index names |
| `Frame.Game.RemoveOffscreenTiles` | ray2.cpp:148-153 | compacting the survivors to the front and truncating leaves exactly `Kept` of the old track; the player's index is remapped |
| `Frame.Game.UpdatePlayer` | ray2.cpp:95-136 | the arrow keys, the jump start and gravity, run in place in the source's order, give the player of `Fallen(Jumped(Moved(...)))` |
| `Frame.Game.UpdateTiles` | ray2.cpp:138-153 | scrolling and pruning in place leave exactly `Kept(Advanced(...))` of the old track, with the carried player's index remapped |
| `Frame.Game.Step` | ray2.cpp:85-153 | one in-place frame update equals `StepWorld` of the old state and keeps the invariant |
| `Frame.Game.Run` | ray2.cpp:85-153 | a run of frames equals `RunWorld` of the old state, the function that applies `StepWorld` once per frame of the `while` loop at line 85, and keeps the invariant |

## Left out

- Window setup and teardown, `WindowShouldClose`, `SetTargetFPS` and all
  drawing (raylib calls) are not modelled. The loop runs over a given
  finite sequence of frames.
- The keyboard is an input per frame: right held, left held, and space
  pressed.
- `GetFrameTime` and the float `spawnTimer` compared against
  `SPAWN_INTERVAL` become one boolean per frame saying whether the timer
  fired. The timer's reset to 0 is therefore not represented.
- The float output of `predictableRandom` (`seed / (float)0xFFFFFFFF`,
  `fmodf`) and its mapping to an offset `(r * 2 - 1) * 200` are not
  modelled. The offset is an input; the walk lemmas take it in
  [-200, 200], the range that formula produces. The seed is still
  advanced once per draw.
- `lastTileX` and the offset are exact reals. Float rounding of the sum
  and of the clamp is not modelled. Truncation to the tile's int x is
  modelled.
- `velocityY` is exact in half-pixels. This matches the float while
  |velocityY| stays below 2^23. In play a fall ends at the bottom edge
  long before that; the model does not prove this bound.
- Pointer identity of `currentTile` is not modelled. The model remaps it
  by index after pruning: cleared if its tile was removed, otherwise
  shifted to the tile's new index. `isOnTile` is left unchanged by
  pruning, as in the source. The slot drift that `erase` causes is
  described under Findings.
- `push_back` reallocation is not modelled. When the vector grows past
  its capacity (with the usual doubling: at 1, 2, 4, 8, 16, ... tiles),
  `currentTile` keeps pointing into the freed storage and in general no
  longer equals the address of any tile, so the source stops carrying the
  player while the model keeps carrying it.
- The model's integers are unbounded; the source's `int` is 32 bits. The
  player's x is never clamped, so holding one arrow key for about 4.3e8
  frames would overflow `player.x += PLAYER_SPEED`, which is undefined
  behaviour in C++. The model does not capture that overflow.
- Tile colour is the constant raylib `BLUE`. No other colour is ever
  produced.

## Findings

| source | as written | input that shows it | evidently intended | confidence | as-written member | corrected member |
|---|---|---|---|---|---|---|
| ray2.cpp:143-153 | after `remove_if`/`erase`, `player.currentTile` still points at the same vector slot. The surviving tiles have moved down into earlier slots, so that slot now holds a later tile or lies past the end | tiles `[y = 601, y = 100]` with the player standing on index 1: after pruning only one tile is left, and slot 1 is past the end, so the player stops riding its tile. With a third tile, slot 1 holds that other tile instead | the player keeps riding the tile it landed on until that tile itself is removed | not executed; high for the slot shift, which follows from how `erase` moves elements | `Track.ErasedSlotDrifts` (with `Track.SlotAfterErase`) | `Track.Remap`, used by `Frame.StepWorld`, with `Frame.RidingStep` proving the player stays on its tile |
