/**
 * The frame loop of `main` (everything but input polling and drawing): the
 * game state, one frame as a function of it, and the class whose `Step`
 * method performs the frame update in place.
 */
module Frame {
  import opened Entities
  import opened Lcg
  import opened TileGen
  import opened Collision
  import opened Motion
  import opened Track

  /**
   * What one frame reads from the platform: the arrow keys held, the space
   * key pressed, whether the spawn timer reached SPAWN_INTERVAL, and the
   * offset in [-200, 200] the generator's float output maps to.
   */
  datatype Input = Input(right: bool, left: bool, jump: bool, spawn: bool, offset: real)

  /** The state `main` keeps across frames (the spawn timer aside). */
  datatype World = World(player: Player, tiles: seq<Tile>, seed: uint32, lastTileX: real)

  /** The state before the first frame. */
  const INITIAL_WORLD: World :=
    World(INITIAL_PLAYER, [], INITIAL_SEED, SCREEN_WIDTH as real / 2.0)

  /**
   * When the timer fires, exactly one generated tile is appended at the end,
   * the generator is drawn once and the walk cursor moves; otherwise nothing
   * changes. The player is never touched.
   */
  function Spawned(w: World, input: Input): (r: World)
    ensures !input.spawn ==> r == w
    ensures r.player == w.player
    ensures input.spawn ==>
      && |r.tiles| == |w.tiles| + 1
      && r.tiles[..|w.tiles|] == w.tiles
      && r.tiles[|w.tiles|].x as real <= r.lastTileX < r.tiles[|w.tiles|].x as real + 1.0
      && r.tiles[|w.tiles|].y == -TILE_HEIGHT
      && WellFormedTile(r.tiles[|w.tiles|])
      && 0.0 <= r.lastTileX <= MAX_TILE_X as real
      && r.lastTileX == NextTileX(w.lastTileX, input.offset)
      && r.tiles[|w.tiles|] == TileAt(r.lastTileX)
      && r.seed == Next(w.seed)
  {
    if !input.spawn then w
    else
      var x := NextTileX(w.lastTileX, input.offset);
      w.(tiles := w.tiles + [TileAt(x)], seed := Next(w.seed), lastTileX := x)
  }

  /**
   * One frame, in the order of the source's loop body. It draws from the
   * generator once if it spawns a tile and not at all otherwise, leaves only
   * on-screen tiles, and moves the player sideways by the held keys alone.
   */
  function StepWorld(w: World, input: Input): (r: World)
    ensures r.seed == if input.spawn then Next(w.seed) else w.seed
    ensures forall k :: 0 <= k < |r.tiles| ==> r.tiles[k].y <= SCREEN_HEIGHT
    ensures r.player.x == Moved(w.player, input.right, input.left).x
  {
    var w1 := Spawned(w, input);
    var p := Carried(Fallen(Jumped(Moved(w1.player, input.right, input.left), input.jump), w1.tiles), w1.tiles);
    var moved := Advanced(w1.tiles);
    w1.(player := p.(currentTile := Remap(moved, p.currentTile)), tiles := Kept(moved))
  }

  /** The state after running the given frames in order. */
  function RunWorld(w: World, frames: seq<Input>): World
  {
    if frames == [] then w
    else StepWorld(RunWorld(w, frames[..|frames| - 1]), frames[|frames| - 1])
  }

  /** How many of the frames spawn a tile. */
  function SpawnCount(frames: seq<Input>): nat
  {
    if frames == [] then 0
    else SpawnCount(frames[..|frames| - 1]) + (if frames[|frames| - 1].spawn then 1 else 0)
  }

  /**
   * What holds of the track between frames: every tile has the generated
   * shape and its y satisfies top <= y <= SCREEN_HEIGHT; the walk cursor is
   * inside the range of tile x-positions.
   */
  ghost predicate TrackInv(tiles: seq<Tile>, lastTileX: real, top: int)
  {
    && (forall t :: t in tiles ==> WellFormedTile(t) && top <= t.y <= SCREEN_HEIGHT)
    && 0.0 <= lastTileX <= MAX_TILE_X as real
  }

  /**
   * What holds of the player: it keeps its radius, rests (zero velocity)
   * whenever it is not jumping, and a tile index it holds names one of the
   * `count` tiles and comes with isOnTile.
   */
  ghost predicate PlayerInv(p: Player, count: nat)
  {
    && p.radius == PLAYER_RADIUS
    && (!p.isJumping ==> p.velocityHalves == 0)
    && (p.currentTile.Some? ==> p.currentTile.value < count && p.isOnTile)
  }

  /**
   * Riding a platform: a player that holds a tile index and is not jumping
   * sits exactly on top of that tile.
   */
  ghost predicate Riding(p: Player, tiles: seq<Tile>)
  {
    p.currentTile.Some? && !p.isJumping && p.currentTile.value < |tiles| ==>
      p.y == tiles[p.currentTile.value].y - p.radius
  }

  /** The invariant between frames; tiles have scrolled at least once since they spawned. */
  ghost predicate Inv(w: World)
  {
    && TrackInv(w.tiles, w.lastTileX, -TILE_HEIGHT + TILE_SPEED)
    && PlayerInv(w.player, |w.tiles|)
    && Riding(w.player, w.tiles)
  }

  lemma InitialInv()
    ensures Inv(INITIAL_WORLD)
  {
  }

  /** A spawn keeps the tiles well formed; the new one starts at -TILE_HEIGHT. */
  lemma SpawnedInv(w: World, input: Input)
    requires Inv(w)
    ensures TrackInv(Spawned(w, input).tiles, Spawned(w, input).lastTileX, -TILE_HEIGHT)
    ensures PlayerInv(Spawned(w, input).player, |Spawned(w, input).tiles|)
  {
  }

  /** The player update keeps the player invariant for the same track. */
  lemma PlayerStepInv(p: Player, input: Input, tiles: seq<Tile>)
    requires PlayerInv(p, |tiles|)
    ensures PlayerInv(Carried(Fallen(Jumped(Moved(p, input.right, input.left), input.jump), tiles), tiles), |tiles|)
  {
  }

  /** Advancing and pruning keeps the track invariant and the remapped index in range. */
  lemma TrackStepInv(tiles: seq<Tile>, lastTileX: real, p: Player)
    requires TrackInv(tiles, lastTileX, -TILE_HEIGHT)
    requires PlayerInv(p, |tiles|)
    ensures TrackInv(Kept(Advanced(tiles)), lastTileX, -TILE_HEIGHT + TILE_SPEED)
    ensures PlayerInv(p.(currentTile := Remap(Advanced(tiles), p.currentTile)), |Kept(Advanced(tiles))|)
  {
    var moved := Advanced(tiles);
    forall t | t in Kept(moved)
      ensures WellFormedTile(t) && -TILE_HEIGHT + TILE_SPEED <= t.y <= SCREEN_HEIGHT
    {
      KeptMembers(moved, t);
      var i :| 0 <= i < |moved| && moved[i] == t;
      assert tiles[i] in tiles;
    }
  }

  /** One frame keeps the invariant, whatever the input. */
  lemma StepPreservesInv(w: World, input: Input)
    requires Inv(w)
    ensures Inv(StepWorld(w, input))
  {
    var w1 := Spawned(w, input);
    SpawnedInv(w, input);
    var p := Carried(Fallen(Jumped(Moved(w1.player, input.right, input.left), input.jump), w1.tiles), w1.tiles);
    PlayerStepInv(w1.player, input, w1.tiles);
    TrackStepInv(w1.tiles, w1.lastTileX, p);
    RidingStep(w, input);
  }

  /** Spawning only appends, so the player's tile keeps its index. */
  lemma RidingSpawned(w: World, input: Input)
    requires Riding(w.player, w.tiles) && PlayerInv(w.player, |w.tiles|)
    ensures Riding(Spawned(w, input).player, Spawned(w, input).tiles)
  {
    var w1 := Spawned(w, input);
    assert forall k :: 0 <= k < |w.tiles| ==> w1.tiles[k] == w.tiles[k];
  }

  /** Moving sideways and jumping leave y alone; landing puts the player on top. */
  lemma RidingPlayerUpdate(p: Player, input: Input, tiles: seq<Tile>)
    requires Riding(p, tiles)
    ensures Riding(Fallen(Jumped(Moved(p, input.right, input.left), input.jump), tiles), tiles)
  {
    var p2 := Jumped(Moved(p, input.right, input.left), input.jump);
    assert Riding(p2, tiles);
  }

  /** The player and its tile move down by the same TILE_SPEED. */
  lemma RidingAdvanced(p: Player, tiles: seq<Tile>)
    requires Riding(p, tiles) && PlayerInv(p, |tiles|)
    ensures Riding(Carried(p, tiles), Advanced(tiles))
  {
  }

  /** The remapped index names the same tile after pruning. */
  lemma RidingPruned(p: Player, tiles: seq<Tile>)
    requires Riding(p, tiles)
    ensures Riding(p.(currentTile := Remap(tiles, p.currentTile)), Kept(tiles))
  {
  }

  /**
   * A frame keeps a standing player on its tile: spawning leaves old indices
   * alone, landing puts the player on top, player and tile then move down
   * together, and the remapped index names the same tile after pruning.
   */
  lemma RidingStep(w: World, input: Input)
    requires Inv(w)
    ensures Riding(StepWorld(w, input).player, StepWorld(w, input).tiles)
  {
    var w1 := Spawned(w, input);
    SpawnedInv(w, input);
    RidingSpawned(w, input);
    var p3 := Fallen(Jumped(Moved(w1.player, input.right, input.left), input.jump), w1.tiles);
    RidingPlayerUpdate(w1.player, input, w1.tiles);
    PlayerStepInv(w1.player, input, w1.tiles);
    assert PlayerInv(p3, |w1.tiles|);
    RidingAdvanced(p3, w1.tiles);
    var p4 := Carried(p3, w1.tiles);
    RidingPruned(p4, Advanced(w1.tiles));
  }

  /** Every state reached from a state satisfying the invariant satisfies it. */
  lemma {:induction false} RunPreservesInv(w: World, frames: seq<Input>)
    requires Inv(w)
    ensures Inv(RunWorld(w, frames))
  {
    if frames != [] {
      RunPreservesInv(w, frames[..|frames| - 1]);
      StepPreservesInv(RunWorld(w, frames[..|frames| - 1]), frames[|frames| - 1]);
    }
  }

  /**
   * The generator is drawn exactly once per spawned tile, so the seed after
   * any run is fixed by the starting seed and the number of spawns.
   */
  lemma {:induction false} RunSeed(w: World, frames: seq<Input>)
    ensures RunWorld(w, frames).seed == SeedAfter(w.seed, SpawnCount(frames))
  {
    if frames != [] {
      var init, last := frames[..|frames| - 1], frames[|frames| - 1];
      var prev, k := RunWorld(w, init).seed, SpawnCount(init);
      assert prev == SeedAfter(w.seed, k) by { RunSeed(w, init); }
      assert RunWorld(w, frames).seed == if last.spawn then Next(prev) else prev by {
        assert RunWorld(w, frames) == StepWorld(RunWorld(w, init), last);
      }
      assert SpawnCount(frames) == k + (if last.spawn then 1 else 0);
      assert SeedAfter(w.seed, k + 1) == Next(SeedAfter(w.seed, k));
    }
  }

  /** Tiles are only ever generated inside [0, SCREEN_WIDTH - TILE_WIDTH]. */
  lemma TilesStayInRange(frames: seq<Input>, t: Tile)
    requires t in RunWorld(INITIAL_WORLD, frames).tiles
    ensures 0 <= t.x <= MAX_TILE_X
  {
    InitialInv();
    RunPreservesInv(INITIAL_WORLD, frames);
  }

  /** The mutable state of `main` and the frame update. */
  class Game {
    var player: Player
    var tiles: seq<Tile>
    var seed: uint32
    var lastTileX: real

    function State(): World
      reads this
    {
      World(player, tiles, seed, lastTileX)
    }

    ghost predicate Valid()
      reads this
    {
      Inv(State())
    }

    constructor ()
      ensures State() == INITIAL_WORLD
      ensures Valid()
    {
      player := INITIAL_PLAYER;
      tiles := [];
      seed := INITIAL_SEED;
      lastTileX := SCREEN_WIDTH as real / 2.0;
    }

    /** `predictableRandom`: advances the seed in place (its float output is not modelled). */
    method PredictableRandom()
      modifies this`seed
      ensures seed == Next(old(seed))
    {
      seed := ((seed as int * MULTIPLIER + INCREMENT) % MODULUS) as uint32;
    }

    /** `generateTile`: draws once, walks and clamps `lastTileX`, returns the new tile. */
    method GenerateTile(offset: real) returns (t: Tile)
      modifies this`seed, this`lastTileX
      ensures seed == Next(old(seed))
      ensures lastTileX == Clamp(old(lastTileX) + offset)
      ensures 0.0 <= lastTileX <= MAX_TILE_X as real
      ensures t == TileAt(lastTileX)
      ensures t.x as real <= lastTileX < t.x as real + 1.0
      ensures t.y == -TILE_HEIGHT && t.width == TILE_WIDTH && t.height == TILE_HEIGHT && t.color == BLUE
    {
      PredictableRandom();
      var newX := lastTileX + offset;
      newX := if MAX_TILE_X as real < newX then MAX_TILE_X as real else newX;
      newX := if newX < 0.0 then 0.0 else newX;
      lastTileX := newX;
      t := Tile(newX.Floor, -TILE_HEIGHT, TILE_WIDTH, TILE_HEIGHT, BLUE);
    }

    /** The spawn branch: exactly one new tile, appended at the end. */
    method SpawnTile(offset: real)
      modifies this`seed, this`lastTileX, this`tiles
      ensures 0.0 <= lastTileX <= MAX_TILE_X as real
      ensures tiles == old(tiles) + [TileAt(lastTileX)]
      ensures State() == Spawned(old(State()), Input(false, false, false, true, offset))
    {
      var t := GenerateTile(offset);
      tiles := tiles + [t];
    }

    /** Horizontal movement from the held arrow keys. */
    method MoveHorizontally(right: bool, left: bool)
      modifies this`player
      ensures player == Moved(old(player), right, left)
      ensures player.x == old(player.x) + (if right then PLAYER_SPEED else 0) - (if left then PLAYER_SPEED else 0)
    {
      if right {
        player := player.(x := player.x + PLAYER_SPEED);
      }
      if left {
        player := player.(x := player.x - PLAYER_SPEED);
      }
    }

    /** Jump start from the space key. */
    method StartJump(pressed: bool)
      modifies this`player
      ensures player == Jumped(old(player), pressed)
      ensures player.isJumping <==> old(player).isJumping || pressed
      ensures pressed && !old(player).isJumping ==> player.velocityHalves == JUMP_POWER_HALVES
      ensures old(player).isJumping || !pressed ==> player == old(player)
    {
      if pressed && !player.isJumping {
        player := player.(velocityHalves := JUMP_POWER_HALVES, isJumping := true);
      }
    }

    /**
     * Gravity, vertical integration, the landing loop that stops at the first
     * tile hit while moving down, and the bottom-of-screen fallback.
     */
    method ApplyGravity()
      modifies this`player
      ensures player == Fallen(old(player), tiles)
    {
      if player.isJumping {
        player := player.(velocityHalves := player.velocityHalves + GRAVITY_HALVES);
        player := player.(y := player.y + TruncHalves(player.velocityHalves));
        var landed := false;
        var i := 0;
        while i < |tiles|
          invariant 0 <= i <= |tiles|
          invariant !landed && player == Integrated(old(player))
          invariant forall j :: 0 <= j < i ==> !(Collides(player, tiles[j]) && player.velocityHalves > 0)
        {
          if Collides(player, tiles[i]) && player.velocityHalves > 0 {
            player := player.(y := tiles[i].y - player.radius, isJumping := false,
                              velocityHalves := 0, isOnTile := true, currentTile := Some(i));
            landed := true;
            break;
          }
          i := i + 1;
        }
        if !landed && player.y > SCREEN_HEIGHT {
          player := player.(y := SCREEN_HEIGHT, isJumping := false, velocityHalves := 0,
                            isOnTile := false, currentTile := None);
        }
      }
    }

    /** Every tile moves down by TILE_SPEED; the player rides the tile it stands on. */
    method AdvanceTiles()
      modifies this`tiles, this`player
      ensures tiles == Advanced(old(tiles))
      ensures player == Carried(old(player), old(tiles))
    {
      var i := 0;
      while i < |tiles|
        invariant 0 <= i <= |tiles| == |old(tiles)|
        invariant forall j :: 0 <= j < i ==> tiles[j] == Advanced(old(tiles))[j]
        invariant forall j :: i <= j < |tiles| ==> tiles[j] == old(tiles)[j]
        invariant player == if old(player).isOnTile && old(player).currentTile.Some?
                                 && old(player).currentTile.value < i
                            then old(player).(y := old(player).y + TILE_SPEED)
                            else old(player)
      {
        tiles := tiles[i := tiles[i].(y := tiles[i].y + TILE_SPEED)];
        if player.isOnTile && player.currentTile == Some(i) {
          player := player.(y := player.y + TILE_SPEED);
        }
        i := i + 1;
      }
    }

    /**
     * `remove_if` + `erase` of the tiles below the screen, compacting the
     * survivors to the front in order; the player's tile index is then
     * remapped (cleared if its tile was removed).
     */
    method RemoveOffscreenTiles()
      modifies this`tiles, this`player
      ensures tiles == Kept(old(tiles))
      ensures player == old(player).(currentTile := Remap(old(tiles), old(player).currentTile))
    {
      var original := tiles;
      var w := 0;
      var i := 0;
      while i < |tiles|
        invariant original == old(tiles)
        invariant 0 <= w <= i <= |tiles| == |original|
        invariant w == |Kept(original[..i])|
        invariant tiles[..w] == Kept(original[..i])
        invariant forall j :: i <= j < |tiles| ==> tiles[j] == original[j]
        invariant player == old(player)
      {
        assert original[..i + 1][..i] == original[..i];
        if !(tiles[i].y > SCREEN_HEIGHT) {
          tiles := tiles[w := tiles[i]];
          w := w + 1;
        }
        i := i + 1;
      }
      assert original[..i] == original;
      tiles := tiles[..w];
      player := player.(currentTile := Remap(original, player.currentTile));
    }

    /** The player's part of a frame: arrow keys, jump start and gravity. */
    method UpdatePlayer(input: Input)
      modifies this`player
      ensures player == Fallen(Jumped(Moved(old(player), input.right, input.left), input.jump), tiles)
    {
      MoveHorizontally(input.right, input.left);
      StartJump(input.jump);
      ApplyGravity();
    }

    /** The tiles' part of a frame: scrolling with the rider, then pruning. */
    method UpdateTiles()
      modifies this`tiles, this`player
      ensures tiles == Kept(Advanced(old(tiles)))
      ensures player == Carried(old(player), old(tiles)).(currentTile :=
                          Remap(Advanced(old(tiles)), Carried(old(player), old(tiles)).currentTile))
    {
      AdvanceTiles();
      RemoveOffscreenTiles();
    }

    /** One frame of the game loop, drawing aside. */
    method Step(input: Input)
      requires Valid()
      modifies this
      ensures State() == StepWorld(old(State()), input)
      ensures Valid()
    {
      ghost var w := State();
      if input.spawn {
        SpawnTile(input.offset);
      }
      assert State() == Spawned(w, input);
      UpdatePlayer(input);
      UpdateTiles();
      assert State() == StepWorld(w, input);
      assert Valid() by { StepPreservesInv(w, input); }
    }

    /** The `while (!WindowShouldClose())` loop over a finite run of frames. */
    method Run(frames: seq<Input>)
      requires Valid()
      modifies this
      ensures State() == RunWorld(old(State()), frames)
      ensures Valid()
    {
      var n := 0;
      while n < |frames|
        invariant 0 <= n <= |frames|
        invariant State() == RunWorld(old(State()), frames[..n])
        invariant Valid()
      {
        assert frames[..n + 1][..n] == frames[..n];
        Step(frames[n]);
        n := n + 1;
      }
      assert frames[..n] == frames;
    }
  }
}
