/**
 * Tile placement (`generateTile`): a random walk of the tile x clamped to
 * the screen. The float offset drawn from the generator is an input here.
 */
module TileGen {
  import opened Entities

  function Abs(v: real): real
  {
    if v < 0.0 then -v else v
  }

  /** std::max(0, std::min(SCREEN_WIDTH - TILE_WIDTH, v)). */
  function Clamp(v: real): (r: real)
    ensures 0.0 <= r <= MAX_TILE_X as real
    ensures 0.0 <= v <= MAX_TILE_X as real ==> r == v
    ensures v < 0.0 ==> r == 0.0
    ensures MAX_TILE_X as real < v ==> r == MAX_TILE_X as real
  {
    var upper := if MAX_TILE_X as real < v then MAX_TILE_X as real else v;
    if upper < 0.0 then 0.0 else upper
  }

  /** Clamping never moves a value further away from any point of the range. */
  lemma ClampNoFarther(v: real, u: real)
    requires 0.0 <= u <= MAX_TILE_X as real
    ensures Abs(Clamp(v) - u) <= Abs(v - u)
  {
  }

  /**
   * The next x of the walk from `lastX` with the drawn `offset`: the sum
   * clamped into range, and from a cursor in range never further than the
   * offset.
   */
  function NextTileX(lastX: real, offset: real): (r: real)
    ensures r == Clamp(lastX + offset)
    ensures 0.0 <= r <= MAX_TILE_X as real
    ensures 0.0 <= lastX <= MAX_TILE_X as real ==> Abs(r - lastX) <= Abs(offset)
  {
    if 0.0 <= lastX <= MAX_TILE_X as real then
      ClampNoFarther(lastX + offset, lastX);
      Clamp(lastX + offset)
    else Clamp(lastX + offset)
  }

  /** From an x inside the range, one walk step moves by at most |offset|, so at most 200. */
  lemma WalkStepBounded(lastX: real, offset: real)
    requires 0.0 <= lastX <= MAX_TILE_X as real
    requires -200.0 <= offset <= 200.0
    ensures Abs(NextTileX(lastX, offset) - lastX) <= 200.0
  {
  }

  /** The freshly generated tile: x truncated from newX, just above the screen. */
  function TileAt(newX: real): (t: Tile)
    requires 0.0 <= newX <= MAX_TILE_X as real
    ensures t.x as real <= newX < t.x as real + 1.0
    ensures 0 <= t.x <= MAX_TILE_X
    ensures t.y + t.height == 0
  {
    Tile(newX.Floor, -TILE_HEIGHT, TILE_WIDTH, TILE_HEIGHT, BLUE)
  }

  /** The shape every tile of the game has. */
  predicate WellFormedTile(t: Tile)
  {
    && 0 <= t.x <= MAX_TILE_X
    && t.width == TILE_WIDTH
    && t.height == TILE_HEIGHT
    && t.color == BLUE
  }
}
