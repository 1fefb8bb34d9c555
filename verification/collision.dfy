/** The player/tile overlap test (`checkCollisionWithTile`) and first-match search. */
module Collision {
  import opened Entities

  /** (px, py) lies in the open box (x-r, x+r) x (y-r, y+r) around the player. */
  ghost predicate InPlayerBox(p: Player, px: real, py: real)
  {
    && ((p.x - p.radius) as real) < px < ((p.x + p.radius) as real)
    && ((p.y - p.radius) as real) < py < ((p.y + p.radius) as real)
  }

  /** (px, py) lies in the closed tile rectangle. */
  ghost predicate InTileRect(t: Tile, px: real, py: real)
  {
    && (t.x as real) <= px <= ((t.x + t.width) as real)
    && (t.y as real) <= py <= ((t.y + t.height) as real)
  }

  /** The two regions share a point of the plane. */
  ghost predicate BoxesMeet(p: Player, t: Tile)
  {
    exists px: real, py: real :: InPlayerBox(p, px, py) && InTileRect(t, px, py)
  }

  function Mid(a: int, b: int): real
  {
    (a + b) as real / 2.0
  }

  function Max(a: int, b: int): int
  {
    if a < b then b else a
  }

  function Min(a: int, b: int): int
  {
    if a < b then a else b
  }

  /**
   * Strict overlap of the player's bounding box with the tile rectangle.
   * For a real ball and a tile of non-negative size this is exactly the
   * open box (x-r, x+r) x (y-r, y+r) sharing a point with the rectangle;
   * the midpoint of the two overlaps is such a point.
   */
  function Collides(p: Player, t: Tile): (r: bool)
    ensures p.radius > 0 && t.width >= 0 && t.height >= 0 ==> (r <==> BoxesMeet(p, t))
  {
    var r :=
      && p.x + p.radius > t.x
      && p.x - p.radius < t.x + t.width
      && p.y + p.radius > t.y
      && p.y - p.radius < t.y + t.height;
    if r && p.radius > 0 && t.width >= 0 && t.height >= 0 then
      var px := Mid(Max(p.x - p.radius, t.x), Min(p.x + p.radius, t.x + t.width));
      var py := Mid(Max(p.y - p.radius, t.y), Min(p.y + p.radius, t.y + t.height));
      assert InPlayerBox(p, px, py) && InTileRect(t, px, py);
      r
    else r
  }

  /** Boxes that only touch along an edge do not collide. */
  lemma TouchingDoesNotCollide(p: Player, t: Tile)
    requires || p.x + p.radius == t.x || p.x - p.radius == t.x + t.width
             || p.y + p.radius == t.y || p.y - p.radius == t.y + t.height
    ensures !Collides(p, t)
  {
  }

  /** The first index at or after `from` whose tile collides with the player. */
  function FirstColliding(p: Player, tiles: seq<Tile>, from: nat): (r: Option<nat>)
    requires from <= |tiles|
    ensures r.Some? ==> from <= r.value < |tiles| && Collides(p, tiles[r.value])
    ensures r.Some? ==> forall j :: from <= j < r.value ==> !Collides(p, tiles[j])
    ensures r.None? ==> forall j :: from <= j < |tiles| ==> !Collides(p, tiles[j])
    decreases |tiles| - from
  {
    if from == |tiles| then None
    else if Collides(p, tiles[from]) then Some(from)
    else FirstColliding(p, tiles, from + 1)
  }
}
