/**
 * The tile track after the player update: every tile scrolls down by
 * TILE_SPEED, the player rides the tile it stands on, and tiles below the
 * screen are removed (`remove_if` + `erase`).
 */
module Track {
  import opened Entities

  /** Every tile moved down by TILE_SPEED, nothing else about it changed. */
  function Advanced(tiles: seq<Tile>): (r: seq<Tile>)
    ensures |r| == |tiles|
    ensures forall i :: 0 <= i < |tiles| ==>
      && r[i].y == tiles[i].y + TILE_SPEED
      && r[i].x == tiles[i].x
      && r[i].width == tiles[i].width
      && r[i].height == tiles[i].height
      && r[i].color == tiles[i].color
  {
    seq(|tiles|, i requires 0 <= i < |tiles| => tiles[i].(y := tiles[i].y + TILE_SPEED))
  }

  /**
   * The player moved with the tile it stands on: y grows by TILE_SPEED
   * exactly when it is on a tile whose index names a tile of the track, and
   * nothing else about it changes.
   */
  function Carried(p: Player, tiles: seq<Tile>): (r: Player)
    ensures r == p.(y := r.y)
    ensures r.y == p.y || r.y == p.y + TILE_SPEED
    ensures r.y == p.y + TILE_SPEED <==>
      p.isOnTile && p.currentTile.Some? && p.currentTile.value < |tiles|
  {
    if p.isOnTile && p.currentTile.Some? && p.currentTile.value < |tiles|
    then p.(y := p.y + TILE_SPEED)
    else p
  }

  /** The tiles the pruning keeps: the negation of the `remove_if` predicate. */
  predicate OnScreen(t: Tile)
  {
    !(t.y > SCREEN_HEIGHT)
  }

  /** The on-screen tiles, in order (see the Kept* lemmas below). */
  function Kept(tiles: seq<Tile>): (r: seq<Tile>)
    ensures |r| <= |tiles|
    ensures forall k :: 0 <= k < |r| ==> OnScreen(r[k])
  {
    if tiles == [] then []
    else
      var last := tiles[|tiles| - 1];
      Kept(tiles[..|tiles| - 1]) + (if OnScreen(last) then [last] else [])
  }

  /** Where the tile at index i of `tiles` ends up after pruning. */
  function NewIndex(tiles: seq<Tile>, i: nat): nat
    requires i <= |tiles|
  {
    |Kept(tiles[..i])|
  }

  /** Pruning distributes over concatenation. */
  lemma {:induction false} KeptAppend(a: seq<Tile>, b: seq<Tile>)
    ensures Kept(a + b) == Kept(a) + Kept(b)
  {
    if b == [] {
      assert a + b == a;
    } else {
      var b' := b[..|b| - 1];
      assert (a + b)[..|a + b| - 1] == a + b';
      KeptAppend(a, b');
    }
  }

  lemma KeptSingle(t: Tile)
    ensures Kept([t]) == if OnScreen(t) then [t] else []
  {
    assert [t][..0] == [];
  }

  /** Exactly the on-screen tiles survive. */
  lemma {:induction false} KeptMembers(tiles: seq<Tile>, t: Tile)
    ensures t in Kept(tiles) <==> t in tiles && OnScreen(t)
  {
    if tiles != [] {
      var init := tiles[..|tiles| - 1];
      assert tiles == init + [tiles[|tiles| - 1]];
      KeptMembers(init, t);
    }
  }

  /** An on-screen tile is found at its new index after pruning. */
  lemma KeptAt(tiles: seq<Tile>, i: nat)
    requires i < |tiles| && OnScreen(tiles[i])
    ensures NewIndex(tiles, i) < |Kept(tiles)|
    ensures Kept(tiles)[NewIndex(tiles, i)] == tiles[i]
  {
    assert tiles == tiles[..i] + [tiles[i]] + tiles[i + 1..];
    KeptAppend(tiles[..i] + [tiles[i]], tiles[i + 1..]);
    KeptAppend(tiles[..i], [tiles[i]]);
    KeptSingle(tiles[i]);
  }

  /** Pruning keeps the relative order: later kept tiles get later indices. */
  lemma KeptOrder(tiles: seq<Tile>, i: nat, j: nat)
    requires i < j <= |tiles| && OnScreen(tiles[i])
    ensures NewIndex(tiles, i) < NewIndex(tiles, j)
  {
    assert tiles[..j] == tiles[..i] + [tiles[i]] + tiles[i + 1..j];
    KeptAppend(tiles[..i] + [tiles[i]], tiles[i + 1..j]);
    KeptAppend(tiles[..i], [tiles[i]]);
    KeptSingle(tiles[i]);
  }

  /** Every tile after pruning comes from an on-screen tile of the original track. */
  lemma {:induction false} KeptSource(tiles: seq<Tile>, k: nat) returns (i: nat)
    requires k < |Kept(tiles)|
    ensures i < |tiles| && OnScreen(tiles[i]) && NewIndex(tiles, i) == k
  {
    var init := tiles[..|tiles| - 1];
    var last := tiles[|tiles| - 1];
    if k < |Kept(init)| {
      i := KeptSource(init, k);
      assert tiles[..i] == init[..i];
    } else {
      i := |tiles| - 1;
      assert tiles[..i] == init;
    }
  }

  /**
   * The player's tile index after pruning: cleared if its tile was removed,
   * otherwise shifted to where that tile now sits.
   */
  function Remap(tiles: seq<Tile>, cur: Option<nat>): (r: Option<nat>)
    ensures r.Some? <==> cur.Some? && cur.value < |tiles| && OnScreen(tiles[cur.value])
    ensures r.Some? ==> r.value < |Kept(tiles)| && Kept(tiles)[r.value] == tiles[cur.value]
    ensures r.Some? ==> r.value <= cur.value
  {
    match cur
    case None => None
    case Some(i) =>
      if i < |tiles| && OnScreen(tiles[i]) then
        KeptAt(tiles, i);
        Some(NewIndex(tiles, i))
      else None
  }

  /**
   * As written, `erase` shifts the surviving tiles down the vector but
   * `currentTile` keeps pointing at the same slot.
   */
  function SlotAfterErase(cur: Option<nat>): Option<nat>
  {
    cur
  }

  /**
   * Two tracks where the player stands on the tile at index 1 and the tile
   * at index 0 has left the screen: after pruning, the kept slot either lies
   * past the end of the vector or holds a different tile, while the remapped
   * index still names the player's tile.
   */
  lemma ErasedSlotDrifts()
    ensures var gone := Tile(0, SCREEN_HEIGHT + 1, TILE_WIDTH, TILE_HEIGHT, BLUE);
            var mine := Tile(100, 100, TILE_WIDTH, TILE_HEIGHT, BLUE);
            var other := Tile(200, 50, TILE_WIDTH, TILE_HEIGHT, BLUE);
            && SlotAfterErase(Some(1)) == Some(1)
            && |Kept([gone, mine])| == 1
            && Remap([gone, mine], Some(1)) == Some(0)
            && Kept([gone, mine])[0] == mine
            && |Kept([gone, mine, other])| == 2
            && Kept([gone, mine, other])[1] == other != mine
            && Remap([gone, mine, other], Some(1)) == Some(0)
  {
    var gone := Tile(0, SCREEN_HEIGHT + 1, TILE_WIDTH, TILE_HEIGHT, BLUE);
    var mine := Tile(100, 100, TILE_WIDTH, TILE_HEIGHT, BLUE);
    var other := Tile(200, 50, TILE_WIDTH, TILE_HEIGHT, BLUE);
    KeptSingle(gone);
    KeptSingle(mine);
    KeptSingle(other);
    assert Kept([gone]) == [];
    assert [gone, mine] == [gone] + [mine];
    KeptAppend([gone], [mine]);
    assert Kept([gone, mine]) == [mine];
    assert [gone, mine, other] == [gone, mine] + [other];
    KeptAppend([gone, mine], [other]);
    assert Kept([gone, mine, other]) == [mine, other];
    assert [gone, mine][..1] == [gone, mine, other][..1] == [gone];
    assert NewIndex([gone, mine], 1) == 0;
    assert NewIndex([gone, mine, other], 1) == 0;
  }
}
