/**
 * The player update of one frame: horizontal input, jump start, gravity and
 * vertical integration, first-match landing and the bottom-of-screen fallback.
 */
module Motion {
  import opened Entities
  import opened Collision

  /** static_cast<int>(v / 2): half-pixels to pixels, truncating toward zero. */
  function TruncHalves(v: int): (r: int)
    ensures v >= 0 ==> 0 <= 2 * r <= v < 2 * r + 2
    ensures v < 0 ==> 2 * r - 2 < v <= 2 * r <= 0
  {
    if v >= 0 then v / 2 else -((-v) / 2)
  }

  /** Right key moves by +PLAYER_SPEED, then left key by -PLAYER_SPEED; no clamping. */
  function Moved(p: Player, right: bool, left: bool): (r: Player)
    ensures r.x - p.x == (if right then PLAYER_SPEED else 0) - (if left then PLAYER_SPEED else 0)
    ensures r == p.(x := r.x)
  {
    var p' := if right then p.(x := p.x + PLAYER_SPEED) else p;
    if left then p'.(x := p'.x - PLAYER_SPEED) else p'
  }

  /**
   * A jump starts only when the key was pressed and the player is not
   * already jumping; it sets the jump velocity. An ongoing jump is left alone.
   */
  function Jumped(p: Player, pressed: bool): (r: Player)
    ensures r.isJumping <==> p.isJumping || pressed
    ensures !p.isJumping && pressed ==> r.velocityHalves == JUMP_POWER_HALVES
    ensures p.isJumping || !pressed ==> r == p
    ensures r == p.(isJumping := r.isJumping, velocityHalves := r.velocityHalves)
  {
    if pressed && !p.isJumping then p.(velocityHalves := JUMP_POWER_HALVES, isJumping := true)
    else p
  }

  /**
   * velocityY += GRAVITY; y += static_cast<int>(velocityY): the velocity
   * gains one half, and y moves in the direction of the new velocity by its
   * whole-pixel part.
   */
  function Integrated(p: Player): (r: Player)
    ensures r.velocityHalves == p.velocityHalves + GRAVITY_HALVES
    ensures r.velocityHalves >= 0 ==> 0 <= 2 * (r.y - p.y) <= r.velocityHalves < 2 * (r.y - p.y) + 2
    ensures r.velocityHalves < 0 ==> 0 <= 2 * (p.y - r.y) <= -r.velocityHalves < 2 * (p.y - r.y) + 2
    ensures r == p.(y := r.y, velocityHalves := r.velocityHalves)
  {
    var v := p.velocityHalves + GRAVITY_HALVES;
    p.(velocityHalves := v, y := p.y + TruncHalves(v))
  }

  /** The tile landed on: the first colliding one, and only while moving down. */
  function Landing(p: Player, tiles: seq<Tile>): (r: Option<nat>)
    ensures r.Some? ==> p.velocityHalves > 0
  {
    if p.velocityHalves > 0 then FirstColliding(p, tiles, 0) else None
  }

  /** The player resting on top of tile i. */
  function LandedOn(p: Player, tiles: seq<Tile>, i: nat): Player
    requires i < |tiles|
  {
    p.(y := tiles[i].y - p.radius, isJumping := false, velocityHalves := 0,
       isOnTile := true, currentTile := Some(i))
  }

  /** The player reset onto the bottom edge of the screen. */
  function AtBottom(p: Player): Player
  {
    p.(y := SCREEN_HEIGHT, isJumping := false, velocityHalves := 0,
       isOnTile := false, currentTile := None)
  }

  /**
   * Gravity, landing and the fallback, all of it only while jumping. The
   * player keeps its x and radius; if it is still jumping afterwards only
   * the integration happened; if it stopped, it did so at rest, either on
   * a tile it now holds or at the bottom edge with no tile.
   */
  function Fallen(p: Player, tiles: seq<Tile>): (r: Player)
    ensures !p.isJumping ==> r == p
    ensures r.x == p.x && r.radius == p.radius
    ensures p.isJumping && r.isJumping ==> r == Integrated(p)
    ensures p.isJumping && !r.isJumping ==>
      && r.velocityHalves == 0
      && (|| (r.isOnTile && r.currentTile.Some? && r.currentTile.value < |tiles|
              && r.y == tiles[r.currentTile.value].y - r.radius)
          || (!r.isOnTile && r.currentTile.None? && r.y == SCREEN_HEIGHT))
  {
    if !p.isJumping then p
    else
      var q := Integrated(p);
      match Landing(q, tiles)
      case Some(i) => LandedOn(q, tiles, i)
      case None => if q.y > SCREEN_HEIGHT then AtBottom(q) else q
  }

  /** Without a jump in progress there is no gravity, no landing and no fallback. */
  lemma NoGravityWhenNotJumping(p: Player, tiles: seq<Tile>)
    requires !p.isJumping
    ensures Fallen(p, tiles) == p
  {
  }

  /**
   * The first tile in vector order that collides while moving down is the one
   * landed on: the player sits on its top, at rest, on that tile.
   */
  lemma LandsOnFirstCollidingTile(p: Player, tiles: seq<Tile>, i: nat)
    requires p.isJumping
    requires Integrated(p).velocityHalves > 0
    requires i < |tiles| && Collides(Integrated(p), tiles[i])
    requires forall j :: 0 <= j < i ==> !Collides(Integrated(p), tiles[j])
    ensures var r := Fallen(p, tiles);
      && r.y == tiles[i].y - p.radius
      && r.velocityHalves == 0
      && !r.isJumping
      && r.isOnTile
      && r.currentTile == Some(i)
      && r.x == p.x
  {
  }

  /**
   * While the velocity after gravity is not downward there is no landing and,
   * from on or above the bottom edge, no fallback: only the integration happens.
   */
  lemma NoLandingWhileRising(p: Player, tiles: seq<Tile>)
    requires p.isJumping
    requires p.velocityHalves + GRAVITY_HALVES <= 0
    requires p.y <= SCREEN_HEIGHT
    ensures Fallen(p, tiles) == Integrated(p)
    ensures Fallen(p, tiles).y <= p.y
  {
  }

  /**
   * Below the bottom edge without a landing the player is put back on the edge
   * at rest and off any tile; otherwise the fallback changes nothing.
   */
  lemma BottomFallback(p: Player, tiles: seq<Tile>)
    requires p.isJumping
    requires Landing(Integrated(p), tiles).None?
    ensures Integrated(p).y > SCREEN_HEIGHT ==>
      var r := Fallen(p, tiles);
      r.y == SCREEN_HEIGHT && r.velocityHalves == 0 && !r.isJumping
      && !r.isOnTile && r.currentTile.None? && r.x == p.x
    ensures Integrated(p).y <= SCREEN_HEIGHT ==> Fallen(p, tiles) == Integrated(p)
  {
  }
}
