/** Constants and records of the platform game in ray2.cpp. */
module Entities {
  const SCREEN_WIDTH: int := 1024
  const SCREEN_HEIGHT: int := 600
  const TILE_WIDTH: int := 80
  const TILE_HEIGHT: int := 10
  const TILE_SPEED: int := 1
  const PLAYER_RADIUS: int := 15
  const PLAYER_SPEED: int := 5

  /** Right-most x a tile may have. */
  const MAX_TILE_X: int := SCREEN_WIDTH - TILE_WIDTH

  /**
   * The vertical velocity is a float that only ever holds multiples of 0.5,
   * so it is counted exactly in half-pixels per frame: GRAVITY = 0.5f is one
   * half, JUMP_POWER = -10.0f is minus twenty halves.
   */
  const GRAVITY_HALVES: int := 1
  const JUMP_POWER_HALVES: int := -20

  datatype Option<+T> = None | Some(value: T)

  /** An RGBA colour with 8-bit channels. */
  datatype Color = Color(r: nat, g: nat, b: nat, a: nat)

  /** raylib's BLUE, the colour of every generated tile. */
  const BLUE: Color := Color(0, 121, 241, 255)

  /** A platform: its top-left corner, its size and its colour. */
  datatype Tile = Tile(x: int, y: int, width: int, height: int, color: Color)

  /**
   * The player ball. `velocityHalves` is velocityY counted in halves;
   * `currentTile` stands for the raw `Tile*` and is an index into the tile
   * vector, or None for nullptr.
   */
  datatype Player = Player(
    x: int,
    y: int,
    radius: int,
    isJumping: bool,
    velocityHalves: int,
    isOnTile: bool,
    currentTile: Option<nat>)

  /** The player as `main` initialises it. */
  const INITIAL_PLAYER: Player :=
    Player(SCREEN_WIDTH / 2, SCREEN_HEIGHT - 100, PLAYER_RADIUS, false, 0, false, None)
}
