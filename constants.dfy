/** The game-wide constants of src/constants.ts. Lengths are in canvas pixels. */
module Constants {
  const CANVAS_WIDTH: real := 640.0
  const CANVAS_HEIGHT: real := 480.0

  const FRICTION: real := 0.8
  const GRAVITY: real := 0.07
  const GROUND_HEIGHT: real := 40.0
  /** The line the walkers stand on: 480 - 40 - 2 = 438. */
  const FLOOR: real := CANVAS_HEIGHT - GROUND_HEIGHT - 2.0
  /** Milliseconds between airplane spawns (used by the game loop, not by the core). */
  const PLANE_SPAWN_TIME: int := 7000
}
