/**
  The game's tuning constants (jump.py, lines 6-11) and the literals that
  the player, the obstacle and the main loop use. Screen sizes and the gap
  are integers, as in the source; positions and speeds are reals, so the
  real copies FIELD_WIDTH and FIELD_HEIGHT are used wherever a size meets a
  position.
 */
module Config {

  const MAX_WIDTH: int := 600
  const MAX_HEIGHT: int := 400
  /** Height of the opening in an obstacle column. */
  const GAP_SIZE: int := 120
  /** Added to the vertical velocity on a frame without thrust. */
  const GRAVITY: real := 0.5
  /** Vertical velocity set outright on a frame with thrust (upwards). */
  const FLY_FORCE: real := -5.0

  const FIELD_WIDTH: real := MAX_WIDTH as real
  const FIELD_HEIGHT: real := MAX_HEIGHT as real

  /** Bounds of the random gap offset: an 80-unit margin above and below. */
  const GAP_MIN: int := 80
  const GAP_MAX: int := MAX_HEIGHT - GAP_SIZE - 80

  /** The player sprite is 35 by 35; the obstacle column is 20 wide. */
  const PLAYER_SIZE: real := 35.0
  const OBSTACLE_WIDTH: real := 20.0

  /** The player spawns at (50, MAX_HEIGHT // 2). */
  const SPAWN_X: real := 50.0
  const SPAWN_Y: real := (MAX_HEIGHT / 2) as real

  /** The obstacle is recycled once its x is at or left of RECYCLE_X. */
  const RECYCLE_X: real := -20.0
  const INITIAL_SPEED: real := 5.0
  /** Per-frame speed ramp, active once the score reaches RAMP_SCORE. */
  const SPEED_RAMP: real := 0.01
  const RAMP_SCORE: int := 4
  /** Speed bump applied at every recycle. */
  const RECYCLE_BONUS: real := 0.1

  /** The values random.randint(80, MAX_HEIGHT - GAP_SIZE - 80) can return. */
  predicate InGapRange(g: int) {
    GAP_MIN <= g <= GAP_MAX
  }
}
