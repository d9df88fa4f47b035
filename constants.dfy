/** The fixed tuning constants of the 3D curling game (main.py). */
module Constants {

  const SCREEN_W: int := 600
  const SCREEN_H: int := 800
  const WORLD_H: int := 2400

  const STONE_RADIUS: int := 38
  const COURSE_WIDTH_HALF: int := 320
  /** PLAY_MIN_X = SCREEN_W // 2 - COURSE_WIDTH_HALF = -20 */
  const PLAY_MIN_X: int := SCREEN_W / 2 - COURSE_WIDTH_HALF
  /** PLAY_MAX_X = SCREEN_W // 2 + COURSE_WIDTH_HALF = 620 */
  const PLAY_MAX_X: int := SCREEN_W / 2 + COURSE_WIDTH_HALF

  /** The corridor a stone's centre is kept in: [18, 582]. */
  const MIN_CENTER_X: real := (PLAY_MIN_X + STONE_RADIUS) as real
  const MAX_CENTER_X: real := (PLAY_MAX_X - STONE_RADIUS) as real

  const FRICTION_NORMAL: real := 0.985
  const FRICTION_SWEEP: real := 0.995
  const POWER_MAX: real := 35.0

  const MAX_ENDS: int := 2
  const STONES_PER_END: int := 8
  const STONES_PER_TEAM: int := 4

  const START_Y: real := (WORLD_H - 300) as real
  const TARGET_Y: real := 400.0
  const SWITCH_VIEW_LINE: real := TARGET_Y + 500.0

  const HORIZON_Y: real := 150.0
  const VIEW_DIST: real := 5000.0
  const CAMERA_HEIGHT: real := 500.0
  const FOCAL_LENGTH: real := 500.0

  const CUTIN_DURATION: int := 120

  /** The two teams; RED is turn 0 and is played by the human. */
  datatype Team = Red | Yellow

  function Other(t: Team): Team { if t == Red then Yellow else Red }
}
