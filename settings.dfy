/** Compiled-in constants of the game (window, paddles, ball, contribution grid). */
module Settings {
  const WINDOW_WIDTH: int := 1000
  const WINDOW_HEIGHT: int := 600
  const PADDLE_WIDTH: int := 15
  const PADDLE_HEIGHT: int := 80
  const BALL_SIZE: int := 15
  const PADDLE_SPEED: int := 6
  const BALL_SPEED: int := 5

  /** Number of colours in the contribution-level palette; levels run 0 .. MAX_LEVEL. */
  const LEVEL_COUNT: nat := 5
  const MAX_LEVEL: nat := LEVEL_COUNT - 1

  /** Each grid square is 8 units wide with 2 units of spacing. */
  const SQUARE_SIZE: int := 8
  const SPACING: int := 2
  const STEP: int := SQUARE_SIZE + SPACING

  /** Number of values produced by a range from 0 to the window size in steps of STEP. */
  const ROWS: nat := (WINDOW_HEIGHT + STEP - 1) / STEP
  const COLS: nat := (WINDOW_WIDTH + STEP - 1) / STEP
  const SQUARE_COUNT: nat := ROWS * COLS

  /** Radius of the light-up effect around a paddle hit, and picks per scoring event. */
  const EFFECT_RADIUS: int := 50
  const SCORE_PICKS: nat := 20

  /** The list a square's initial level is drawn from, uniformly by position. */
  const SEED_CHOICES: seq<nat> := [0, 0, 0, 1, 1, 2]

  /** Paddles sit 30 units in from either side and start vertically centred. */
  const PADDLE_MARGIN: int := 30
  const LEFT_PADDLE_X: int := PADDLE_MARGIN
  const RIGHT_PADDLE_X: int := WINDOW_WIDTH - PADDLE_MARGIN - PADDLE_WIDTH
  const PADDLE_START_Y: int := WINDOW_HEIGHT / 2 - PADDLE_HEIGHT / 2
}
