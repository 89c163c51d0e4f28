# GitHub-style Pong: a Dafny model of the game state

This project models the game state of a two-player Pong game whose background is a
grid of GitHub-style contribution squares. It covers the grid of 60 × 100 squares, each
with a brightness level from 0 to 4. It covers the two paddles, which move in steps of 6,
and the ball, whose `x` grows by `dx` (always +5 or −5). It covers the per-frame rules
(input, ball movement, paddle collisions, scoring) and the R-key reset. Rendering,
event polling and frame pacing are not part of the model.

Modules, one per part of the program:

- `Settings` (settings.dfy): the compiled-in constants (window 1000 × 600, paddle 15 × 80,
  speeds 6 and 5, five palette levels, 8 + 2 unit grid step, radius 50, 20 score picks,
  the seed list `[0, 0, 0, 1, 1, 2]`).
- `Contribution` (contribution.dfy): square positions, the one-step capped raise, and the
  two brightening effects as functions on sequences of levels, with lemmas about them.
- `Paddles` (paddle.dfy): the `Paddle` class and the pure step functions it is specified by.
- `Balls` (ball.dfy): the `Ball` class.
- `Game` (game.dfy): the `PongGame` class, which owns the paddles, the ball, the scores,
  the square positions (`squares`) and an array of levels (`levels`).

How the model handles the program's randomness and library calls:

- Every random draw is a parameter.
  - An initial or reseeded level is a position in the seed list.
  - A score-effect pick is an index into the list of squares.
  - A serve is the sign of `dx` plus a `dy` in [−5, 5].
  - A collision nudge is a real in [−1, 1].
- The two "ball box overlaps paddle box" tests are boolean inputs (`Contacts`). The
  collision code computes the ball's box once, before either branch, and neither branch
  moves the ball or a paddle. So the two results are fixed for the whole step.
- `y` and `dy` of the ball are `real`. Nothing is claimed about floating-point rounding.
- The distance test `sqrt(dx² + dy²) < 50` is the integer test `dx² + dy² < 2500`.
  `Contribution.DistanceTest` proves the two agree.

Behaviour of the code that the model keeps as it is:

- `move_up` and `move_down` test `y` before stepping, so a paddle can go one step past
  either edge. From the start height 260, holding "up" stops at −4 and holding "down"
  stops at 524. Every reachable height is 2 modulo 6, and the game invariant records this.
- A starting or reseeded level is a uniform pick from `[0, 0, 0, 1, 1, 2]`. The model takes
  the position in that list as input (`SeedLevel`).
- Both collision branches can fire in one frame, and nothing stops a fast ball from passing
  a paddle between frames.

## Model

| member | source | states |
|---|---|---|
| `Contribution.NextLevel` | main.py:39-43 | an in-range level stays in 0..4; the raise adds exactly 1 below 4 and nothing at 4 |
| `Contribution.SeedLevel` | main.py:138 | a seeded level is in {0, 1, 2}, and it is 0 exactly for the first three positions of the seed list |
| `Contribution.GridShape` | main.py:131-135 | the two ranges of step 10 give 60 rows and 100 columns (6000 squares); they are the multiples of 10 that start inside the window |
| `Contribution.LayoutRowMajor` | main.py:134-139 | the square appended at row r, column c has index 100·r + c and sits at (10·c, 10·r) |
| `Contribution.LayoutInWindow` | main.py:134-136 | every square's position lies inside the 1000 × 600 window |
| `Contribution.LayoutDistinct` | main.py:134-139 | no two squares share a position |
| `Contribution.DistanceTest` | main.py:161-162 | for any non-negative d whose square is the squared distance, d < 50 holds exactly when the squared distance is below 2500 |
| `Contribution.EffectIsLocal` | main.py:161-162 | a square within the effect radius is less than 50 away from the centre on each axis |
| `Contribution.ProximityEffectIsLocal` | main.py:158-163 | a proximity effect changes only squares less than 50 from its centre on each axis; a left-paddle hit at x = 30 only changes squares with x < 80 |
| `Contribution.ProximityEffect` | main.py:158-163 | the length is unchanged; no level drops and none rises by more than one; a level rises exactly when its square is within the radius and below 4; levels stay in 0..4 |
| `Contribution.ScoreEffect` | main.py:176-180 | the length is unchanged, no level drops, and levels stay in 0..4 |
| `Contribution.ScoreEffectAt` | main.py:176-180 | each square's new level is min(4, old level + times picked), so an unpicked square is unchanged |
| `Contribution.ScoreEffectTotal` | main.py:176-180 | the grid's total level grows by at most the number of picks (20 per point) |
| `Paddles.AfterMoveUp` | main.py:59-61 | the paddle moves exactly when it is below the top edge (`y > 0`), and then by exactly −6; the band (−6, 526) and the remainder of y modulo 6 are kept |
| `Paddles.AfterMoveDown` | main.py:63-65 | the paddle moves exactly when `y < 520`, and then by exactly +6; the band (−6, 526) and the remainder of y modulo 6 are kept |
| `Paddles.Steered` | main.py:195-208 | one frame of held keys keeps the band and the step grid; no key means no move; one key alone is that key's move (`AfterMoveUp` or `AfterMoveDown`); both keys cancel for 0 < y < 526, and at or above the top edge both keys move the paddle down 6 |
| `Paddles.RepeatUpFrom` | main.py:59-61 | from any height 2 mod 6 and at least −4, n presses of "up" give max(y − 6n, −4) |
| `Paddles.RepeatDownFrom` | main.py:63-65 | from any height 2 mod 6 and at most 524, n presses of "down" give min(y + 6n, 524) |
| `Paddles.HoldingUpFromStart` | main.py:59-61 | from the start height 260, holding "up" climbs 6 a frame, reaches −4 and stays there |
| `Paddles.StuckAtTop` | main.py:59-61 | a paddle at y = 0 stays at 0 however many times "up" is pressed (a fact about the guard of `move_up` alone: 0 is not a reachable height) |
| `Paddles.HoldingUpFromTwo` | main.py:59-61 | from y = 2, the reachable height closest to the top edge, one "up" gives −4 and the paddle then stays there |
| `Paddles.RepeatUpLast` | main.py:59-61 | n + 1 frames of "up" are n frames followed by one more `AfterMoveUp` |
| `Paddles.RepeatDownLast` | main.py:63-65 | n + 1 frames of "down" are n frames followed by one more `AfterMoveDown` |
| `Paddles.HoldingDownFromStart` | main.py:63-65 | from the start height 260, holding "down" descends 6 a frame, reaches 524 and stays there |
| `Paddles.Paddle.constructor` | main.py:52-57 | a paddle starts at the given x and y |
| `Paddles.Paddle.MoveUp` | main.py:59-61 | the new y is `AfterMoveUp` of the old one |
| `Paddles.Paddle.MoveDown` | main.py:63-65 | the new y is `AfterMoveDown` of the old one |
| `Paddles.Paddle.GetRect` | main.py:78-79 | the box is at the paddle's (x, y) with the fixed 15 × 80 size; within the band it overhangs the window by less than one step |
| `Balls.ServeDx` | main.py:86 | a serve's dx is +5 or −5, and it is positive exactly when the rightward choice was drawn |
| `Balls.Ball.constructor` | main.py:82-87 | a ball starts at the given position with a serve's dx and the drawn dy |
| `Balls.Ball.Move` | main.py:89-95 | x gains dx and y gains dy; dx is unchanged; dy is negated exactly when the new y is ≤ 0 or ≥ 585 |
| `Balls.Ball.Reset` | main.py:97-101 | the ball is at (500, 300) with dx = ±5 from the draw and dy the drawn value in [−5, 5] |
| `Game.DxAfter` | main.py:141-156 | dx stays ±5; it flips when exactly one branch fires and keeps its sign when both fire; both fire exactly for a leftward ball touching both paddles; a flip happens only toward the paddle being hit |
| `Game.LevelsAfterCollisions` | main.py:141-156 | after the collision step no square drops, none rises by more than the number of firing branches, and levels stay in 0..4 |
| `Game.PointFor` | main.py:165-174 | the right player scores exactly when x < 0; the left player scores exactly when x > 1000; nobody scores exactly when 0 ≤ x ≤ 1000 (at most one side per check) |
| `Game.PongGame.constructor` | main.py:113-139 | paddles at (30, 260) and (955, 260), ball at (500, 300) with the drawn serve, scores 0, the grid laid out row-major, each level the seed for that square; the invariant holds |
| `Game.PongGame.BuildGrid` | main.py:131-139 | the loops append exactly the row-major layout, and each square's level is its seed |
| `Game.PongGame.IncreaseLevel` | main.py:41-43 | only square k changes, to its capped raise; levels stay in 0..4 |
| `Game.PongGame.AddContributionEffect` | main.py:158-163 | the new levels are `ProximityEffect` of the old ones around (x, y) |
| `Game.PongGame.AddScoreEffect` | main.py:176-180 | the new levels are `ScoreEffect` of the old ones for the 20 picks |
| `Game.PongGame.HandleCollisions` | main.py:141-156 | the ball's position is kept; dx is `DxAfter`; each firing adds its nudge to dy; the grid gets one proximity effect at each firing paddle's (x, y), left first |
| `Game.PongGame.CheckScoring` | main.py:165-174 | the scorer from `PointFor` gains exactly 1 and the other score is unchanged; on a point the ball is re-served at the centre and one score effect is applied; otherwise the ball and the grid are unchanged |
| `Game.PongGame.HandleInput` | main.py:195-208 | W/S steer the left paddle and UP/DOWN the right one, up applied before down |
| `Game.PongGame.ResetGame` | main.py:217-225 | both scores are 0, the ball is re-served at the centre, every level is reseeded into {0, 1, 2}; the paddles are not touched |
| `Game.PongGame.Frame` | main.py:213-233 | the invariant and "ball within 0..1000" are kept; quit is reported exactly when a quit event arrived; paddles follow only the keys. After an R press both scores are 0 and the ball's x is 5 from the centre. Without one, the scorer given by `PointFor` of the moved x gains exactly 1. With no point, the ball has moved by its old velocity, dx is `DxAfter`, and dy is bounced and then nudged. The levels are `LevelsAfterCollisions` at the paddles' new heights. After a point the ball is re-served and `ScoreEffect` is applied after the collision effects. This fixes the order: events, input, move, collisions, scoring |
| `Game.PaddleAfterFramesInBand` | main.py:197-208 | over any number of frames, a paddle that starts in the band and on the step grid stays in both |
| `Game.HoldingWFrames` | main.py:199-202 | frames that all hold W and not S move the left paddle exactly as n presses of "up" (`RepeatUp`) |
| `Game.HoldingSFrames` | main.py:199-202 | frames that all hold S and not W move the left paddle exactly as n presses of "down" (`RepeatDown`) |
| `Game.PongGame.Run` | main.py:210-265 | the loop runs frames until one delivers a quit event (that frame is completed) or the script ends, keeping the invariant; each paddle ends at `PaddleAfterFrames` of its start under the keys of the frames run; with no R press in those frames, no score drops and the two scores together grow by at most one per frame |

## Left out

- Drawing: the `draw` methods of squares, paddles and ball, `draw_ui`, the instruction text, fonts, colours, `display.set_mode`, `flip` and `pygame.quit`. They produce output only, through a library outside the model. The palette survives only as its size, LEVEL_COUNT = 5.
- Event polling and key state (`pygame.event.get`, `key.get_pressed`): replaced by a per-frame list of events (quit, R key, other) and four held-key flags.
- `clock.tick(60)`: frame pacing only.
- `Ball.get_rect` and `pygame.Rect.colliderect`: the overlap tests call a library that truncates the ball's real coordinates. Their two results are inputs to the collision step.
- `random.choice` and `random.uniform`: their results are parameters, with their ranges as preconditions. Their probability distributions are not modelled.
- `math.sqrt`: replaced by the squared-distance comparison; `Contribution.DistanceTest` relates the two.
- Floating-point behaviour of the ball's `y` and `dy`: modelled as real numbers. No bound on `dy` is stated, because each paddle hit adds a nudge and nothing limits its growth.
- Game.PongGame.Run: the program loops until a quit event arrives. The model runs over a finite script of frames, so it also stops when the script ends. Its contract gives the paddles exactly and bounds the scores; the ball and the grid after several frames are stated only through the invariant, frame by frame in `Frame`.
- `ContributionSquare.size` and `max_level` fields: the size only matters for drawing, and `max_level` is the constant MAX_LEVEL = 4 for every square.
- Game.PongGame.Frame: after an R press in the frame, the contract gives the scores and the ball's x only. The reseeded grid, the ball's dx and dy and the collision effects that follow are not stated, because they depend on which reset draw came last.
