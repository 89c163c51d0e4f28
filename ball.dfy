/**
 * The ball: an integer x moved by a horizontal speed of plus or minus
 * BALL_SPEED, and a real-valued y and dy that only matter for the wall bounce.
 */
module Balls {
  import opened Settings

  /** The horizontal speed is always BALL_SPEED in one of the two directions. */
  predicate ValidSpeed(dx: int)
  {
    dx == BALL_SPEED || dx == -BALL_SPEED
  }

  /** A serve's vertical speed is drawn from [-BALL_SPEED, BALL_SPEED]. */
  predicate ValidServeDy(dy: real)
  {
    -BALL_SPEED as real <= dy <= BALL_SPEED as real
  }

  /** At or past the top wall, or at or past the bottom wall less the ball's size. */
  predicate HitsWall(y: real)
  {
    y <= 0.0 || y >= (WINDOW_HEIGHT - BALL_SIZE) as real
  }

  /** The horizontal speed of a serve, given which of the two choices the draw picked. */
  function ServeDx(rightward: bool): (dx: int)
    ensures ValidSpeed(dx)
    ensures dx > 0 <==> rightward
  {
    if rightward then BALL_SPEED else -BALL_SPEED
  }

  class Ball {
    var x: int
    var y: real
    var dx: int
    var dy: real

    constructor (x: int, y: real, rightward: bool, dy: real)
      requires ValidServeDy(dy)
      ensures this.x == x && this.y == y && this.dx == ServeDx(rightward) && this.dy == dy
    {
      this.x := x;
      this.y := y;
      this.dx := ServeDx(rightward);
      this.dy := dy;
    }

    /** One step of travel, then a reflection of dy if the new y touches a wall. */
    method Move()
      modifies this
      ensures x == old(x) + old(dx) && y == old(y) + old(dy)
      ensures dx == old(dx)
      ensures dy == if HitsWall(y) then -old(dy) else old(dy)
    {
      x := x + dx;
      y := y + dy;
      if y <= 0.0 || y >= (WINDOW_HEIGHT - BALL_SIZE) as real {
        dy := -dy;
      }
    }

    /** Back to the centre of the window with a freshly drawn velocity. */
    method Reset(rightward: bool, newDy: real)
      requires ValidServeDy(newDy)
      modifies this
      ensures x == WINDOW_WIDTH / 2 && y == (WINDOW_HEIGHT / 2) as real
      ensures dx == ServeDx(rightward) && dy == newDy
    {
      x := WINDOW_WIDTH / 2;
      y := (WINDOW_HEIGHT / 2) as real;
      dx := ServeDx(rightward);
      dy := newDy;
    }
  }
}
