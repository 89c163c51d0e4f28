/**
 * A paddle: fixed x, a y that the players step up and down by PADDLE_SPEED.
 * The guards test the position before the step, so a paddle can end up to one
 * step past the top or bottom edge; the band below is what is guaranteed.
 */
module Paddles {
  import opened Settings

  /** An axis-aligned box, as handed to the collision test. */
  datatype Rect = Rect(left: int, top: int, width: int, height: int)

  /** Heights reachable from the start height by whole steps: the same remainder modulo PADDLE_SPEED. */
  predicate OnStepGrid(y: int)
  {
    y % PADDLE_SPEED == PADDLE_START_Y % PADDLE_SPEED
  }

  /** The open interval of paddle positions that moving can never leave. */
  predicate InBand(y: int)
  {
    -PADDLE_SPEED < y < WINDOW_HEIGHT - PADDLE_HEIGHT + PADDLE_SPEED
  }

  /** Position after one press of "up": a full step, taken only while below the top edge. */
  function AfterMoveUp(y: int): (r: int)
    ensures r != y <==> y > 0
    ensures r == y || r == y - PADDLE_SPEED
    ensures InBand(y) ==> InBand(r)
    ensures OnStepGrid(y) ==> OnStepGrid(r)
  {
    if y > 0 then y - PADDLE_SPEED else y
  }

  /** Position after one press of "down": a full step, taken only while above the bottom limit. */
  function AfterMoveDown(y: int): (r: int)
    ensures r != y <==> y < WINDOW_HEIGHT - PADDLE_HEIGHT
    ensures r == y || r == y + PADDLE_SPEED
    ensures InBand(y) ==> InBand(r)
    ensures OnStepGrid(y) ==> OnStepGrid(r)
  {
    if y < WINDOW_HEIGHT - PADDLE_HEIGHT then y + PADDLE_SPEED else y
  }

  /**
   * Position after one frame with the "up" and "down" keys held as given: the
   * up move is applied first, then the down move. Holding neither keeps the
   * paddle still; one key alone is that key's move; holding both cancels out
   * anywhere strictly below the top edge.
   */
  function Steered(y: int, up: bool, down: bool): (r: int)
    ensures InBand(y) ==> InBand(r)
    ensures OnStepGrid(y) ==> OnStepGrid(r)
    ensures !up && !down ==> r == y
    ensures up && !down ==> r == AfterMoveUp(y)
    ensures !up && down ==> r == AfterMoveDown(y)
    ensures up && down && 0 < y < WINDOW_HEIGHT - PADDLE_HEIGHT + PADDLE_SPEED ==> r == y
    ensures up && down && y <= 0 ==> r == y + PADDLE_SPEED
  {
    var afterUp := if up then AfterMoveUp(y) else y;
    if down then AfterMoveDown(afterUp) else afterUp
  }

  /** Position after holding "up" for n frames. */
  function RepeatUp(y: int, n: nat): int
    decreases n
  {
    if n == 0 then y else RepeatUp(AfterMoveUp(y), n - 1)
  }

  /** Position after holding "down" for n frames. */
  function RepeatDown(y: int, n: nat): int
    decreases n
  {
    if n == 0 then y else RepeatDown(AfterMoveDown(y), n - 1)
  }

  lemma {:induction false} RepeatUpFrom(y: int, n: nat)
    requires OnStepGrid(y) && -4 <= y
    ensures RepeatUp(y, n) == if y - PADDLE_SPEED * n >= -4 then y - PADDLE_SPEED * n else -4
    decreases n
  {
    if n > 0 {
      RepeatUpFrom(AfterMoveUp(y), n - 1);
    }
  }

  lemma {:induction false} RepeatDownFrom(y: int, n: nat)
    requires OnStepGrid(y) && y <= 524
    ensures RepeatDown(y, n) == if y + PADDLE_SPEED * n <= 524 then y + PADDLE_SPEED * n else 524
    decreases n
  {
    if n > 0 {
      RepeatDownFrom(AfterMoveDown(y), n - 1);
    }
  }

  /**
   * Holding "up" from the starting height overshoots the top edge: the paddle
   * climbs 6 per frame until it reaches -4 and then stays there.
   */
  lemma HoldingUpFromStart(n: nat)
    ensures RepeatUp(PADDLE_START_Y, n) ==
      if PADDLE_START_Y - PADDLE_SPEED * n >= -4 then PADDLE_START_Y - PADDLE_SPEED * n else -4
  {
    RepeatUpFrom(PADDLE_START_Y, n);
  }

  /**
   * A paddle at the top edge, y = 0, does not move however long "up" is held.
   * This is a fact about the guard of `move_up` alone: 0 is not on the step grid,
   * so no paddle in the game ever sits at 0 (see `HoldingUpFromTwo` for the
   * reachable height closest to the edge).
   */
  lemma {:induction false} StuckAtTop(n: nat)
    ensures RepeatUp(0, n) == 0
    decreases n
  {
    if n > 0 {
      StuckAtTop(n - 1);
    }
  }

  /** From y = 2, the lowest reachable height above the edge, one "up" gives -4 and the paddle stays there. */
  lemma HoldingUpFromTwo(n: nat)
    ensures RepeatUp(2, n) == if n == 0 then 2 else -4
  {
    RepeatUpFrom(2, n);
  }

  /** One more frame of "up" on top of n frames is one more step of `AfterMoveUp`. */
  lemma {:induction false} RepeatUpLast(y: int, n: nat)
    ensures RepeatUp(y, n + 1) == AfterMoveUp(RepeatUp(y, n))
    decreases n
  {
    if n > 0 {
      RepeatUpLast(AfterMoveUp(y), n - 1);
    }
  }

  /** One more frame of "down" on top of n frames is one more step of `AfterMoveDown`. */
  lemma {:induction false} RepeatDownLast(y: int, n: nat)
    ensures RepeatDown(y, n + 1) == AfterMoveDown(RepeatDown(y, n))
    decreases n
  {
    if n > 0 {
      RepeatDownLast(AfterMoveDown(y), n - 1);
    }
  }

  /** Holding "down" from the starting height stops at 524, four past the bottom limit of 520. */
  lemma HoldingDownFromStart(n: nat)
    ensures RepeatDown(PADDLE_START_Y, n) ==
      if PADDLE_START_Y + PADDLE_SPEED * n <= 524 then PADDLE_START_Y + PADDLE_SPEED * n else 524
  {
    RepeatDownFrom(PADDLE_START_Y, n);
  }

  class Paddle {
    const x: int
    var y: int

    constructor (x: int, y: int)
      ensures this.x == x && this.y == y
    {
      this.x := x;
      this.y := y;
    }

    method MoveUp()
      modifies this
      ensures y == AfterMoveUp(old(y))
    {
      if y > 0 {
        y := y - PADDLE_SPEED;
      }
    }

    method MoveDown()
      modifies this
      ensures y == AfterMoveDown(old(y))
    {
      if y < WINDOW_HEIGHT - PADDLE_HEIGHT {
        y := y + PADDLE_SPEED;
      }
    }

    /** The paddle's box: at its position with the fixed size; within the band it overhangs the window by less than one step. */
    function GetRect(): (r: Rect)
      reads this
      ensures r.left == x && r.top == y && r.width == PADDLE_WIDTH && r.height == PADDLE_HEIGHT
      ensures InBand(y) ==> -PADDLE_SPEED < r.top && r.top + r.height < WINDOW_HEIGHT + PADDLE_SPEED
    {
      Rect(x, y, PADDLE_WIDTH, PADDLE_HEIGHT)
    }
  }
}
