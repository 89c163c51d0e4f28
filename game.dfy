/**
 * The game: two paddles, a ball, two scores and the contribution grid, with
 * the per-frame rules (input, ball movement, collisions, scoring) and the
 * manual reset. Every random draw and every collision test is an input.
 */
module Game {
  import opened Settings
  import opened Contribution
  import opened Paddles
  import opened Balls

  /** The events the frame loop reacts to; all other events are ignored. */
  datatype Event = QuitEvent | ResetKeyDown | OtherEvent

  /** Which movement keys are held during a frame. */
  datatype Keys = Keys(w: bool, s: bool, up: bool, down: bool)

  /** Whether the ball's box overlaps the left and the right paddle's box this frame. */
  datatype Contacts = Contacts(left: bool, right: bool)

  /** The two draws of a serve: the sign of dx and the value of dy. */
  datatype Serve = Serve(rightward: bool, dy: real)

  /** The draws of one manual reset: a serve, then one seed pick per square. */
  datatype ResetDraw = ResetDraw(serve: Serve, seeds: seq<nat>)

  /** Everything that comes from outside during one frame. */
  datatype FrameInput = FrameInput(
    events: seq<Event>, resets: seq<ResetDraw>, keys: Keys, contacts: Contacts,
    nudgeLeft: real, nudgeRight: real, serve: Serve, picks: seq<nat>)

  /** Who wins a point, if anyone, when the ball's x is checked. */
  datatype Point = NoPoint | LeftPoint | RightPoint

  predicate ValidSeeds(seeds: seq<nat>)
  {
    |seeds| == SQUARE_COUNT && forall i :: 0 <= i < |seeds| ==> seeds[i] < |SEED_CHOICES|
  }

  predicate ValidNudge(d: real)
  {
    -1.0 <= d <= 1.0
  }

  predicate ValidPicks(picks: seq<nat>)
  {
    |picks| == SCORE_PICKS && PicksInRange(picks, SQUARE_COUNT)
  }

  /** The draws a frame needs are in the ranges the random source produces. */
  predicate ValidInput(f: FrameInput)
  {
    |f.resets| == |f.events| &&
    (forall i :: 0 <= i < |f.events| && f.events[i] == ResetKeyDown ==>
       ValidServeDy(f.resets[i].serve.dy) && ValidSeeds(f.resets[i].seeds)) &&
    ValidNudge(f.nudgeLeft) && ValidNudge(f.nudgeRight) &&
    ValidServeDy(f.serve.dy) && ValidPicks(f.picks)
  }

  // ---------------------------------------------------------------------------
  // Collision rule

  /** The left branch fires when the ball touches the left paddle while moving left. */
  predicate LeftFires(dx: int, c: Contacts)
  {
    c.left && dx < 0
  }

  function DxAfterLeft(dx: int, c: Contacts): int
  {
    if LeftFires(dx, c) then -dx else dx
  }

  /** The right branch tests dx as the left branch left it. */
  predicate RightFires(dx: int, c: Contacts)
  {
    c.right && DxAfterLeft(dx, c) > 0
  }

  /**
   * Horizontal speed after the collision step: flipped once for exactly one
   * firing branch, back to the original for two, always still BALL_SPEED in
   * size; both branches fire only for a leftward ball touching both paddles.
   */
  function DxAfter(dx: int, c: Contacts): (r: int)
    ensures ValidSpeed(dx) ==> ValidSpeed(r)
    ensures r == if LeftFires(dx, c) == RightFires(dx, c) then dx else -dx
    ensures dx != 0 ==> (LeftFires(dx, c) && RightFires(dx, c) <==> c.left && c.right && dx < 0)
    ensures r != dx ==> (c.left && dx < 0) || (c.right && dx > 0)
  {
    var d := DxAfterLeft(dx, c);
    if c.right && d > 0 then -d else d
  }

  /** Number of collision branches that fire. */
  function Firings(dx: int, c: Contacts): nat
  {
    (if LeftFires(dx, c) then 1 else 0) + (if RightFires(dx, c) then 1 else 0)
  }

  /**
   * The grid after the collision step: one proximity effect around each paddle
   * whose branch fires, left first. No square drops, and none rises by more than
   * the number of firing branches.
   */
  function LevelsAfterCollisions(levels: seq<nat>, squares: seq<Square>, dx: int, c: Contacts,
                                 leftY: int, rightY: int): (r: seq<nat>)
    requires |levels| == |squares|
    ensures |r| == |levels|
    ensures forall k :: 0 <= k < |r| ==> levels[k] <= r[k] <= levels[k] + Firings(dx, c)
    ensures Bounded(levels) ==> Bounded(r)
  {
    var mid := if LeftFires(dx, c) then ProximityEffect(levels, squares, LEFT_PADDLE_X, leftY) else levels;
    if RightFires(dx, c) then ProximityEffect(mid, squares, RIGHT_PADDLE_X, rightY) else mid
  }

  // ---------------------------------------------------------------------------
  // Scoring rule

  /** The right player scores past the left edge; otherwise the left player scores past the right edge. */
  function PointFor(x: int): (p: Point)
    ensures p == RightPoint <==> x < 0
    ensures p == LeftPoint <==> x > WINDOW_WIDTH
    ensures p == NoPoint <==> 0 <= x <= WINDOW_WIDTH
  {
    if x < 0 then RightPoint else if x > WINDOW_WIDTH then LeftPoint else NoPoint
  }

  // ---------------------------------------------------------------------------
  // Over a script of frames

  /** A paddle's height after the given frames, from its held keys alone (`left` picks W/S, else UP/DOWN). */
  function PaddleAfterFrames(y: int, script: seq<FrameInput>, left: bool): int
    decreases |script|
  {
    if script == [] then y
    else
      var prev := PaddleAfterFrames(y, script[..|script| - 1], left);
      var k := script[|script| - 1].keys;
      if left then Steered(prev, k.w, k.s) else Steered(prev, k.up, k.down)
  }

  /** No frame of the script delivers an R press. */
  predicate NoReset(script: seq<FrameInput>)
  {
    forall i :: 0 <= i < |script| ==> ResetKeyDown !in script[i].events
  }

  /** Over any frames, a paddle that starts in the band and on the step grid stays in both. */
  lemma {:induction false} PaddleAfterFramesInBand(y: int, script: seq<FrameInput>, left: bool)
    requires InBand(y) && OnStepGrid(y)
    ensures InBand(PaddleAfterFrames(y, script, left)) && OnStepGrid(PaddleAfterFrames(y, script, left))
    decreases |script|
  {
    if script != [] {
      PaddleAfterFramesInBand(y, script[..|script| - 1], left);
    }
  }

  /** Frames that all hold W and not S move the left paddle exactly as holding "up" does. */
  lemma {:induction false} HoldingWFrames(y: int, script: seq<FrameInput>)
    requires forall i :: 0 <= i < |script| ==> script[i].keys.w && !script[i].keys.s
    ensures PaddleAfterFrames(y, script, true) == RepeatUp(y, |script|)
    decreases |script|
  {
    if script != [] {
      var init := script[..|script| - 1];
      HoldingWFrames(y, init);
      RepeatUpLast(y, |init|);
    }
  }

  /** Frames that all hold S and not W move the left paddle exactly as holding "down" does. */
  lemma {:induction false} HoldingSFrames(y: int, script: seq<FrameInput>)
    requires forall i :: 0 <= i < |script| ==> !script[i].keys.w && script[i].keys.s
    ensures PaddleAfterFrames(y, script, true) == RepeatDown(y, |script|)
    decreases |script|
  {
    if script != [] {
      var init := script[..|script| - 1];
      HoldingSFrames(y, init);
      RepeatDownLast(y, |init|);
    }
  }

  class PongGame {
    const leftPaddle: Paddle
    const rightPaddle: Paddle
    const ball: Ball
    var leftScore: nat
    var rightScore: nat
    const squares: seq<Square>
    const levels: array<nat>

    /** The invariant every operation keeps. */
    ghost predicate Valid()
      reads this, leftPaddle, rightPaddle, ball, levels
    {
      leftPaddle != rightPaddle &&
      squares == Layout() && levels.Length == |squares| && Bounded(levels[..]) &&
      leftPaddle.x == LEFT_PADDLE_X && rightPaddle.x == RIGHT_PADDLE_X &&
      InBand(leftPaddle.y) && InBand(rightPaddle.y) &&
      OnStepGrid(leftPaddle.y) && OnStepGrid(rightPaddle.y) &&
      ValidSpeed(ball.dx)
    }

    /** Between frames the ball is never past either edge. */
    ghost predicate BallInField()
      reads this, ball
    {
      0 <= ball.x <= WINDOW_WIDTH
    }

    /**
     * A new game: centred paddles, a centred ball with the given serve, zero
     * scores and the grid built row by row, each square seeded from its pick.
     */
    constructor (seeds: seq<nat>, serve: Serve)
      requires ValidSeeds(seeds) && ValidServeDy(serve.dy)
      ensures Valid() && BallInField()
      ensures fresh(leftPaddle) && fresh(rightPaddle) && fresh(ball) && fresh(levels)
      ensures leftPaddle.y == PADDLE_START_Y && rightPaddle.y == PADDLE_START_Y
      ensures ball.x == WINDOW_WIDTH / 2 && ball.y == (WINDOW_HEIGHT / 2) as real
      ensures ball.dx == ServeDx(serve.rightward) && ball.dy == serve.dy
      ensures leftScore == 0 && rightScore == 0
      ensures forall k :: 0 <= k < levels.Length ==> levels[k] == SeedLevel(seeds[k])
    {
      leftPaddle := new Paddle(LEFT_PADDLE_X, PADDLE_START_Y);
      rightPaddle := new Paddle(RIGHT_PADDLE_X, PADDLE_START_Y);
      ball := new Ball(WINDOW_WIDTH / 2, (WINDOW_HEIGHT / 2) as real, serve.rightward, serve.dy);
      leftScore, rightScore := 0, 0;
      var sq, a := BuildGrid(seeds);
      squares, levels := sq, a;
    }

    /** The grid-building loops of a new game: squares appended row by row, each seeded from its pick. */
    static method BuildGrid(seeds: seq<nat>) returns (sq: seq<Square>, a: array<nat>)
      requires ValidSeeds(seeds)
      ensures fresh(a)
      ensures sq == Layout() && a.Length == |sq|
      ensures forall k :: 0 <= k < a.Length ==> a[k] == SeedLevel(seeds[k])
    {
      GridShape();
      sq := [];
      a := new nat[SQUARE_COUNT];
      for row := 0 to ROWS
        invariant |sq| == row * COLS
        invariant forall k :: 0 <= k < |sq| ==> sq[k] == SquareAt(k) && a[k] == SeedLevel(seeds[k])
      {
        for col := 0 to COLS
          invariant |sq| == row * COLS + col
          invariant forall k :: 0 <= k < |sq| ==> sq[k] == SquareAt(k) && a[k] == SeedLevel(seeds[k])
        {
          IndexSplit(row, col);
          a[|sq|] := SeedLevel(seeds[|sq|]);
          sq := sq + [Square(STEP * col, STEP * row)];
        }
      }
    }

    /** One raise of square k, capped at the brightest tier. */
    method IncreaseLevel(k: nat)
      requires Valid() && k < levels.Length
      modifies levels
      ensures Valid()
      ensures levels[..] == old(levels[..])[k := NextLevel(old(levels[k]))]
    {
      levels[k] := NextLevel(levels[k]);
    }

    /** Raise, by one capped step, every square within EFFECT_RADIUS of (x, y). */
    method AddContributionEffect(x: int, y: int)
      requires Valid()
      modifies levels
      ensures Valid()
      ensures levels[..] == ProximityEffect(old(levels[..]), squares, x, y)
    {
      for k := 0 to levels.Length
        invariant Valid()
        invariant forall j :: 0 <= j < k ==>
          levels[j] == if WithinEffect(squares[j], x, y) then NextLevel(old(levels[j])) else old(levels[j])
        invariant forall j :: k <= j < levels.Length ==> levels[j] == old(levels[j])
      {
        if WithinEffect(squares[k], x, y) {
          IncreaseLevel(k);
        }
      }
    }

    /** Raise each picked square by one capped step, one pick after another. */
    method AddScoreEffect(picks: seq<nat>)
      requires Valid() && ValidPicks(picks)
      modifies levels
      ensures Valid()
      ensures levels[..] == ScoreEffect(old(levels[..]), picks)
    {
      for i := 0 to |picks|
        invariant Valid()
        invariant levels[..] == ScoreEffect(old(levels[..]), picks[..i])
      {
        assert picks[..i + 1][..i] == picks[..i];
        IncreaseLevel(picks[i]);
      }
      assert picks[..|picks|] == picks;
    }

    /** Bounce off a paddle the ball is moving toward, nudging dy and lighting up the grid there. */
    method HandleCollisions(c: Contacts, nudgeLeft: real, nudgeRight: real)
      requires Valid() && ValidNudge(nudgeLeft) && ValidNudge(nudgeRight)
      modifies ball, levels
      ensures Valid()
      ensures ball.x == old(ball.x) && ball.y == old(ball.y)
      ensures ball.dx == DxAfter(old(ball.dx), c)
      ensures ball.dy == old(ball.dy)
        + (if LeftFires(old(ball.dx), c) then nudgeLeft else 0.0)
        + (if RightFires(old(ball.dx), c) then nudgeRight else 0.0)
      ensures levels[..] ==
        LevelsAfterCollisions(old(levels[..]), squares, old(ball.dx), c, leftPaddle.y, rightPaddle.y)
    {
      if c.left && ball.dx < 0 {
        ball.dx := -ball.dx;
        ball.dy := ball.dy + nudgeLeft;
        AddContributionEffect(leftPaddle.x, leftPaddle.y);
      }
      if c.right && ball.dx > 0 {
        ball.dx := -ball.dx;
        ball.dy := ball.dy + nudgeRight;
        AddContributionEffect(rightPaddle.x, rightPaddle.y);
      }
    }

    /** Award a point for a ball past either edge, then re-serve and light up random squares. */
    method CheckScoring(serve: Serve, picks: seq<nat>)
      requires Valid() && ValidServeDy(serve.dy) && ValidPicks(picks)
      modifies this, ball, levels
      ensures Valid()
      ensures rightScore == old(rightScore) + (if PointFor(old(ball.x)) == RightPoint then 1 else 0)
      ensures leftScore == old(leftScore) + (if PointFor(old(ball.x)) == LeftPoint then 1 else 0)
      ensures PointFor(old(ball.x)) == NoPoint ==>
        ball.x == old(ball.x) && ball.y == old(ball.y) && ball.dx == old(ball.dx) &&
        ball.dy == old(ball.dy) && levels[..] == old(levels[..])
      ensures PointFor(old(ball.x)) != NoPoint ==>
        ball.x == WINDOW_WIDTH / 2 && ball.y == (WINDOW_HEIGHT / 2) as real &&
        ball.dx == ServeDx(serve.rightward) && ball.dy == serve.dy &&
        levels[..] == ScoreEffect(old(levels[..]), picks)
    {
      if ball.x < 0 {
        rightScore := rightScore + 1;
        ball.Reset(serve.rightward, serve.dy);
        AddScoreEffect(picks);
      } else if ball.x > WINDOW_WIDTH {
        leftScore := leftScore + 1;
        ball.Reset(serve.rightward, serve.dy);
        AddScoreEffect(picks);
      }
    }

    /** W/S move the left paddle, UP/DOWN the right one; up is applied before down. */
    method HandleInput(keys: Keys)
      requires Valid()
      modifies leftPaddle, rightPaddle
      ensures Valid()
      ensures leftPaddle.y == Steered(old(leftPaddle.y), keys.w, keys.s)
      ensures rightPaddle.y == Steered(old(rightPaddle.y), keys.up, keys.down)
    {
      if keys.w {
        leftPaddle.MoveUp();
      }
      if keys.s {
        leftPaddle.MoveDown();
      }
      if keys.up {
        rightPaddle.MoveUp();
      }
      if keys.down {
        rightPaddle.MoveDown();
      }
    }

    /** The R key: zero both scores, re-serve, and reseed every square; the paddles stay put. */
    method ResetGame(draw: ResetDraw)
      requires Valid() && ValidServeDy(draw.serve.dy) && ValidSeeds(draw.seeds)
      modifies this, ball, levels
      ensures Valid() && BallInField()
      ensures leftScore == 0 && rightScore == 0
      ensures ball.x == WINDOW_WIDTH / 2 && ball.y == (WINDOW_HEIGHT / 2) as real
      ensures ball.dx == ServeDx(draw.serve.rightward) && ball.dy == draw.serve.dy
      ensures forall k :: 0 <= k < levels.Length ==> levels[k] == SeedLevel(draw.seeds[k])
    {
      leftScore := 0;
      rightScore := 0;
      ball.Reset(draw.serve.rightward, draw.serve.dy);
      for k := 0 to levels.Length
        invariant Valid()
        invariant leftScore == 0 && rightScore == 0
        invariant ball.x == WINDOW_WIDTH / 2 && ball.y == (WINDOW_HEIGHT / 2) as real
        invariant ball.dx == ServeDx(draw.serve.rightward) && ball.dy == draw.serve.dy
        invariant forall j :: 0 <= j < k ==> levels[j] == SeedLevel(draw.seeds[j])
      {
        levels[k] := SeedLevel(draw.seeds[k]);
      }
    }

    /**
     * One pass of the main loop, drawing left out: the queued events (quit, or
     * the R key), then input, ball movement, collisions and scoring, in that order.
     * The result says whether a quit event arrived.
     */
    method Frame(f: FrameInput) returns (quit: bool)
      requires Valid() && BallInField() && ValidInput(f)
      modifies this, leftPaddle, rightPaddle, ball, levels
      ensures Valid() && BallInField()
      ensures quit <==> QuitEvent in f.events
      ensures leftPaddle.y == Steered(old(leftPaddle.y), f.keys.w, f.keys.s)
      ensures rightPaddle.y == Steered(old(rightPaddle.y), f.keys.up, f.keys.down)
      ensures ResetKeyDown in f.events ==> leftScore == 0 && rightScore == 0
      ensures ResetKeyDown in f.events ==>
        ball.x == WINDOW_WIDTH / 2 + BALL_SPEED || ball.x == WINDOW_WIDTH / 2 - BALL_SPEED
      ensures ResetKeyDown !in f.events ==>
        var x1 := old(ball.x) + old(ball.dx);
        var y1 := old(ball.y) + old(ball.dy);
        var dy1 := if HitsWall(y1) then -old(ball.dy) else old(ball.dy);
        var hit := LevelsAfterCollisions(old(levels[..]), squares, old(ball.dx), f.contacts,
                                         leftPaddle.y, rightPaddle.y);
        rightScore == old(rightScore) + (if PointFor(x1) == RightPoint then 1 else 0) &&
        leftScore == old(leftScore) + (if PointFor(x1) == LeftPoint then 1 else 0) &&
        (PointFor(x1) == NoPoint ==>
          ball.x == x1 && ball.y == y1 && ball.dx == DxAfter(old(ball.dx), f.contacts) &&
          ball.dy == dy1
            + (if LeftFires(old(ball.dx), f.contacts) then f.nudgeLeft else 0.0)
            + (if RightFires(old(ball.dx), f.contacts) then f.nudgeRight else 0.0) &&
          levels[..] == hit) &&
        (PointFor(x1) != NoPoint ==>
          ball.x == WINDOW_WIDTH / 2 && ball.y == (WINDOW_HEIGHT / 2) as real &&
          ball.dx == ServeDx(f.serve.rightward) && ball.dy == f.serve.dy &&
          levels[..] == ScoreEffect(hit, f.picks))
    {
      quit := false;
      for i := 0 to |f.events|
        invariant Valid() && BallInField()
        invariant quit <==> QuitEvent in f.events[..i]
        invariant leftPaddle.y == old(leftPaddle.y) && rightPaddle.y == old(rightPaddle.y)
        invariant ResetKeyDown !in f.events[..i] ==>
          leftScore == old(leftScore) && rightScore == old(rightScore) &&
          ball.x == old(ball.x) && ball.y == old(ball.y) &&
          ball.dx == old(ball.dx) && ball.dy == old(ball.dy) && levels[..] == old(levels[..])
        invariant ResetKeyDown in f.events[..i] ==>
          leftScore == 0 && rightScore == 0 && ball.x == WINDOW_WIDTH / 2
      {
        assert f.events[..i + 1] == f.events[..i] + [f.events[i]];
        if f.events[i] == QuitEvent {
          quit := true;
        } else if f.events[i] == ResetKeyDown {
          ResetGame(f.resets[i]);
        }
      }
      assert f.events[..|f.events|] == f.events;
      HandleInput(f.keys);
      ball.Move();
      HandleCollisions(f.contacts, f.nudgeLeft, f.nudgeRight);
      CheckScoring(f.serve, f.picks);
    }

    /**
     * The main loop over a script of frames: it runs frame after frame and
     * stops after the frame that delivers a quit event, or when the script ends.
     */
    method Run(script: seq<FrameInput>) returns (frames: nat)
      requires Valid() && BallInField()
      requires forall i :: 0 <= i < |script| ==> ValidInput(script[i])
      modifies this, leftPaddle, rightPaddle, ball, levels
      ensures Valid() && BallInField()
      ensures frames <= |script|
      ensures forall i :: 0 <= i < frames - 1 ==> QuitEvent !in script[i].events
      ensures frames < |script| ==> 0 < frames && QuitEvent in script[frames - 1].events
      ensures leftPaddle.y == PaddleAfterFrames(old(leftPaddle.y), script[..frames], true)
      ensures rightPaddle.y == PaddleAfterFrames(old(rightPaddle.y), script[..frames], false)
      ensures NoReset(script[..frames]) ==>
        old(leftScore) <= leftScore && old(rightScore) <= rightScore &&
        leftScore + rightScore <= old(leftScore) + old(rightScore) + frames
    {
      var running := true;
      frames := 0;
      while running && frames < |script|
        invariant Valid() && BallInField()
        invariant frames <= |script|
        invariant forall i :: 0 <= i < frames - 1 ==> QuitEvent !in script[i].events
        invariant running && 0 < frames ==> QuitEvent !in script[frames - 1].events
        invariant !running ==> 0 < frames && QuitEvent in script[frames - 1].events
        invariant leftPaddle.y == PaddleAfterFrames(old(leftPaddle.y), script[..frames], true)
        invariant rightPaddle.y == PaddleAfterFrames(old(rightPaddle.y), script[..frames], false)
        invariant NoReset(script[..frames]) ==>
          old(leftScore) <= leftScore && old(rightScore) <= rightScore &&
          leftScore + rightScore <= old(leftScore) + old(rightScore) + frames
        decreases |script| - frames, running
      {
        assert script[..frames + 1][..frames] == script[..frames];
        var quit := Frame(script[frames]);
        running := !quit;
        frames := frames + 1;
      }
    }
  }
}
