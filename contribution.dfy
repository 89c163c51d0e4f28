/**
 * The contribution grid behind the court: square positions, the level of each
 * square, and the two effects that brighten squares (around a paddle hit and
 * at random after a point), stated on sequences of levels.
 */
module Contribution {
  import opened Settings

  /** Position of one contribution square; its size and colour only matter for drawing. */
  datatype Square = Square(x: int, y: int)

  /** Every level is a valid index into the palette. */
  predicate Bounded(levels: seq<nat>)
  {
    forall k :: 0 <= k < |levels| ==> levels[k] <= MAX_LEVEL
  }

  function Min(a: int, b: int): int
  {
    if a <= b then a else b
  }

  /** The level after one raise: up by one step, but never past the brightest tier. */
  function NextLevel(level: nat): (r: nat)
    ensures level <= MAX_LEVEL ==> r <= MAX_LEVEL
    ensures r == level || r == level + 1
    ensures r == level + 1 <==> level < MAX_LEVEL
  {
    if level < MAX_LEVEL then level + 1 else level
  }

  /** The level a square is seeded with when the draw lands on position `pick` of SEED_CHOICES. */
  function SeedLevel(pick: nat): (r: nat)
    requires pick < |SEED_CHOICES|
    ensures r <= 2
    ensures r == 0 <==> pick < 3
  {
    SEED_CHOICES[pick]
  }

  // ---------------------------------------------------------------------------
  // Layout

  /** Position of the k-th square appended by the row-major construction loop. */
  function SquareAt(k: nat): Square
    requires k < SQUARE_COUNT
  {
    Square(STEP * (k % COLS), STEP * (k / COLS))
  }

  /** The whole list of squares, in the order they are appended. */
  function Layout(): seq<Square>
  {
    seq(SQUARE_COUNT, k requires 0 <= k < SQUARE_COUNT => SquareAt(k))
  }

  /** The lattice has 60 rows of 100 squares, exactly the steps of 10 that start inside the window. */
  lemma GridShape()
    ensures ROWS == 60 && COLS == 100 && SQUARE_COUNT == 6000 && |Layout()| == 6000
    ensures STEP * (ROWS - 1) < WINDOW_HEIGHT <= STEP * ROWS
    ensures STEP * (COLS - 1) < WINDOW_WIDTH <= STEP * COLS
  {
  }

  lemma IndexSplit(row: nat, col: nat)
    requires row < ROWS && col < COLS
    ensures row * COLS + col < SQUARE_COUNT
    ensures (row * COLS + col) % COLS == col && (row * COLS + col) / COLS == row
  {
    GridShape();
    var k := row * 100 + col;
    assert k % 100 == col && k / 100 == row;
  }

  /** The square appended at row `row`, column `col` sits at (10 * col, 10 * row). */
  lemma {:induction false} LayoutRowMajor(row: nat, col: nat)
    requires row < ROWS && col < COLS
    ensures row * COLS + col < |Layout()|
    ensures Layout()[row * COLS + col] == Square(STEP * col, STEP * row)
  {
    IndexSplit(row, col);
  }

  /** Every square starts inside the window. */
  lemma {:induction false} LayoutInWindow(k: nat)
    requires k < |Layout()|
    ensures 0 <= Layout()[k].x < WINDOW_WIDTH
    ensures 0 <= Layout()[k].y < WINDOW_HEIGHT
  {
    GridShape();
    assert k / 100 < 60 && k % 100 < 100;
  }

  /** No two squares share a position. */
  lemma {:induction false} LayoutDistinct(i: nat, j: nat)
    requires i < j < |Layout()|
    ensures Layout()[i] != Layout()[j]
  {
    GridShape();
    assert i == (i / 100) * 100 + i % 100 && j == (j / 100) * 100 + j % 100;
  }

  // ---------------------------------------------------------------------------
  // Proximity effect

  /** The squared distance between a square and a point is below the squared radius. */
  predicate WithinEffect(s: Square, x: int, y: int)
  {
    (s.x - x) * (s.x - x) + (s.y - y) * (s.y - y) < EFFECT_RADIUS * EFFECT_RADIUS
  }

  /**
   * The square-root test equals the squared test: any non-negative `d` whose
   * square is the squared distance is below the radius exactly when the
   * squared distance is below the squared radius.
   */
  lemma {:induction false} DistanceTest(s: Square, x: int, y: int, d: real)
    requires 0.0 <= d
    requires d * d == ((s.x - x) * (s.x - x) + (s.y - y) * (s.y - y)) as real
    ensures d < EFFECT_RADIUS as real <==> WithinEffect(s, x, y)
  {
    var r := EFFECT_RADIUS as real;
    var n := (s.x - x) * (s.x - x) + (s.y - y) * (s.y - y);
    if d < r {
      assert d * d <= d * r;
      assert d * r < r * r;
      assert n as real < 2500.0;
      assert n < 2500;
    } else {
      assert d * d >= d * r;
      assert d * r >= r * r;
      assert n as real >= 2500.0;
      assert n >= 2500;
    }
  }

  /** A square within the radius lies strictly inside the 100 by 100 box around the point. */
  lemma EffectIsLocal(s: Square, x: int, y: int)
    requires WithinEffect(s, x, y)
    ensures -EFFECT_RADIUS < s.x - x < EFFECT_RADIUS
    ensures -EFFECT_RADIUS < s.y - y < EFFECT_RADIUS
  {
  }

  /**
   * The levels after one proximity effect centred at (x, y): each square rises
   * by at most one, and it rises exactly when it is within the radius and not
   * yet at the brightest tier.
   */
  function ProximityEffect(levels: seq<nat>, squares: seq<Square>, x: int, y: int): (r: seq<nat>)
    requires |levels| == |squares|
    ensures |r| == |levels|
    ensures forall k :: 0 <= k < |r| ==> levels[k] <= r[k] <= levels[k] + 1
    ensures forall k :: 0 <= k < |r| ==>
      (r[k] == levels[k] + 1 <==> WithinEffect(squares[k], x, y) && levels[k] < MAX_LEVEL)
    ensures Bounded(levels) ==> Bounded(r)
  {
    seq(|levels|, k requires 0 <= k < |levels| =>
      if WithinEffect(squares[k], x, y) then NextLevel(levels[k]) else levels[k])
  }

  /**
   * A proximity effect only changes squares inside the 100 by 100 box around
   * its centre; a hit on the left paddle (x = 30) only brightens squares with x < 80.
   */
  lemma {:induction false} ProximityEffectIsLocal(levels: seq<nat>, squares: seq<Square>, x: int, y: int, k: nat)
    requires |levels| == |squares| && k < |levels|
    requires ProximityEffect(levels, squares, x, y)[k] != levels[k]
    ensures -EFFECT_RADIUS < squares[k].x - x < EFFECT_RADIUS
    ensures -EFFECT_RADIUS < squares[k].y - y < EFFECT_RADIUS
  {
    EffectIsLocal(squares[k], x, y);
  }

  // ---------------------------------------------------------------------------
  // Score effect

  /** Every pick names a square. */
  predicate PicksInRange(picks: seq<nat>, n: nat)
  {
    forall i :: 0 <= i < |picks| ==> picks[i] < n
  }

  /** How many of the picks name square k. */
  function Occurrences(picks: seq<nat>, k: nat): nat
    decreases |picks|
  {
    if picks == [] then 0
    else Occurrences(picks[..|picks| - 1], k) + (if picks[|picks| - 1] == k then 1 else 0)
  }

  /** The levels after raising the picked squares one at a time, in the order picked. */
  function ScoreEffect(levels: seq<nat>, picks: seq<nat>): (r: seq<nat>)
    requires PicksInRange(picks, |levels|)
    ensures |r| == |levels|
    ensures forall k :: 0 <= k < |r| ==> levels[k] <= r[k]
    ensures Bounded(levels) ==> Bounded(r)
    decreases |picks|
  {
    if picks == [] then levels
    else
      var prev := ScoreEffect(levels, picks[..|picks| - 1]);
      var p := picks[|picks| - 1];
      prev[p := NextLevel(prev[p])]
  }

  /** A square's level after a score effect is its old level plus its picks, capped at MAX_LEVEL. */
  lemma {:induction false} ScoreEffectAt(levels: seq<nat>, picks: seq<nat>, k: nat)
    requires PicksInRange(picks, |levels|)
    requires k < |levels| && levels[k] <= MAX_LEVEL
    ensures ScoreEffect(levels, picks)[k] == Min(MAX_LEVEL, levels[k] + Occurrences(picks, k))
    decreases |picks|
  {
    if picks != [] {
      var init := picks[..|picks| - 1];
      assert PicksInRange(init, |levels|);
      ScoreEffectAt(levels, init, k);
    }
  }

  /** Sum of all levels. */
  function Total(s: seq<nat>): nat
  {
    if s == [] then 0 else s[0] + Total(s[1..])
  }

  lemma {:induction false} TotalUpdate(s: seq<nat>, p: nat, v: nat)
    requires p < |s|
    ensures Total(s[p := v]) == Total(s) - s[p] + v
  {
    if p == 0 {
      assert s[p := v][1..] == s[1..];
    } else {
      assert s[p := v][1..] == s[1..][p - 1 := v];
      TotalUpdate(s[1..], p - 1, v);
    }
  }

  /** A score effect adds at most one level per pick to the grid as a whole. */
  lemma {:induction false} ScoreEffectTotal(levels: seq<nat>, picks: seq<nat>)
    requires PicksInRange(picks, |levels|)
    ensures Total(ScoreEffect(levels, picks)) <= Total(levels) + |picks|
    decreases |picks|
  {
    if picks != [] {
      var init := picks[..|picks| - 1];
      assert PicksInRange(init, |levels|);
      ScoreEffectTotal(levels, init);
      var prev := ScoreEffect(levels, init);
      var p := picks[|picks| - 1];
      TotalUpdate(prev, p, NextLevel(prev[p]));
    }
  }
}
