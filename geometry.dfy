/**
 * Integer geometry of the desktop: points, sizes, the 20-pixel snapping grid
 * used while dragging icons, and the minimum window size enforced by resizing.
 */
module Geometry {

  /** Grid step in pixels. */
  const GRID: int := 20
  /** Smallest width and height a resize can leave the window with. */
  const MIN_W: int := 360
  const MIN_H: int := 260
  /** Height of the taskbar that a maximized window leaves uncovered. */
  const TASKBAR_H: int := 40

  datatype Point = Point(x: int, y: int)
  datatype Size = Size(w: int, h: int)
  /** The window's position and size, as remembered before maximizing. */
  datatype Bounds = Bounds(pos: Point, size: Size)
  /** Width and height of the desktop container, already rounded to integers. */
  datatype Rect = Rect(width: int, height: int)

  function Abs(n: int): nat
  {
    if n < 0 then -n else n
  }

  /** JavaScript's Math.round: the nearest integer, with halves going up. */
  function JsRound(x: real): (r: int)
    ensures r as real - 0.5 <= x < r as real + 0.5
  {
    (x + 0.5).Floor
  }

  /**
   * An integer rounded to the nearest grid line, computed without reals:
   * Dafny's `/` floors when the divisor is positive.
   */
  function RoundToGrid(n: int): (r: int)
    ensures r % GRID == 0
    ensures n - GRID / 2 < r <= n + GRID / 2
  {
    (n + GRID / 2) / GRID * GRID
  }

  /** The integer formula agrees with the source's real-valued one. */
  lemma RoundToGridIsJsRound(n: int)
    ensures RoundToGrid(n) == JsRound(n as real / GRID as real) * GRID
  {
    var q := (n + GRID / 2) / GRID;
    var rem := (n + GRID / 2) % GRID;
    assert n + GRID / 2 == q * GRID + rem && 0 <= rem < GRID;
    var x := n as real / GRID as real + 0.5;
    assert x == q as real + rem as real / GRID as real;
    assert q as real <= x < q as real + 1.0;
    assert JsRound(n as real / GRID as real) == q;
  }

  /**
   * No grid line is closer to n than RoundToGrid(n), and when two grid
   * lines are equally close the upper one is chosen.
   */
  lemma RoundToGridNearest(n: int, m: int)
    requires m % GRID == 0
    ensures Abs(n - RoundToGrid(n)) <= Abs(n - m)
    ensures Abs(n - m) == Abs(n - RoundToGrid(n)) ==> m <= RoundToGrid(n)
  {
    var r := RoundToGrid(n);
    assert (m - r) % GRID == 0;
    if m != r {
      assert m <= r - GRID || m >= r + GRID;
    }
  }

  /**
   * One coordinate of a dragged icon: the raw coordinate when Alt is held,
   * otherwise the nearest grid line.
   */
  function Snap(raw: int, alt: bool): (r: int)
    ensures alt ==> r == raw
    ensures !alt ==> r % GRID == 0 && raw - GRID / 2 < r <= raw + GRID / 2
  {
    if alt then raw else RoundToGrid(raw)
  }

  /** The larger of a minimum and a requested value. */
  function AtLeast(min: int, v: int): (r: int)
    ensures r >= min && r >= v
    ensures r == min || r == v
  {
    if v < min then min else v
  }

  /** The size a resize produces from the requested one. */
  function ClampSize(s: Size): (r: Size)
    ensures r.w >= MIN_W && r.h >= MIN_H
    ensures s.w >= MIN_W ==> r.w == s.w
    ensures s.h >= MIN_H ==> r.h == s.h
    ensures s.w < MIN_W ==> r.w == MIN_W
    ensures s.h < MIN_H ==> r.h == MIN_H
  {
    Size(AtLeast(MIN_W, s.w), AtLeast(MIN_H, s.h))
  }
}
