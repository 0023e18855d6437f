/**
 * Cross-section line geometry of `PlotBase` (timflow/plots/plots.py):
 * the line parametrisation used by every cross-section, and the line and
 * panel placement of the combined plan-view-above-cross-section layout.
 */
module Geometry {
  import opened Wrappers

  datatype Point = Point(x: real, y: real)

  /** The `xy` argument of a cross-section: `[(x0, y0), (x1, y1)]`. */
  datatype Segment = Segment(start: Point, end: Point)

  /** A plot window `[x1, x2, y1, y2]`. */
  datatype Window = Window(x1: real, x2: real, y1: real, y2: real)

  /** An axes position in figure coordinates: origin, width and height. */
  datatype Rect = Rect(x0: real, y0: real, width: real, height: real)

  /** Horizontal axis limits `(lo, hi)` as passed to `set_xlim`. */
  datatype Interval = Interval(lo: real, hi: real)

  function Min(a: real, b: real): (m: real)
    ensures m <= a && m <= b && (m == a || m == b)
  {
    if a <= b then a else b
  }

  function Max(a: real, b: real): (m: real)
    ensures a <= m && b <= m && (m == a || m == b)
  {
    if a <= b then b else a
  }

  /** `np.mean` of two values. */
  function Mean(a: real, b: real): (m: real)
    ensures Min(a, b) <= m <= Max(a, b)
  {
    (a + b) / 2.0
  }

  function SquaredLength(s: Segment): real
  {
    (s.end.x - s.start.x) * (s.end.x - s.start.x) + (s.end.y - s.start.y) * (s.end.y - s.start.y)
  }

  /**
   * `len` is the Euclidean length of `s`, i.e. what `np.sqrt` of the squared
   * length returns. Real square roots are not computable in Dafny, so the
   * length is passed in alongside the segment with this defining property.
   */
  ghost predicate IsLength(s: Segment, len: real)
  {
    0.0 <= len && len * len == SquaredLength(s)
  }

  /** Squaring is strictly increasing on the non-negative reals. */
  lemma SquareStrictlyIncreasing(x: real, y: real)
    requires 0.0 <= x < y
    ensures x * x < y * y
  {
    assert x * (y - x) >= 0.0;
    assert y * (y - x) > 0.0;
  }

  /** The defining property pins the length down: at most one value satisfies it. */
  lemma LengthUnique(s: Segment, a: real, b: real)
    requires IsLength(s, a) && IsLength(s, b)
    ensures a == b
  {
    if a < b {
      SquareStrictlyIncreasing(a, b);
      assert false;
    } else if b < a {
      SquareStrictlyIncreasing(b, a);
      assert false;
    }
  }

  /** A coordinate difference never exceeds the length of the vector it belongs to. */
  lemma ComponentWithinLength(d: real, e: real, r: real)
    requires 0.0 <= r && r * r == d * d + e * e
    ensures -r <= d <= r
  {
    var size := if d >= 0.0 then d else -d;
    assert size * size == d * d;
    if r < size {
      SquareStrictlyIncreasing(r, size);
      assert false;
    }
  }

  /** The horizontal-axis modes a cross-section accepts: distance along the line, x or y. */
  predicate IsAxisMode(axis: string)
  {
    axis == "s" || axis == "x" || axis == "y"
  }

  /**
   * Result of `_get_xsection_line_params`: the origin offset `r0`, the length
   * `r`, the four endpoint coordinates, and the limits it sets on the axes
   * (`None` when it removes the x-ticks instead).
   */
  datatype LineParams = LineParams(r0: real, r: real, x0: real, y0: real, x1: real, y1: real, xlim: Option<Interval>)

  /** The degenerate line drawn when no endpoints are given. */
  const UnitLine := LineParams(0.0, 1.0, 0.0, 0.0, 1.0, 0.0, None)

  /** `_get_xsection_line_params(xy, ax, horizontal_axis)`. */
  function XsectionLineParams(xy: Option<Segment>, axis: string, len: real): (res: Result<LineParams>)
    requires xy.Some? ==> IsLength(xy.value, len)
    ensures res.Failure? <==> xy.Some? && !IsAxisMode(axis)
    ensures res.Failure? ==> res.error.ValueError?
    ensures xy.None? ==> res == Ok(UnitLine)
    ensures xy.Some? && res.Ok? ==>
              var s, p := xy.value, res.value;
              p.r == len && p.x0 == s.start.x && p.y0 == s.start.y && p.x1 == s.end.x && p.y1 == s.end.y &&
              (axis == "s" ==> p.r0 == 0.0 && p.xlim == Some(Interval(0.0, len))) &&
              (axis == "x" ==> p.r0 == Min(s.start.x, s.end.x) && p.xlim == Some(Interval(Min(s.start.x, s.end.x), Max(s.start.x, s.end.x)))) &&
              (axis == "y" ==> p.r0 == Min(s.start.y, s.end.y) && p.xlim == Some(Interval(Min(s.start.y, s.end.y), Max(s.start.y, s.end.y))))
  {
    match xy
    case None => Ok(UnitLine)
    case Some(s) =>
      var x0, y0, x1, y1 := s.start.x, s.start.y, s.end.x, s.end.y;
      if axis == "s" then
        Ok(LineParams(0.0, len, x0, y0, x1, y1, Some(Interval(0.0, len))))
      else if axis == "x" then
        Ok(LineParams(Min(x0, x1), len, x0, y0, x1, y1, Some(Interval(Min(x0, x1), Max(x0, x1)))))
      else if axis == "y" then
        Ok(LineParams(Min(y0, y1), len, x0, y0, x1, y1, Some(Interval(Min(y0, y1), Max(y0, y1)))))
      else
        Failure(ValueError("horizontal_axis must be 'x', 'y', or 's'"))
  }

  /**
   * Whatever the mode, the axis limits start at the origin offset `r0` and
   * span no more than the line length, exactly the length for mode "s":
   * everything placed at `r0 + f * r` with `0 <= f <= 1` is inside the limits
   * in mode "s" and no further right than one line length in the others.
   */
  lemma LineSpan(s: Segment, axis: string, len: real)
    requires IsLength(s, len) && IsAxisMode(axis)
    ensures XsectionLineParams(Some(s), axis, len).Ok?
    ensures var p := XsectionLineParams(Some(s), axis, len).value;
            p.xlim.Some? && p.xlim.value.lo == p.r0 && p.r0 <= p.xlim.value.hi <= p.r0 + p.r &&
            (axis == "s" ==> p.xlim.value.hi == p.r0 + p.r)
  {
    var dx, dy := s.end.x - s.start.x, s.end.y - s.start.y;
    assert len * len == dx * dx + dy * dy;
    if axis == "x" {
      ComponentWithinLength(dx, dy, len);
    } else if axis == "y" {
      assert len * len == dy * dy + dx * dx;
      ComponentWithinLength(dy, dx, len);
    }
  }

  /** The 3-4-5 triangle: endpoints (0,0) and (3,4) give length 5 and, in mode "s", offset 0. */
  lemma ThreeFourFive()
    ensures var s := Segment(Point(0.0, 0.0), Point(3.0, 4.0));
            IsLength(s, 5.0) && XsectionLineParams(Some(s), "s", 5.0) == Ok(LineParams(0.0, 5.0, 0.0, 0.0, 3.0, 4.0, Some(Interval(0.0, 5.0))))
  {
  }

  /**
   * The line `topview_and_xsection` draws its cross-section along: across the
   * whole window at the vertical midpoint for mode "x", up the whole window at
   * the horizontal midpoint for mode "y"; any other mode is refused.
   */
  function CompositeLine(win: Window, axis: string): (res: Result<Segment>)
    ensures res.Failure? <==> axis != "x" && axis != "y"
    ensures res.Failure? ==> res.error.ValueError?
    ensures axis == "x" ==> res.Ok? && res.value.start.y == res.value.end.y == Mean(win.y1, win.y2) &&
                             res.value.start.x == win.x1 && res.value.end.x == win.x2
    ensures axis == "y" ==> res.Ok? && res.value.start.x == res.value.end.x == Mean(win.x1, win.x2) &&
                             res.value.start.y == win.y1 && res.value.end.y == win.y2
  {
    if axis == "x" then
      var ym := Mean(win.y1, win.y2);
      Ok(Segment(Point(win.x1, ym), Point(win.x2, ym)))
    else if axis == "y" then
      var xm := Mean(win.x1, win.x2);
      Ok(Segment(Point(xm, win.y1), Point(xm, win.y2)))
    else
      Failure(ValueError("horizontal_axis must be 'x' or 'y'."))
  }

  /**
   * The cross-section the combined layout draws shows exactly the window's
   * extent along the chosen axis, starting at its lower end, and its length is
   * that extent: in mode "x" the lower panel's horizontal axis spans the same
   * x-range as the plan view above it.
   */
  lemma CompositeLineSynchronised(win: Window, axis: string, len: real)
    requires axis == "x" || axis == "y"
    requires IsLength(CompositeLine(win, axis).value, len)
    ensures XsectionLineParams(Some(CompositeLine(win, axis).value), axis, len).Ok?
    ensures var p := XsectionLineParams(Some(CompositeLine(win, axis).value), axis, len).value;
            if axis == "x" then
              p.r0 == Min(win.x1, win.x2) && p.xlim == Some(Interval(Min(win.x1, win.x2), Max(win.x1, win.x2))) &&
              p.r == Max(win.x1, win.x2) - Min(win.x1, win.x2)
            else
              p.r0 == Min(win.y1, win.y2) && p.xlim == Some(Interval(Min(win.y1, win.y2), Max(win.y1, win.y2))) &&
              p.r == Max(win.y1, win.y2) - Min(win.y1, win.y2)
  {
    var s := CompositeLine(win, axis).value;
    var extent := if axis == "x" then Max(win.x1, win.x2) - Min(win.x1, win.x2)
                  else Max(win.y1, win.y2) - Min(win.y1, win.y2);
    assert SquaredLength(s) == extent * extent;
    assert IsLength(s, extent);
    LengthUnique(s, len, extent);
  }

  /** The window the layout uses: the caller's, or else the plan view's limits after it is drawn. */
  function EffectiveWindow(win: Option<Window>, topLimits: Window): (w: Window)
    ensures win.Some? ==> w == win.value
    ensures win.None? ==> w == topLimits
  {
    match win
    case Some(given) => given
    case None => topLimits
  }

  /**
   * `topview_and_xsection` after the plan view is drawn: the lower panel takes
   * the plan panel's post-aspect-adjustment origin and width and keeps its own
   * vertical origin and height; this happens before, and regardless of, the
   * check of the axis mode. The second component is the cross-section line.
   */
  function TopviewAndXsection(win: Option<Window>, topLimits: Window, topPos: Rect, bottomPos: Rect, axis: string)
    : (res: (Rect, Result<Segment>))
    ensures res.0.x0 == topPos.x0 && res.0.width == topPos.width
    ensures res.0.y0 == bottomPos.y0 && res.0.height == bottomPos.height
    ensures res.1.Failure? <==> axis != "x" && axis != "y"
    ensures res.1.Ok? ==> res.1 == CompositeLine(EffectiveWindow(win, topLimits), axis)
  {
    (Rect(topPos.x0, bottomPos.y0, topPos.width, bottomPos.height),
     CompositeLine(EffectiveWindow(win, topLimits), axis))
  }
}
