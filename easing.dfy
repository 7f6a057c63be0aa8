/** The easing graph of `Timewave.updateEasingGraph` (timewave.js:212-245)
    and `Timewave.cubicBezier` (timewave.js:247-249): a named easing is
    looked up as four cubic-bezier control values, which are mapped into
    the SVG view box, whose horizontal extent covers the animation's
    share of the displayed window. */
module Easing {
  import opened Wrappers
  import Timeline

  /** The control values `(x1, y1, x2, y2)` of `cubic-bezier(...)`, with
      progress on the y axis. */
  datatype Curve = Curve(x1: real, y1: real, x2: real, y2: real)

  /** `{cx1, cy1, cx2, cy2}`: the two control points in view-box space. */
  datatype ControlPoints = ControlPoints(cx1: real, cy1: real, cx2: real, cy2: real)

  datatype Point = Point(x: real, y: real)

  /** The geometry of the path's `d` attribute (timewave.js:242-243):
      `M start C c1 c2 end L foot`. */
  datatype EasingPath = EasingPath(start: Point, c1: Point, c2: Point, end: Point, foot: Point)

  predicate IsPresetName(easing: string) {
    easing == "linear" || easing == "ease" || easing == "ease-in" ||
    easing == "ease-in-out" || easing == "ease-out"
  }

  /** A curve whose control points lie in the unit square: a valid
      `cubic-bezier` (x in [0, 1]) that neither overshoots nor undershoots. */
  predicate InUnitSquare(c: Curve) {
    0.0 <= c.x1 <= 1.0 && 0.0 <= c.x2 <= 1.0 && 0.0 <= c.y1 <= 1.0 && 0.0 <= c.y2 <= 1.0
  }

  /** The `switch` of timewave.js:219-240 as written. Any other name leaves
      `p` undefined. */
  function SourcePreset(easing: string): (c: Option<Curve>)
    ensures c.Some? <==> IsPresetName(easing)
    ensures c.Some? ==> InUnitSquare(c.value)
  {
    match easing
    case "linear" => Some(Curve(0.0, 0.0, 1.0, 1.0))
    case "ease" => Some(Curve(0.25, 1.0, 0.25, 1.0))
    case "ease-in" => Some(Curve(0.42, 0.0, 1.0, 1.0))
    case "ease-in-out" => Some(Curve(0.48, 0.0, 0.58, 1.0))
    case "ease-out" => Some(Curve(0.0, 0.0, 0.58, 1.0))
    case _ => None
  }

  /** The named easing functions as section 2.2 of CSS Easing Functions
      Level 1 defines them, the curves the browser animates with. */
  function Preset(easing: string): (c: Option<Curve>)
    ensures c.Some? <==> IsPresetName(easing)
    ensures c.Some? ==> InUnitSquare(c.value)
  {
    match easing
    case "linear" => Some(Curve(0.0, 0.0, 1.0, 1.0))
    case "ease" => Some(Curve(0.25, 0.1, 0.25, 1.0))
    case "ease-in" => Some(Curve(0.42, 0.0, 1.0, 1.0))
    case "ease-in-out" => Some(Curve(0.42, 0.0, 0.58, 1.0))
    case "ease-out" => Some(Curve(0.0, 0.0, 0.58, 1.0))
    case _ => None
  }

  /** The table as written disagrees with the CSS definitions on `ease`
      (y1 is 1 instead of 0.1) and on `ease-in-out` (x1 is 0.48 instead of
      0.42), and agrees on the other names. */
  lemma SourcePresetDiffers(easing: string)
    ensures SourcePreset("ease") == Some(Curve(0.25, 1.0, 0.25, 1.0)) != Preset("ease")
    ensures SourcePreset("ease-in-out") == Some(Curve(0.48, 0.0, 0.58, 1.0)) != Preset("ease-in-out")
    ensures easing != "ease" && easing != "ease-in-out" ==> SourcePreset(easing) == Preset(easing)
  {
  }

  /** `Timewave.cubicBezier` (timewave.js:247-249). */
  function CubicBezier(x1: real, y1: real, x2: real, y2: real, maxx: real, maxy: real): ControlPoints {
    ControlPoints(maxx * x1, (1.0 - y1) * maxy, maxx * x2, (1.0 - y2) * maxy)
  }

  /** The inverse of `CubicBezier` on a non-degenerate view box: the control
      values a pair of drawn control points stands for. */
  function Normalize(p: ControlPoints, maxx: real, maxy: real): (c: Curve)
    requires maxx != 0.0 && maxy != 0.0
  {
    Curve(p.cx1 / maxx, 1.0 - p.cy1 / maxy, p.cx2 / maxx, 1.0 - p.cy2 / maxy)
  }

  lemma MulDiv(a: real, b: real)
    requires b != 0.0
    ensures a * b / b == a
  {
  }

  /** Drawing and reading back are inverse: the drawn control points give
      the curve back, and every pair of points is the drawing of its curve. */
  lemma CubicBezierRoundTrip(c: Curve, p: ControlPoints, maxx: real, maxy: real)
    requires maxx != 0.0 && maxy != 0.0
    ensures Normalize(CubicBezier(c.x1, c.y1, c.x2, c.y2, maxx, maxy), maxx, maxy) == c
    ensures var n := Normalize(p, maxx, maxy); CubicBezier(n.x1, n.y1, n.x2, n.y2, maxx, maxy) == p
  {
    var q := CubicBezier(c.x1, c.y1, c.x2, c.y2, maxx, maxy);
    assert q.cx1 / maxx == c.x1 && q.cx2 / maxx == c.x2;
    MulDiv(1.0 - c.y1, maxy);
    MulDiv(1.0 - c.y2, maxy);
    var n := Normalize(p, maxx, maxy);
    assert maxx * (p.cx1 / maxx) == p.cx1 && maxx * (p.cx2 / maxx) == p.cx2;
    assert (1.0 - n.y1) * maxy == p.cy1 && (1.0 - n.y2) * maxy == p.cy2;
  }

  /** The y axis is flipped: progress 1 is drawn at the top (0) and progress
      0 at the bottom (`maxy`); an x in [0, 1] lands in [0, maxx], and a y in
      [0, 1] in [0, maxy]. */
  lemma CubicBezierInBox(c: Curve, maxx: real, maxy: real)
    requires InUnitSquare(c) && maxx >= 0.0 && maxy >= 0.0
    ensures var p := CubicBezier(c.x1, c.y1, c.x2, c.y2, maxx, maxy);
            0.0 <= p.cx1 <= maxx && 0.0 <= p.cx2 <= maxx &&
            0.0 <= p.cy1 <= maxy && 0.0 <= p.cy2 <= maxy
    ensures c.y1 == 1.0 ==> CubicBezier(c.x1, c.y1, c.x2, c.y2, maxx, maxy).cy1 == 0.0
    ensures c.y1 == 0.0 ==> CubicBezier(c.x1, c.y1, c.x2, c.y2, maxx, maxy).cy1 == maxy
    ensures c.y2 == 1.0 ==> CubicBezier(c.x1, c.y1, c.x2, c.y2, maxx, maxy).cy2 == 0.0
    ensures c.y2 == 0.0 ==> CubicBezier(c.x1, c.y1, c.x2, c.y2, maxx, maxy).cy2 == maxy
  {
    var p := CubicBezier(c.x1, c.y1, c.x2, c.y2, maxx, maxy);
    assert p.cx1 == maxx * c.x1 <= maxx * 1.0;
    assert p.cx2 == maxx * c.x2 <= maxx * 1.0;
    assert p.cy1 == (1.0 - c.y1) * maxy <= 1.0 * maxy;
    assert p.cy2 == (1.0 - c.y2) * maxy <= 1.0 * maxy;
  }

  /** `maxx = viewBox.width / resultTotalTime * totalTime`
      (timewave.js:215-216); `None` when the window is empty, where the
      result is not a finite number. */
  function MaxX(viewWidth: real, resultTotalTime: real, totalTime: real): (maxx: Option<real>)
    ensures maxx.Some? <==> resultTotalTime != 0.0
  {
    if resultTotalTime == 0.0 then None else Some(viewWidth / resultTotalTime * totalTime)
  }

  /** With the window of `build`, the curve spans ten elevenths of the view
      box, whatever the animation's delay and duration: the rest is the
      window's trailing margin. */
  lemma MaxXIsShareOfWidth(viewWidth: real, duration: real, delay: real)
    requires Timeline.TotalTime(duration, delay) != 0.0
    ensures var totalTime := Timeline.TotalTime(duration, delay);
            MaxX(viewWidth, Timeline.ResultTotalTime(totalTime), totalTime) ==
            Some(viewWidth * 10.0 / 11.0)
  {
    var totalTime := Timeline.TotalTime(duration, delay);
    var window := Timeline.ResultTotalTime(totalTime);
    assert window == totalTime * 1.1;
    var r := viewWidth / window;
    assert r * window == viewWidth;
    assert (r * totalTime) * 1.1 == viewWidth;
    assert r * totalTime == viewWidth * 10.0 / 11.0;
    var m := MaxX(viewWidth, window, totalTime);
    assert m.value == viewWidth * 10.0 / 11.0;
    assert m == Some(m.value);
  }

  /** `updateEasingGraph` without the DOM: the control points that `table`
      gives the named easing, in a view box of `viewWidth` by `viewHeight`,
      and the path drawn through them. The code's own table is
      `SourcePreset`; `Preset` draws the curves the browser animates with.
      `None` when the table has no entry for the name (the code then reads a
      field of `undefined` and throws) or when `maxx` is not a finite
      number. */
  function EasingGraph(table: string -> Option<Curve>, easing: string, viewWidth: real,
                       viewHeight: real, resultTotalTime: real, totalTime: real): (g: Option<EasingPath>)
    ensures g.Some? <==> table(easing).Some? && resultTotalTime != 0.0
  {
    match MaxX(viewWidth, resultTotalTime, totalTime)
    case None => None
    case Some(maxx) =>
      match table(easing)
      case None => None
      case Some(c) =>
        var maxy := viewHeight;
        var p := CubicBezier(c.x1, c.y1, c.x2, c.y2, maxx, maxy);
        Some(EasingPath(Point(0.0, maxy), Point(p.cx1, p.cy1), Point(p.cx2, p.cy2),
                        Point(maxx, 0.0), Point(maxx, maxy)))
  }

  /** The graph exists exactly for the five names and a non-empty window.
      It runs from the bottom left (progress 0 at time 0) to the top right
      (progress 1 at the end of the animation) and drops back to the
      baseline; reading the drawn control points back gives the named
      curve. */
  lemma EasingGraphSpec(easing: string, viewWidth: real, viewHeight: real, totalTime: real)
    ensures var g := EasingGraph(Preset, easing, viewWidth, viewHeight,
                                         Timeline.ResultTotalTime(totalTime), totalTime);
            g.Some? <==> IsPresetName(easing) && totalTime != 0.0
    ensures var g := EasingGraph(Preset, easing, viewWidth, viewHeight,
                                         Timeline.ResultTotalTime(totalTime), totalTime);
            var maxx := viewWidth * 10.0 / 11.0;
            g.Some? ==>
              g.value.start == Point(0.0, viewHeight) && g.value.end == Point(maxx, 0.0) &&
              g.value.foot == Point(maxx, viewHeight) &&
              (viewWidth != 0.0 && viewHeight != 0.0 ==>
                 Normalize(ControlPoints(g.value.c1.x, g.value.c1.y, g.value.c2.x, g.value.c2.y),
                           maxx, viewHeight) == Preset(easing).value)
  {
  }

  /** For a positive animation and a view box of non-negative size, every
      point of the path lies inside the box `[0, maxx] x [0, viewHeight]`. */
  lemma EasingGraphInBox(easing: string, viewWidth: real, viewHeight: real, totalTime: real)
    requires viewWidth >= 0.0 && viewHeight >= 0.0 && totalTime > 0.0
    ensures var g := EasingGraph(Preset, easing, viewWidth, viewHeight,
                                         Timeline.ResultTotalTime(totalTime), totalTime);
            var maxx := viewWidth * 10.0 / 11.0;
            g.Some? ==>
              0.0 <= g.value.c1.x <= maxx && 0.0 <= g.value.c1.y <= viewHeight &&
              0.0 <= g.value.c2.x <= maxx && 0.0 <= g.value.c2.y <= viewHeight
  {
  }

  /** What the table as written draws for `ease`: its first control point
      at the very top of the box, where the CSS curve's lies a tenth of the
      height below it. */
  lemma EaseDrawnAsWritten(viewWidth: real, viewHeight: real, totalTime: real)
    requires totalTime != 0.0
    ensures var window := Timeline.ResultTotalTime(totalTime);
            EasingGraph(SourcePreset, "ease", viewWidth, viewHeight, window, totalTime).value.c1.y == 0.0
    ensures var window := Timeline.ResultTotalTime(totalTime);
            EasingGraph(Preset, "ease", viewWidth, viewHeight, window, totalTime).value.c1.y ==
            viewHeight * 0.9
  {
  }
}
