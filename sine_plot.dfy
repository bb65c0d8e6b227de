/**
 * The plot page: draws y = sin(x) on [-2*pi, 2*pi] x [-1, 1] into a canvas
 * with a 40-pixel margin, from a user-chosen number of sample points. Only
 * the coordinates and the path commands are modelled, not the rendering.
 */
module SinePlot {
  import opened JsRuntime
  import opened JsStrings

  /** The margin, in pixels, on every side of the plot. */
  const Pad: real := 40.0

  const YMin: real := -1.0
  const YMax: real := 1.0

  function XMin(pi: real): real { -2.0 * pi }
  function XMax(pi: real): real { 2.0 * pi }

  datatype Point = Point(px: real, py: real)

  /** Pixels per unit of x: the width between the margins over the x range. */
  function ScaleX(w: nat, pi: real): real
    requires pi > 0.0
  {
    (w as real - 2.0 * Pad) / (XMax(pi) - XMin(pi))
  }

  /** Pixels per unit of y: the height between the margins over the y range. */
  function ScaleY(h: nat): real
  {
    (h as real - 2.0 * Pad) / (YMax - YMin)
  }

  /**
   * `mapToCanvas`: the affine map from plot coordinates to canvas pixels on
   * a w-by-h canvas. px depends on x only and py on y only. The plot range
   * fills the canvas between the margins: X_MIN and X_MAX land on the left
   * and right margins, Y_MIN on the bottom one and Y_MAX on the top one,
   * since canvas y grows downwards.
   */
  function MapToCanvas(x: real, y: real, w: nat, h: nat, pi: real): (p: Point)
    requires pi > 0.0
    ensures x == XMin(pi) ==> p.px == Pad
    ensures x == XMax(pi) ==> p.px == w as real - Pad
    ensures y == YMin ==> p.py == h as real - Pad
    ensures y == YMax ==> p.py == Pad
    ensures p.px - Pad == (x - XMin(pi)) * ScaleX(w, pi)
    ensures h as real - Pad - p.py == (y - YMin) * ScaleY(h)
  {
    var sx, sy := ScaleX(w, pi), ScaleY(h);
    assert (XMax(pi) - XMin(pi)) * sx == w as real - 2.0 * Pad;
    assert (YMax - YMin) * sy == h as real - 2.0 * Pad;
    assert x == XMin(pi) ==> (x - XMin(pi)) * sx == 0.0;
    assert y == YMin ==> (y - YMin) * sy == 0.0;
    Point(Pad + (x - XMin(pi)) * sx, h as real - Pad - (y - YMin) * sy)
  }

  /**
   * On a canvas larger than its margins, px strictly grows with x and py
   * strictly falls as y grows; neither coordinate depends on the other input.
   */
  lemma MapToCanvasMonotone(x1: real, y1: real, x2: real, y2: real, w: nat, h: nat, pi: real)
    requires pi > 0.0 && w as real > 2.0 * Pad && h as real > 2.0 * Pad
    ensures x1 < x2 ==> MapToCanvas(x1, y1, w, h, pi).px < MapToCanvas(x2, y2, w, h, pi).px
    ensures y1 < y2 ==> MapToCanvas(x1, y1, w, h, pi).py > MapToCanvas(x2, y2, w, h, pi).py
    ensures x1 == x2 ==> MapToCanvas(x1, y1, w, h, pi).px == MapToCanvas(x2, y2, w, h, pi).px
    ensures y1 == y2 ==> MapToCanvas(x1, y1, w, h, pi).py == MapToCanvas(x2, y2, w, h, pi).py
  {
    var sx, sy := ScaleX(w, pi), ScaleY(h);
    assert sx > 0.0 && sy > 0.0;
    if x1 < x2 {
      ScaledOffsetGrows(x1, x2, XMin(pi), sx);
    }
    if y1 < y2 {
      ScaledOffsetGrows(y1, y2, YMin, sy);
      ShiftedOrderReverses(h as real - Pad, (y1 - YMin) * sy, (y2 - YMin) * sy);
    }
  }

  lemma ShiftedOrderReverses(c: real, d1: real, d2: real)
    requires d1 < d2
    ensures c - d1 > c - d2
  {
  }

  lemma ScaledOffsetGrows(a: real, b: real, o: real, k: real)
    requires a < b && k > 0.0
    ensures (a - o) * k < (b - o) * k
  {
    assert (b - o) * k - (a - o) * k == (b - a) * k;
    PositiveProduct(b - a, k);
  }

  lemma PositiveProduct(a: real, b: real)
    requires a > 0.0 && b > 0.0
    ensures a * b > 0.0
  {
  }

  /** The axes cross at the canvas centre: the origin maps to (w/2, h/2). */
  lemma OriginAtCentre(w: nat, h: nat, pi: real)
    requires pi > 0.0
    ensures MapToCanvas(0.0, 0.0, w, h, pi) == Point(w as real / 2.0, h as real / 2.0)
  {
    assert (0.0 - XMin(pi)) * ScaleX(w, pi) == (w as real - 2.0 * Pad) / 2.0;
    assert (0.0 - YMin) * ScaleY(h) == (h as real - 2.0 * Pad) / 2.0;
  }

  /** What a failed draw reports in the status line. */
  datatype Fault = CanvasUnavailable | BadPointCount

  /** The point count used when the page has no points input. */
  const DefaultPoints: real := 1200.0

  /** The smallest point count accepted. */
  const MinPoints: real := 50.0

  /**
   * The checks at the start of `draw`: a missing canvas or 2D context is an
   * Error, before the count is read. The count is `Number(pointsInput?.value
   * ?? 1200)`; one that is not finite or is below 50 is a RangeError, raised
   * before anything is cleared or drawn. A blank input reads as 0 and fails.
   */
  function PointCount(canvasReady: bool, pointsInput: Option<string>, literal: string -> Number): (r: Result<real, Fault>)
    ensures !canvasReady ==> r == Err(Error, CanvasUnavailable)
    ensures canvasReady && pointsInput.None? ==> r == Ok(DefaultPoints)
    ensures canvasReady && pointsInput.Some? ==>
              (r.Ok? <==> StringToNumber(pointsInput.value, literal).Finite? && StringToNumber(pointsInput.value, literal).r >= MinPoints)
    ensures canvasReady && pointsInput.Some? && r.Ok? ==> r.value == StringToNumber(pointsInput.value, literal).r
    ensures canvasReady && r.Err? ==> r == Err(RangeError, BadPointCount)
    ensures r.Ok? ==> r.value >= MinPoints
  {
    if !canvasReady then Err(Error, CanvasUnavailable)
    else
      var n := match pointsInput
        case None => Finite(DefaultPoints)
        case Some(text) => StringToNumber(text, literal);
      if n.NonFinite? || n.r < MinPoints then Err(RangeError, BadPointCount)
      else Ok(n.r)
  }

  /** How many times `for (let i = 0; i < n; i++)` runs: the least natural number not below n. */
  function Iterations(n: real): (k: nat)
    ensures (k as real) >= n
    ensures k > 0 ==> ((k - 1) as real) < n
  {
    if n <= 0.0 then 0
    else if n.Floor as real == n then n.Floor
    else n.Floor + 1
  }

  /** The loop test `i < n` holds exactly for the first Iterations(n) values of i. */
  lemma IterationsCount(n: real, i: nat)
    ensures (i as real) < n <==> i < Iterations(n)
  {
    var k := Iterations(n);
    if i < k {
      assert (i as real) <= ((k - 1) as real);
    }
  }

  /** The abscissa of sample i: X_MIN + (i / (n - 1)) * (X_MAX - X_MIN). */
  function SampleX(i: nat, n: real, pi: real): real
    requires n >= MinPoints
  {
    XMin(pi) + (i as real / (n - 1.0)) * (XMax(pi) - XMin(pi))
  }

  /**
   * The abscissae `drawSin` visits, in order: at least one, starting at
   * X_MIN and strictly increasing.
   */
  function Samples(n: real, pi: real): (xs: seq<real>)
    requires n >= MinPoints && pi > 0.0
    ensures |xs| == Iterations(n) > 0
    ensures xs[0] == XMin(pi)
    ensures forall i, j :: 0 <= i < j < |xs| ==> xs[i] < xs[j]
    ensures forall i :: 0 <= i < |xs| ==> xs[i] == SampleX(i, n, pi)
  {
    SampleXIncreasing(n, pi);
    seq(Iterations(n), i requires 0 <= i < Iterations(n) => SampleX(i, n, pi))
  }

  lemma SampleXStrictlyIncreasing(i: nat, j: nat, n: real, pi: real)
    requires n >= MinPoints && pi > 0.0 && i < j
    ensures SampleX(i, n, pi) < SampleX(j, n, pi)
  {
    var d := n - 1.0;
    assert j as real / d - i as real / d == (j - i) as real / d;
    PositiveProduct((j - i) as real / d, XMax(pi) - XMin(pi));
  }

  lemma SampleXIncreasing(n: real, pi: real)
    requires n >= MinPoints && pi > 0.0
    ensures SampleX(0, n, pi) == XMin(pi)
    ensures forall i: nat, j: nat :: i < j ==> SampleX(i, n, pi) < SampleX(j, n, pi)
  {
    forall i: nat, j: nat | i < j ensures SampleX(i, n, pi) < SampleX(j, n, pi) {
      SampleXStrictlyIncreasing(i, j, n, pi);
    }
  }

  /**
   * For a whole number n of at least 50 points there are n samples, the last
   * one exactly X_MAX, and all of them lie within [X_MIN, X_MAX].
   */
  lemma SamplesSpanRange(n: real, pi: real)
    requires n >= MinPoints && pi > 0.0 && n.Floor as real == n
    ensures |Samples(n, pi)| == n.Floor
    ensures Samples(n, pi)[|Samples(n, pi)| - 1] == XMax(pi)
    ensures forall i :: 0 <= i < |Samples(n, pi)| ==> XMin(pi) <= Samples(n, pi)[i] <= XMax(pi)
  {
    var last := n.Floor - 1;
    assert Iterations(n) == n.Floor;
    assert SampleX(last, n, pi) == XMax(pi) by {
      assert last as real == n - 1.0;
      assert last as real / (n - 1.0) == 1.0;
    }
    forall i: nat | i <= last ensures XMin(pi) <= SampleX(i, n, pi) <= XMax(pi) {
      if i > 0 { SampleXStrictlyIncreasing(0, i, n, pi); }
      if i < last { SampleXStrictlyIncreasing(i, last, n, pi); }
    }
  }

  /**
   * A fractional count passes validation too, and then the loop runs
   * ceil(n) times and the last sample lies beyond X_MAX.
   */
  lemma FractionalCountOvershoots(n: real, pi: real)
    requires n >= MinPoints && pi > 0.0 && n.Floor as real != n
    ensures Samples(n, pi)[|Samples(n, pi)| - 1] > XMax(pi)
  {
    var last := Iterations(n) - 1;
    var d := n - 1.0;
    assert last as real > d;
    assert last as real / d > 1.0;
    assert (last as real / d - 1.0) * (XMax(pi) - XMin(pi)) > 0.0 by {
      PositiveProduct(last as real / d - 1.0, XMax(pi) - XMin(pi));
    }
  }

  /** The path commands `drawSin` issues: move to the first point, a line to every later one. */
  datatype PathCommand = MoveTo(p: Point) | LineTo(p: Point)

  /** The canvas point of the curve above abscissa x. */
  function CurvePoint(x: real, w: nat, h: nat, m: HostMath): Point
    requires m.pi > 0.0
  {
    MapToCanvas(x, m.sin(x), w, h, m.pi)
  }

  /** The command for sample i: a move to the first point, a line to every later one. */
  function CommandAt(i: nat, n: real, w: nat, h: nat, m: HostMath): PathCommand
    requires n >= MinPoints && m.pi > 0.0
  {
    var p := CurvePoint(SampleX(i, n, m.pi), w, h, m);
    if i == 0 then MoveTo(p) else LineTo(p)
  }

  /**
   * The path of the curve through the samples of a count of n points: one
   * command per sample, a move to the point above X_MIN first and a line to
   * each later sample point after it.
   */
  function Curve(n: real, w: nat, h: nat, m: HostMath): (path: seq<PathCommand>)
    requires n >= MinPoints && m.pi > 0.0
    ensures |path| == |Samples(n, m.pi)| == Iterations(n)
    ensures path[0] == MoveTo(CurvePoint(XMin(m.pi), w, h, m))
    ensures forall i :: 0 < i < |path| ==> path[i] == LineTo(CurvePoint(Samples(n, m.pi)[i], w, h, m))
    ensures forall i :: 0 <= i < |path| ==> path[i] == CommandAt(i, n, w, h, m)
  {
    assert SampleX(0, n, m.pi) == XMin(m.pi);
    seq(Iterations(n), i requires 0 <= i < Iterations(n) => CommandAt(i, n, w, h, m))
  }

  /** On a canvas larger than its margins the curve runs strictly left to right. */
  lemma CurveRunsLeftToRight(n: real, w: nat, h: nat, m: HostMath)
    requires n >= MinPoints && m.pi > 0.0 && w as real > 2.0 * Pad && h as real > 2.0 * Pad
    ensures forall i, j :: 0 <= i < j < |Curve(n, w, h, m)| ==> Curve(n, w, h, m)[i].p.px < Curve(n, w, h, m)[j].p.px
  {
    var path := Curve(n, w, h, m);
    forall i, j | 0 <= i < j < |path| ensures path[i].p.px < path[j].p.px {
      var xi, xj := SampleX(i, n, m.pi), SampleX(j, n, m.pi);
      SampleXStrictlyIncreasing(i, j, n, m.pi);
      MapToCanvasMonotone(xi, m.sin(xi), xj, m.sin(xj), w, h, m.pi);
    }
  }

  /** `drawSin`: the counting loop, issuing one path command per sample. */
  method DrawSin(n: real, w: nat, h: nat, m: HostMath) returns (path: seq<PathCommand>)
    requires n >= MinPoints && m.pi > 0.0
    ensures path == Curve(n, w, h, m)
  {
    path := [];
    var i: nat := 0;
    IterationsCount(n, i);
    while (i as real) < n
      invariant i <= Iterations(n)
      invariant |path| == i
      invariant forall k :: 0 <= k < i ==> path[k] == CommandAt(k, n, w, h, m)
      decreases Iterations(n) - i
    {
      var t := i as real / (n - 1.0);
      var x := XMin(m.pi) + t * (XMax(m.pi) - XMin(m.pi));
      assert x == SampleX(i, n, m.pi);
      var y := m.sin(x);
      var p := MapToCanvas(x, y, w, h, m.pi);
      assert p == CurvePoint(x, w, h, m);
      if i == 0 {
        path := path + [MoveTo(p)];
      } else {
        path := path + [LineTo(p)];
      }
      i := i + 1;
      IterationsCount(n, i);
    }
  }

  /** A straight line stroked from one canvas point to another. */
  datatype Segment = Segment(from: Point, to: Point)

  /**
   * `drawAxes`: the x axis is the line y = 0 across the x range, the y axis
   * the line x = 0 up the y range. The x axis runs horizontally through the
   * canvas centre from the left margin to the right one, and the y axis
   * vertically through the centre from the bottom margin to the top one.
   */
  function Axes(w: nat, h: nat, pi: real): (axes: seq<Segment>)
    requires pi > 0.0
    ensures axes == [Segment(Point(Pad, h as real / 2.0), Point(w as real - Pad, h as real / 2.0)),
                     Segment(Point(w as real / 2.0, h as real - Pad), Point(w as real / 2.0, Pad))]
  {
    OriginAtCentre(w, h, pi);
    [Segment(MapToCanvas(XMin(pi), 0.0, w, h, pi), MapToCanvas(XMax(pi), 0.0, w, h, pi)),
     Segment(MapToCanvas(0.0, YMin, w, h, pi), MapToCanvas(0.0, YMax, w, h, pi))]
  }

  /** What a successful draw puts on the cleared canvas: the axes, then the curve. */
  datatype Plot = Plot(axes: seq<Segment>, curve: seq<PathCommand>)

  /**
   * `draw`: validate, then draw. On a failed check nothing is drawn and the
   * error is reported; otherwise the axes and the curve are drawn with the
   * validated count.
   */
  method Draw(canvasReady: bool, pointsInput: Option<string>, w: nat, h: nat, literal: string -> Number, m: HostMath)
    returns (r: Result<Plot, Fault>)
    requires m.pi > 0.0
    ensures var c := PointCount(canvasReady, pointsInput, literal);
      && (c.Err? ==> r == Err(c.kind, c.info))
      && (c.Ok? ==> r == Ok(Plot(Axes(w, h, m.pi), Curve(c.value, w, h, m))))
  {
    var c := PointCount(canvasReady, pointsInput, literal);
    if c.Err? {
      return Err(c.kind, c.info);
    }
    var axes := Axes(w, h, m.pi);
    var path := DrawSin(c.value, w, h, m);
    return Ok(Plot(axes, path));
  }
}
