/** The linear-function lesson (`LinearLesson`): the line y = slope * x + intercept and its marked points. */
module Linear {

  /** A marked point; its colour and label flag are presentation only. */
  datatype Point = Point(x: int, y: real)

  /** A segment between two plane coordinates. */
  datatype Segment = Segment(x1: int, y1: real, x2: int, y2: real)

  /** The x positions the loop visits: -4 to 4 in steps of 2. */
  const SampleXs: seq<int> := [-4, -2, 0, 2, 4]

  /** The visible y range, that of the default coordinate plane. */
  const YLow: real := -5.0
  const YHigh: real := 5.0

  /** The line's height at x: y = slope * x + intercept. */
  function LineY(slope: real, intercept: int, x: int): real
  {
    slope * x as real + intercept as real
  }

  predicate Visible(y: real)
  {
    YLow <= y <= YHigh
  }

  /**
   * The loop that fills `points`: a point at each sampled x whose y is
   * visible; y values outside the plane are dropped, not clamped.
   */
  method SamplePoints(slope: real, intercept: int) returns (points: seq<Point>)
    ensures forall p :: p in points ==> p.x in SampleXs && p.y == LineY(slope, intercept, p.x) && Visible(p.y)
    ensures forall x :: x in SampleXs && Visible(LineY(slope, intercept, x)) ==> Point(x, LineY(slope, intercept, x)) in points
    ensures forall i, j :: 0 <= i < j < |points| ==> points[i].x < points[j].x
  {
    points := [];
    var x := -4;
    while x <= 4
      invariant -4 <= x <= 6 && x % 2 == 0
      invariant forall p :: p in points ==> p.x in SampleXs && p.x < x && p.y == LineY(slope, intercept, p.x) && Visible(p.y)
      invariant forall x' :: x' in SampleXs && x' < x && Visible(LineY(slope, intercept, x')) ==> Point(x', LineY(slope, intercept, x')) in points
      invariant forall i, j :: 0 <= i < j < |points| ==> points[i].x < points[j].x
    {
      assert x in SampleXs;
      var y := LineY(slope, intercept, x);
      if YLow <= y <= YHigh {
        points := points + [Point(x, y)];
      }
      x := x + 2;
    }
  }

  /** `linePoints`: the drawn line runs across the whole plane, from x = -5 to x = 5. */
  function LineEndpoints(slope: real, intercept: int): (seg: Segment)
    ensures seg.x1 == -5 && seg.x2 == 5
    ensures seg.y1 == LineY(slope, intercept, seg.x1) && seg.y2 == LineY(slope, intercept, seg.x2)
  {
    Segment(-5, LineY(slope, intercept, -5), 5, LineY(slope, intercept, 5))
  }

  /** The caption under the sliders. */
  datatype Trend = Rises | Falls | Horizontal

  function TrendOf(slope: real): Trend
  {
    if slope > 0.0 then Rises else if slope < 0.0 then Falls else Horizontal
  }

  /**
   * The captions agree with the drawn line: it rises iff its right end is
   * higher, and it crosses the y axis (its midpoint, x = 0) at the intercept.
   */
  lemma CaptionsMatchLine(slope: real, intercept: int)
    ensures var seg := LineEndpoints(slope, intercept);
      && (TrendOf(slope) == Rises <==> seg.y2 > seg.y1)
      && (TrendOf(slope) == Falls <==> seg.y2 < seg.y1)
      && (TrendOf(slope) == Horizontal <==> seg.y2 == seg.y1)
      && (seg.y1 + seg.y2) / 2.0 == intercept as real
      && (seg.x1 + seg.x2) == 0
  {
  }

  /** Every sampled point lies on the drawn line. */
  lemma PointsOnLine(slope: real, intercept: int, p: Point)
    requires p.y == LineY(slope, intercept, p.x)
    requires -5 <= p.x <= 5
    ensures var seg := LineEndpoints(slope, intercept);
      (p.y - seg.y1) * (seg.x2 - seg.x1) as real == (seg.y2 - seg.y1) * (p.x - seg.x1) as real
  {
  }
}
