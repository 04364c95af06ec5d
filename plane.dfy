/**
 * The coordinate plane (`CoordinatePlane`): the affine maps from a logical
 * range to the 400 x 400 drawing, with the y axis pointing up, and the
 * integer grid lines drawn across it.
 */
module CoordinatePlane {

  const Width: real := 400.0
  const Height: real := 400.0
  const Padding: real := 40.0

  /** A logical axis range `[lo, hi]`; the planes in the app use `[-5, 5]` on both axes. */
  datatype AxisRange = AxisRange(lo: int, hi: int)

  const DefaultRange: AxisRange := AxisRange(-5, 5)

  /** The drawable extent of an axis: the dimension less the padding on both sides. */
  function Span(dimension: real): real
  {
    dimension - 2.0 * Padding
  }

  /** Logical x to pixels: the range is stretched over the drawable width, from the left padding. */
  function XScale(r: AxisRange, x: real): real
    requires r.lo != r.hi
  {
    Padding + (x - r.lo as real) / (r.hi - r.lo) as real * Span(Width)
  }

  /** Logical y to pixels: as for x, but measured up from the bottom padding. */
  function YScale(r: AxisRange, y: real): real
    requires r.lo != r.hi
  {
    Height - Padding - (y - r.lo as real) / (r.hi - r.lo) as real * Span(Height)
  }

  /** Pixels back to logical x: the inverse of `XScale`. */
  function XUnscale(r: AxisRange, px: real): real
  {
    r.lo as real + (px - Padding) / Span(Width) * (r.hi - r.lo) as real
  }

  /** Pixels back to logical y: the inverse of `YScale`. */
  function YUnscale(r: AxisRange, py: real): real
  {
    r.lo as real + (Height - Padding - py) / Span(Height) * (r.hi - r.lo) as real
  }

  /** A fraction of an extent, scaled back up by that extent, is the distance it came from. */
  lemma FractionRoundTrip(d: real, n: real, span: real)
    requires n != 0.0 && span != 0.0
    ensures d / n * span / span * n == d
  {
    var t := d / n;
    assert t * n == d;
    assert t * span / span == t;
  }

  /** `XUnscale` undoes `XScale`, and `XScale` undoes `XUnscale`. */
  lemma XScaleRoundTrip(r: AxisRange, x: real, px: real)
    requires r.lo != r.hi
    ensures XUnscale(r, XScale(r, x)) == x
    ensures XScale(r, XUnscale(r, px)) == px
  {
    var n := (r.hi - r.lo) as real;
    FractionRoundTrip(x - r.lo as real, n, Span(Width));
    FractionRoundTrip(px - Padding, Span(Width), n);
  }

  /** `YUnscale` undoes `YScale`, and `YScale` undoes `YUnscale`. */
  lemma YScaleRoundTrip(r: AxisRange, y: real, py: real)
    requires r.lo != r.hi
    ensures YUnscale(r, YScale(r, y)) == y
    ensures YScale(r, YUnscale(r, py)) == py
  {
    var n := (r.hi - r.lo) as real;
    FractionRoundTrip(y - r.lo as real, n, Span(Height));
    FractionRoundTrip(Height - Padding - py, Span(Height), n);
  }

  /** The ends of the range land on the padding: left and right for x, bottom and top for y. */
  lemma ScaleEndpoints(r: AxisRange)
    requires r.lo != r.hi
    ensures XScale(r, r.lo as real) == Padding
    ensures XScale(r, r.hi as real) == Width - Padding
    ensures YScale(r, r.lo as real) == Height - Padding
    ensures YScale(r, r.hi as real) == Padding
  {
    var n := (r.hi - r.lo) as real;
    assert (r.hi as real - r.lo as real) / n == 1.0;
  }

  /** For a proper range, a larger logical value lies further right and further up (a smaller pixel y). */
  lemma ScaleMonotone(r: AxisRange, a: real, b: real)
    requires r.lo < r.hi && a < b
    ensures XScale(r, a) < XScale(r, b)
    ensures YScale(r, a) > YScale(r, b)
  {
    var n := (r.hi - r.lo) as real;
    assert (a - r.lo as real) / n < (b - r.lo as real) / n;
  }

  /** For a proper range, values inside it are drawn inside the padded area. */
  lemma ScaleInsidePlot(r: AxisRange, v: real)
    requires r.lo < r.hi && r.lo as real <= v <= r.hi as real
    ensures Padding <= XScale(r, v) <= Width - Padding
    ensures Padding <= YScale(r, v) <= Height - Padding
  {
    var n := (r.hi - r.lo) as real;
    var t := (v - r.lo as real) / n;
    assert 0.0 <= t <= 1.0 by {
      assert t * n == v - r.lo as real;
    }
  }

  /** On the app's planes the origin sits at the centre of the drawing. */
  lemma DefaultOriginCentred()
    ensures XScale(DefaultRange, 0.0) == Width / 2.0
    ensures YScale(DefaultRange, 0.0) == Height / 2.0
  {
  }

  /**
   * The grid lines of an axis: one per integer from `lo` counting up, as
   * many as `hi - lo + 1`; a reversed range asks for a negative length,
   * which builds no lines.
   */
  function GridValues(r: AxisRange): (g: seq<int>)
    ensures |g| == if r.hi < r.lo then 0 else r.hi - r.lo + 1
    ensures forall i :: 0 <= i < |g| ==> g[i] == r.lo + i
    ensures forall v :: v in g <==> r.lo <= v <= r.hi
  {
    var n := if r.hi < r.lo then 0 else r.hi - r.lo + 1;
    var g := seq(n, i => r.lo + i);
    forall v | r.lo <= v <= r.hi ensures v in g {
      assert g[v - r.lo] == v;
    }
    g
  }

  /** Every grid line of a proper range is drawn inside the padded area, axis line included. */
  lemma GridInsidePlot(r: AxisRange)
    requires r.lo < r.hi
    ensures forall v :: v in GridValues(r) ==> Padding <= XScale(r, v as real) <= Width - Padding
    ensures forall v :: v in GridValues(r) ==> Padding <= YScale(r, v as real) <= Height - Padding
    ensures (0 in GridValues(r)) <==> r.lo <= 0 <= r.hi
  {
    forall v | v in GridValues(r)
      ensures Padding <= XScale(r, v as real) <= Width - Padding
      ensures Padding <= YScale(r, v as real) <= Height - Padding
    {
      ScaleInsidePlot(r, v as real);
    }
  }

  /** The app's planes draw eleven lines per axis, -5 through 5. */
  lemma DefaultGrid()
    ensures GridValues(DefaultRange) == [-5, -4, -3, -2, -1, 0, 1, 2, 3, 4, 5]
  {
  }
}
