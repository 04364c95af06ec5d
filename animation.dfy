/**
 * The counting animation (`AnimatedNumber`): how far a count has run after
 * some elapsed time, the ease-out curve applied to that, and the value shown.
 */
module Animation {

  /** The default duration of a count, in milliseconds. */
  const DefaultDuration: real := 1000.0

  function Cube(u: real): real
  {
    u * u * u
  }

  /** The fraction of the animation that has run, capped at 1. */
  function Progress(elapsed: real, duration: real): real
    requires duration > 0.0
  {
    var p := elapsed / duration;
    if p < 1.0 then p else 1.0
  }

  /** Cubic ease-out: one less the cube of what remains. */
  function Eased(p: real): real
  {
    1.0 - Cube(1.0 - p)
  }

  /** The value drawn for a frame: from `start` toward `target` by the eased fraction `e`. */
  function Displayed(start: real, target: real, e: real): real
  {
    start + (target - start) * e
  }

  /** Another frame is requested exactly while the animation has not run its course. */
  predicate Continues(elapsed: real, duration: real)
    requires duration > 0.0
  {
    Progress(elapsed, duration) < 1.0
  }

  /** A product of a positive and a non-negative number is non-negative, and positive when both are. */
  lemma ProductSign(x: real, y: real)
    requires x > 0.0 && y >= 0.0
    ensures x * y >= 0.0
    ensures y > 0.0 ==> x * y > 0.0
  {
  }

  /** On `[0, 1]`, the cube is at most its argument. */
  lemma CubeBelow(u: real)
    requires 0.0 <= u <= 1.0
    ensures 0.0 <= Cube(u) <= u
  {
    assert 0.0 <= u * u <= u by {
      assert u * u <= u * 1.0;
    }
    assert u * u * u <= u * u * 1.0;
  }

  /** The cube is strictly increasing on the non-negative reals. */
  lemma CubeIncreasing(a: real, b: real)
    requires 0.0 <= a < b
    ensures Cube(a) < Cube(b)
  {
    var d, q := b - a, a * a + a * b + b * b;
    ProductSign(b, a);
    ProductSign(b, b);
    assert a * a >= 0.0;
    ProductSign(d, q);
    assert d * q == b * b * b - a * a * a;
  }

  /** Elapsed time from the first frame on gives a progress in `[0, 1]` that reaches 1 exactly once the duration has passed. */
  lemma ProgressBounds(elapsed: real, duration: real)
    requires elapsed >= 0.0 && duration > 0.0
    ensures 0.0 <= Progress(elapsed, duration) <= 1.0
    ensures Progress(elapsed, duration) == 1.0 <==> elapsed >= duration
    ensures Continues(elapsed, duration) <==> elapsed < duration
  {
    var p := elapsed / duration;
    assert p * duration == elapsed;
    if p < 1.0 {
      ProductSign(duration, 1.0 - p);
      assert duration * (1.0 - p) == duration - elapsed;
    } else {
      ProductSign(duration, p - 1.0);
      assert duration * (p - 1.0) == elapsed - duration;
    }
  }

  /** The curve starts at 0 and ends at 1. */
  lemma EasedEndpoints()
    ensures Eased(0.0) == 0.0 && Eased(1.0) == 1.0
  {
    assert Cube(1.0) == 1.0 && Cube(0.0) == 0.0;
  }

  /** On `[0, 1]` the curve stays within `[0, 1]` and is never behind a linear count. */
  lemma EasedBounds(p: real)
    requires 0.0 <= p <= 1.0
    ensures p <= Eased(p) <= 1.0
  {
    CubeBelow(1.0 - p);
  }

  /** The curve only rises: a later frame is never drawn short of an earlier one. */
  lemma EasedIncreasing(p: real, q: real)
    requires 0.0 <= p < q <= 1.0
    ensures Eased(p) < Eased(q)
  {
    CubeIncreasing(1.0 - q, 1.0 - p);
  }

  /** A non-negative amount scaled by a fraction in `[0, 1]` stays between 0 and that amount. */
  lemma ScaledBetween(k: real, e: real)
    requires k >= 0.0 && 0.0 <= e <= 1.0
    ensures 0.0 <= k * e <= k
  {
    if k > 0.0 {
      ProductSign(k, e);
      ProductSign(k, 1.0 - e);
      assert k * (1.0 - e) == k - k * e;
    }
  }

  /** The drawn value runs from the start to the target, never outside them, as the eased fraction runs over `[0, 1]`. */
  lemma DisplayedBetween(start: real, target: real, e: real)
    requires 0.0 <= e <= 1.0
    ensures Displayed(start, target, 0.0) == start
    ensures Displayed(start, target, 1.0) == target
    ensures start <= target ==> start <= Displayed(start, target, e) <= target
    ensures target <= start ==> target <= Displayed(start, target, e) <= start
  {
    assert Displayed(start, target, 0.0) == start + (target - start) * 0.0;
    assert Displayed(start, target, 1.0) == start + (target - start) * 1.0;
    var k := target - start;
    assert Displayed(start, target, e) == start + k * e;
    if start <= target {
      ScaledBetween(k, e);
    } else {
      ScaledBetween(-k, e);
      assert k * e == -((-k) * e);
    }
  }

  /** Every frame from the first on draws a value between the start and the target. */
  lemma FrameBetween(start: real, target: real, elapsed: real, duration: real)
    requires elapsed >= 0.0 && duration > 0.0
    ensures var shown := Displayed(start, target, Eased(Progress(elapsed, duration)));
      (start <= target ==> start <= shown <= target) && (target <= start ==> target <= shown <= start)
  {
    var p := Progress(elapsed, duration);
    ProgressBounds(elapsed, duration);
    EasedBounds(p);
    DisplayedBetween(start, target, Eased(p));
  }

  /** The last frame: once the duration has passed, the target is drawn and no frame follows. */
  lemma FinalFrame(start: real, target: real, elapsed: real, duration: real)
    requires duration > 0.0 && elapsed >= duration
    ensures Displayed(start, target, Eased(Progress(elapsed, duration))) == target
    ensures !Continues(elapsed, duration)
  {
    ProgressBounds(elapsed, duration);
    EasedEndpoints();
    DisplayedBetween(start, target, 1.0);
  }
}
