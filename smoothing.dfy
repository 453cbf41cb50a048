/**
  The smoother of tracker.cc: a gain chosen from how far the box centre
  moved, relative to the size of the smoothed box, and an exponential blend
  of each box field with that gain.
 */
module Smoothing {
  import opened Geometry

  /** `SMOOTH_ALPHA`: the gain before any blend has happened. */
  const SMOOTH_ALPHA := 0.30

  /** The gain for a normalised centre shift: larger jumps follow the detection more closely. */
  function GainForShift(shiftNorm: real): real
  {
    if shiftNorm > 0.40 then 0.70
    else if shiftNorm > 0.25 then 0.55
    else if shiftNorm > 0.12 then 0.40
    else 0.20
  }

  /** The larger side of the smoothed box, the shift's denominator. */
  function MaxDim(prev: Rect2f): real
  {
    MaxF(prev.width, prev.height)
  }

  /** Squared distance between the centres of two boxes. */
  function CentreDistSq(prev: Rect2f, det: Rect2f): (d2: real)
    ensures d2 >= 0.0
  {
    var dx := (det.x + det.width * 0.5) - (prev.x + prev.width * 0.5);
    var dy := (det.y + det.height * 0.5) - (prev.y + prev.height * 0.5);
    dx * dx + dy * dy
  }

  /**
    The adaptive gain, computed without a square root: for maxDim > 1,
    `dist / maxDim > t` is decided as `dist^2 > (t * maxDim)^2`. A smoothed
    box whose larger side is at most 1 counts as a shift of 0.
   */
  function AdaptiveAlpha(prev: Rect2f, det: Rect2f): real
  {
    var m := MaxDim(prev);
    if m > 1.0 then
      var d2 := CentreDistSq(prev, det);
      if d2 > (0.40 * m) * (0.40 * m) then 0.70
      else if d2 > (0.25 * m) * (0.25 * m) then 0.55
      else if d2 > (0.12 * m) * (0.12 * m) then 0.40
      else 0.20
    else 0.20
  }

  /** `alpha * d + (1 - alpha) * o`, one field of the blend. */
  function Mix(alpha: real, d: real, o: real): real
  {
    alpha * d + (1.0 - alpha) * o
  }

  /** Each of x, y, width and height moved from the old box toward the detection by the gain. */
  function Blend(alpha: real, det: Rect2f, prev: Rect2f): Rect2f
  {
    Rect2f(Mix(alpha, det.x, prev.x), Mix(alpha, det.y, prev.y),
           Mix(alpha, det.width, prev.width), Mix(alpha, det.height, prev.height))
  }

  /** Every gain the ladder can give is one of the four levels, all in (0, 1). */
  lemma GainLevels(prev: Rect2f, det: Rect2f)
    ensures AdaptiveAlpha(prev, det) in {0.20, 0.40, 0.55, 0.70}
    ensures 0.0 < AdaptiveAlpha(prev, det) < 1.0
    ensures MaxDim(prev) <= 1.0 ==> AdaptiveAlpha(prev, det) == 0.20
  {
  }

  lemma ProductPositive(a: real, b: real)
    requires a > 0.0 && b > 0.0
    ensures a * b > 0.0
  {
  }

  lemma ProductNonNegative(a: real, b: real)
    requires a >= 0.0 && b >= 0.0
    ensures a * b >= 0.0
  {
  }

  /** For non-negative a and b, a * a > b * b exactly when a > b. */
  lemma SquareGreater(a: real, b: real)
    requires a >= 0.0 && b >= 0.0
    ensures a * a > b * b <==> a > b
  {
    if a > b {
      var p := (a - b) * (a + b);
      ProductPositive(a - b, a + b);
      assert p > 0.0;
      assert a * a - b * b == p;
    } else {
      var p := (b - a) * (a + b);
      ProductNonNegative(b - a, a + b);
      assert p >= 0.0;
      assert b * b - a * a == p;
    }
  }

  /** Scaling by a positive factor keeps the order. */
  lemma ScaleGreater(m: real, s: real, t: real)
    requires m > 0.0
    ensures s * m > t * m <==> s > t
  {
    if s > t {
      ProductPositive(s - t, m);
      assert s * m - t * m == (s - t) * m;
    } else {
      ProductNonNegative(t - s, m);
      assert t * m - s * m == (t - s) * m;
    }
  }

  /** With `s * m` the distance, comparing squared distances decides `s > t`. */
  lemma ThresholdBySquares(d2: real, m: real, s: real, t: real)
    requires m > 0.0 && s >= 0.0 && t >= 0.0
    requires (s * m) * (s * m) == d2
    ensures d2 > (t * m) * (t * m) <==> s > t
  {
    ProductNonNegative(s, m);
    ProductNonNegative(t, m);
    SquareGreater(s * m, t * m);
    ScaleGreater(m, s, t);
  }

  /**
    The square-root-free gain agrees with the ladder applied to
    `shiftNorm = |cNew - cOld| / maxDim` whenever the smoothed box's larger
    side exceeds 1 (here `shiftNorm * maxDim` is the centre distance).
   */
  lemma AdaptiveAlphaIsGainForShift(prev: Rect2f, det: Rect2f, shiftNorm: real)
    requires MaxDim(prev) > 1.0
    requires shiftNorm >= 0.0
    requires (shiftNorm * MaxDim(prev)) * (shiftNorm * MaxDim(prev)) == CentreDistSq(prev, det)
    ensures AdaptiveAlpha(prev, det) == GainForShift(shiftNorm)
  {
    var m := MaxDim(prev);
    var d2 := CentreDistSq(prev, det);
    ThresholdBySquares(d2, m, shiftNorm, 0.40);
    ThresholdBySquares(d2, m, shiftNorm, 0.25);
    ThresholdBySquares(d2, m, shiftNorm, 0.12);
  }

  /** A larger normalised shift never gets a smaller gain. */
  lemma GainMonotone(s1: real, s2: real)
    requires s1 <= s2
    ensures GainForShift(s1) <= GainForShift(s2)
  {
  }

  /** With a gain in [0, 1], a blended field lies between the old value and the detection's. */
  lemma MixBetween(alpha: real, d: real, o: real)
    requires 0.0 <= alpha <= 1.0
    ensures MinF(d, o) <= Mix(alpha, d, o) <= MaxF(d, o)
  {
    assert Mix(alpha, d, o) == o + alpha * (d - o);
    assert (d - o) - alpha * (d - o) == (1.0 - alpha) * (d - o);
    if d >= o {
      ProductNonNegative(alpha, d - o);
      ProductNonNegative(1.0 - alpha, d - o);
    } else {
      ProductNonNegative(alpha, o - d);
      ProductNonNegative(1.0 - alpha, o - d);
      assert alpha * (o - d) == -(alpha * (d - o));
      assert (1.0 - alpha) * (o - d) == -((1.0 - alpha) * (d - o));
    }
  }

  /** Every field of the blended box lies between the old box's and the detection's. */
  lemma BlendBetween(alpha: real, det: Rect2f, prev: Rect2f)
    requires 0.0 <= alpha <= 1.0
    ensures var b := Blend(alpha, det, prev);
            MinF(det.x, prev.x) <= b.x <= MaxF(det.x, prev.x) &&
            MinF(det.y, prev.y) <= b.y <= MaxF(det.y, prev.y) &&
            MinF(det.width, prev.width) <= b.width <= MaxF(det.width, prev.width) &&
            MinF(det.height, prev.height) <= b.height <= MaxF(det.height, prev.height)
  {
    MixBetween(alpha, det.x, prev.x);
    MixBetween(alpha, det.y, prev.y);
    MixBetween(alpha, det.width, prev.width);
    MixBetween(alpha, det.height, prev.height);
  }

  /** Examples: a 100 x 100 box whose centre moves by 45, 30, 15 and 5. */
  lemma GainExamples()
    ensures AdaptiveAlpha(Rect2f(0.0, 0.0, 100.0, 100.0), Rect2f(45.0, 0.0, 100.0, 100.0)) == 0.70
    ensures AdaptiveAlpha(Rect2f(0.0, 0.0, 100.0, 100.0), Rect2f(30.0, 0.0, 100.0, 100.0)) == 0.55
    ensures AdaptiveAlpha(Rect2f(0.0, 0.0, 100.0, 100.0), Rect2f(15.0, 0.0, 100.0, 100.0)) == 0.40
    ensures AdaptiveAlpha(Rect2f(0.0, 0.0, 100.0, 100.0), Rect2f(5.0, 0.0, 100.0, 100.0)) == 0.20
  {
  }
}
