/** Curve sampling: `lerp` and `evaluateBSpline`, which despite its name is a
    clamped Catmull-Rom interpolator through the control points.  Coordinates
    are modelled as reals, so the statements below are exact where the
    JavaScript doubles are only close. */
module Curve {
  import opened Arith

  datatype Point = Point(x: real, y: real)

  /** `lerp(a, b, t)`: the point a fraction t of the way from a to b. */
  function Lerp(a: real, b: real, t: real): (r: real)
    ensures t == 0.0 ==> r == a
    ensures t == 1.0 ==> r == b
    ensures 0.0 <= t <= 1.0 ==> Min(a, b) <= r <= Max(a, b)
  {
    LerpBetween(a, b, t);
    a + (b - a) * t
  }

  lemma LerpBetween(a: real, b: real, t: real)
    ensures 0.0 <= t <= 1.0 ==> Min(a, b) <= a + Mul(b - a, t) <= Max(a, b)
  {
    if 0.0 <= t <= 1.0 {
      MulComm(b - a, t);
      if a <= b {
        ScaleWithin(t, b - a);
      } else {
        ScaleWithin(t, a - b);
        MulComm(a - b, t);
        MulNeg(a - b, t);
      }
    }
  }

  /** One coordinate of the Catmull-Rom segment from p1 (at u = 0) to p2
      (at u = 1), with p0 and p3 as the outer neighbours. */
  function CatmullRom(p0: real, p1: real, p2: real, p3: real, u: real): (r: real)
    ensures u == 0.0 ==> r == p1
    ensures u == 1.0 ==> r == p2
    ensures p0 == p1 == p2 == p3 ==> r == p1
  {
    var tt := u * u;
    var ttt := tt * u;
    0.5 * (2.0 * p1 + (-p0 + p2) * u + (2.0 * p0 - 5.0 * p1 + 4.0 * p2 - p3) * tt
           + (-p0 + 3.0 * p1 - 3.0 * p2 + p3) * ttt)
  }

  /** The Catmull-Rom basis applied to both coordinates. */
  function CatmullRomPoint(p0: Point, p1: Point, p2: Point, p3: Point, u: real): Point
  {
    Point(CatmullRom(p0.x, p1.x, p2.x, p3.x, u), CatmullRom(p0.y, p1.y, p2.y, p3.y, u))
  }

  /** `segment = t * (n - 1)` with `t = i / (numSamples - 1)`: where sample i
      falls along the n - 1 segments of the curve. */
  function SegmentParam(n: nat, numSamples: nat, i: nat): (s: real)
    requires n >= 2 && numSamples >= 2 && i < numSamples
    ensures 0.0 <= s <= (n - 1) as real
  {
    var t := i as real / (numSamples - 1) as real;
    ScaleWithin(t, (n - 1) as real);
    t * (n - 1) as real
  }

  /** `idx = min(floor(segment), n - 2)`: the segment that sample i lies on. */
  function SegmentIndex(n: nat, numSamples: nat, i: nat): (idx: int)
    requires n >= 2 && numSamples >= 2 && i < numSamples
    ensures 0 <= idx <= n - 2
    ensures idx as real <= SegmentParam(n, numSamples, i) <= idx as real + 1.0
  {
    var f := SegmentParam(n, numSamples, i).Floor;
    if f < n - 2 then f else n - 2
  }

  /** `local = segment - idx`: the fraction of the way along segment idx. */
  function LocalFraction(n: nat, numSamples: nat, i: nat): (u: real)
    requires n >= 2 && numSamples >= 2 && i < numSamples
    ensures 0.0 <= u <= 1.0
  {
    SegmentParam(n, numSamples, i) - SegmentIndex(n, numSamples, i) as real
  }

  /** The indices of p0, p1, p2, p3 for segment idx, clamped to the array:
      `max(0, idx - 1)`, `idx`, `min(n - 1, idx + 1)`, `min(n - 1, idx + 2)`. */
  function Neighbours(n: nat, idx: int): (k: seq<nat>)
    requires n >= 2 && 0 <= idx <= n - 2
    ensures |k| == 4 && forall j :: 0 <= j < 4 ==> k[j] < n
    ensures k[1] == idx && k[2] == idx + 1
    ensures k[0] == (if idx == 0 then 0 else idx - 1)
    ensures k[3] == (if idx == n - 2 then n - 1 else idx + 2)
  {
    [if idx - 1 > 0 then idx - 1 else 0,
     idx,
     if idx + 1 < n - 1 then idx + 1 else n - 1,
     if idx + 2 < n - 1 then idx + 2 else n - 1]
  }

  /** Sample i of numSamples along the curve through controlPoints. */
  function SampleAt(controlPoints: seq<Point>, numSamples: nat, i: nat): Point
    requires |controlPoints| >= 2 && numSamples >= 2 && i < numSamples
  {
    var n := |controlPoints|;
    var k := Neighbours(n, SegmentIndex(n, numSamples, i));
    CatmullRomPoint(controlPoints[k[0]], controlPoints[k[1]], controlPoints[k[2]],
                    controlPoints[k[3]], LocalFraction(n, numSamples, i))
  }

  /** The whole sampled curve: numSamples points. */
  function Samples(controlPoints: seq<Point>, numSamples: nat): (r: seq<Point>)
    requires |controlPoints| >= 2 && numSamples != 1
    ensures |r| == numSamples
  {
    seq(numSamples, i requires 0 <= i < numSamples => SampleAt(controlPoints, numSamples, i))
  }

  /** `evaluateBSpline(controlPoints, numSamples)`.  With fewer than two
      control points it returns a copy of its input; otherwise it returns
      exactly numSamples points, sample i being SampleAt(controlPoints,
      numSamples, i).  One sample with two or more control points makes the
      source divide 0 by 0 and index the array with NaN, so that call is
      excluded. */
  method EvaluateBSpline(controlPoints: seq<Point>, numSamples: nat) returns (points: seq<Point>)
    requires |controlPoints| < 2 || numSamples != 1
    ensures |controlPoints| < 2 ==> points == controlPoints
    ensures |controlPoints| >= 2 ==> points == Samples(controlPoints, numSamples)
  {
    var n := |controlPoints|;
    if n < 2 {
      return controlPoints;
    }
    points := [];
    var i := 0;
    while i < numSamples
      invariant i <= numSamples
      invariant points == Samples(controlPoints, numSamples)[..i]
    {
      var p := EvaluateSample(controlPoints, numSamples, i);
      points := points + [p];
      i := i + 1;
    }
  }

  /** The body of evaluateBSpline's loop: sample i located on its segment
      and interpolated between that segment's four neighbouring control
      points. */
  method EvaluateSample(controlPoints: seq<Point>, numSamples: nat, i: nat) returns (p: Point)
    requires |controlPoints| >= 2 && numSamples >= 2 && i < numSamples
    ensures p == SampleAt(controlPoints, numSamples, i)
  {
    var n := |controlPoints|;
    var t := i as real / (numSamples - 1) as real;
    var segment := t * (n - 1) as real;
    var f := segment.Floor;
    var idx := if f < n - 2 then f else n - 2;
    var local := segment - idx as real;
    assert idx == SegmentIndex(n, numSamples, i) && local == LocalFraction(n, numSamples, i);

    var p0 := controlPoints[if idx - 1 > 0 then idx - 1 else 0];
    var p1 := controlPoints[idx];
    var p2 := controlPoints[if idx + 1 < n - 1 then idx + 1 else n - 1];
    var p3 := controlPoints[if idx + 2 < n - 1 then idx + 2 else n - 1];

    var x := CatmullRom(p0.x, p1.x, p2.x, p3.x, local);
    var y := CatmullRom(p0.y, p1.y, p2.y, p3.y, local);
    p := Point(x, y);
  }

  /** A sample whose parameter lands exactly on control point k, that is
      i * (n - 1) == k * (numSamples - 1), is that control point. */
  lemma SampleAtKnot(controlPoints: seq<Point>, numSamples: nat, i: nat, k: nat)
    requires |controlPoints| >= 2 && numSamples >= 2 && i < numSamples && k < |controlPoints|
    requires i * (|controlPoints| - 1) == k * (numSamples - 1)
    ensures SampleAt(controlPoints, numSamples, i) == controlPoints[k]
  {
    var n := |controlPoints|;
    KnotParam(n, numSamples, i, k);
    var idx := SegmentIndex(n, numSamples, i);
    var nb := Neighbours(n, idx);
    if k <= n - 2 {
      assert idx == k;
      assert LocalFraction(n, numSamples, i) == 0.0;
    } else {
      assert idx == n - 2 && nb[2] == k;
      assert LocalFraction(n, numSamples, i) == 1.0;
    }
  }

  lemma KnotParam(n: nat, numSamples: nat, i: nat, k: nat)
    requires n >= 2 && numSamples >= 2 && i < numSamples
    requires i * (n - 1) == k * (numSamples - 1)
    ensures SegmentParam(n, numSamples, i) == k as real
  {
    var a, d, m := i as real, (numSamples - 1) as real, (n - 1) as real;
    assert a * m == k as real * d by {
      assert (i * (n - 1)) as real == (k * (numSamples - 1)) as real;
    }
    assert (a / d) * m == (a * m) / d;
  }

  /** The first sample is the first control point. */
  lemma FirstSample(controlPoints: seq<Point>, numSamples: nat)
    requires |controlPoints| >= 2 && numSamples >= 2
    ensures Samples(controlPoints, numSamples)[0] == controlPoints[0]
  {
    SampleAtKnot(controlPoints, numSamples, 0, 0);
  }

  /** The last sample (t = 1, idx = n - 2, local = 1) is the last control point. */
  lemma LastSample(controlPoints: seq<Point>, numSamples: nat)
    requires |controlPoints| >= 2 && numSamples >= 2
    ensures Samples(controlPoints, numSamples)[numSamples - 1] == controlPoints[|controlPoints| - 1]
  {
    var n := |controlPoints|;
    assert (numSamples - 1) * (n - 1) == (n - 1) * (numSamples - 1);
    SampleAtKnot(controlPoints, numSamples, numSamples - 1, n - 1);
  }

  /** When numSamples - 1 is a multiple of n - 1, every control point lies on
      the sampled curve: control point k is sample k * (numSamples - 1) / (n - 1). */
  lemma ControlPointsInterpolated(controlPoints: seq<Point>, numSamples: nat)
    requires |controlPoints| >= 2 && numSamples >= 2
    requires (numSamples - 1) % (|controlPoints| - 1) == 0
    ensures forall k :: 0 <= k < |controlPoints| ==>
      var i := k * ((numSamples - 1) / (|controlPoints| - 1));
      i < numSamples && Samples(controlPoints, numSamples)[i] == controlPoints[k]
  {
    var n := |controlPoints|;
    var step := (numSamples - 1) / (n - 1);
    assert (n - 1) * step == numSamples - 1;
    forall k | 0 <= k < n
      ensures k * step < numSamples && Samples(controlPoints, numSamples)[k * step] == controlPoints[k]
    {
      KnotIndex(n, numSamples, step, k);
      SampleAtKnot(controlPoints, numSamples, k * step, k);
    }
  }

  /** With numSamples - 1 == (n - 1) * step, index k * step of control point
      k is a sample index whose parameter is exactly k. */
  lemma KnotIndex(n: nat, numSamples: nat, step: nat, k: nat)
    requires k < n && (n - 1) * step == numSamples - 1
    ensures k * step < numSamples
    ensures (k * step) * (n - 1) == k * (numSamples - 1)
  {
    assert (n - 1) * step - k * step == (n - 1 - k) * step;
    MulNonnegInt(n - 1 - k, step);
    assert (k * step) * (n - 1) == k * ((n - 1) * step);
  }
}
