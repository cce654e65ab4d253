/** Splines and their shapes: the initial placement of `createSpline`, the
    noise of `perturbSpline` and the grain jitter of `drawSplineGrains`, as
    functions of the draws they take from the random stream. */
module Layout {
  import opened Ambient
  import opened Arith
  import opened Curve
  import opened Colour

  /** `params.layout`; `Scatter` is the "random" layout. */
  datatype LayoutKind = Horizontal | Vertical | Radial | Scatter

  /** createSpline compares the layout name with "horizontal", "vertical" and
      "radial" in turn and treats every other value as random. */
  function LayoutOf(name: string): (kind: LayoutKind)
    ensures kind == Scatter <==> name != "horizontal" && name != "vertical" && name != "radial"
    ensures kind == Horizontal <==> name == "horizontal"
    ensures kind == Vertical <==> name == "vertical"
    ensures kind == Radial <==> name == "radial"
  {
    if name == "horizontal" then Horizontal
    else if name == "vertical" then Vertical
    else if name == "radial" then Radial
    else Scatter
  }

  /** A spline: its control points and the palette colour it paints with. */
  datatype Spline = Spline(controlPoints: seq<Point>, color: Rgb)

  /** `palette[index % palette.length]`: the colour of spline `index`. */
  function PaletteColour(palette: seq<Rgb>, index: nat): (c: Rgb)
    requires |palette| > 0
    ensures c in palette
    ensures index < |palette| ==> c == palette[index]
  {
    palette[index % |palette|]
  }

  /** Spline colours repeat with the length of the palette. */
  lemma PaletteCycles(palette: seq<Rgb>, index: nat)
    requires |palette| > 0
    ensures PaletteColour(palette, index + |palette|) == PaletteColour(palette, index)
  {
    var m := |palette|;
    ModUnique(index + m, m, index / m + 1, index % m);
  }

  /** `t = j / (numPts - 1)`: the position of point j along the spline. */
  function Fraction(j: nat, numPts: nat): (t: real)
    requires j < numPts && numPts >= 2
    ensures 0.0 <= t <= 1.0
    ensures j == 0 ==> t == 0.0
    ensures j == numPts - 1 ==> t == 1.0
  {
    j as real / (numPts - 1) as real
  }

  /** `(h * (index + 1)) / (total + 1)`: the band of spline index in a
      horizontal layout (with the roles of w and h swapped, in a vertical one). */
  function Band(h: nat, index: nat, total: nat): (b: real)
    requires index < total
    ensures h > 0 ==> 0.0 < b < h as real
  {
    if h > 0 then
      ProperPart(h as real, (index + 1) as real, (total + 1) as real);
      (h as real * (index + 1) as real) / (total + 1) as real
    else
      (h as real * (index + 1) as real) / (total + 1) as real
  }

  /** How many values one control point takes from the random stream. */
  function DrawsPerPoint(kind: LayoutKind): nat {
    if kind == Scatter then 2 else 1
  }

  /** Control point j of spline index, placed with the draws from position d
      of the random stream on. */
  function LayoutPoint(env: Env, kind: LayoutKind, index: nat, total: nat, w: nat, h: nat,
                       numPts: nat, j: nat, d: nat): Point
    requires index < total && j < numPts && (kind != Scatter ==> numPts >= 2)
  {
    match kind
    case Horizontal => HorizontalPoint(env, index, total, w, h, numPts, j, d)
    case Vertical => VerticalPoint(env, index, total, w, h, numPts, j, d)
    case Radial => RadialPoint(env, index, total, w, h, numPts, j, d)
    case Scatter => ScatterPoint(env, w, h, d)
  }

  /** Evenly spaced in x across the canvas, on the spline's band in y,
      jittered by 5% of the height times one Gaussian draw. */
  function HorizontalPoint(env: Env, index: nat, total: nat, w: nat, h: nat, numPts: nat, j: nat, d: nat): Point
    requires index < total && j < numPts && numPts >= 2
  {
    Point(Fraction(j, numPts) * w as real, Band(h, index, total) + env.gaussian(d) * h as real * 0.05)
  }

  /** The horizontal placement with the roles of x and y exchanged. */
  function VerticalPoint(env: Env, index: nat, total: nat, w: nat, h: nat, numPts: nat, j: nat, d: nat): Point
    requires index < total && j < numPts && numPts >= 2
  {
    Point(Band(w, index, total) + env.gaussian(d) * w as real * 0.05, Fraction(j, numPts) * h as real)
  }

  /** On the ray of spline index from the canvas centre, from 5% to 45% of
      the smaller side, the angle jittered by 0.1 times one Gaussian draw. */
  function RadialPoint(env: Env, index: nat, total: nat, w: nat, h: nat, numPts: nat, j: nat, d: nat): Point
    requires index < total && j < numPts && numPts >= 2
  {
    var angle := (index as real / total as real) * Pi * 2.0;
    var rMin := Min(w as real, h as real) * 0.05;
    var rMax := Min(w as real, h as real) * 0.45;
    var r := Lerp(rMin, rMax, Fraction(j, numPts));
    var angleJitter := env.gaussian(d) * 0.1;
    Point(w as real / 2.0 + env.cos(angle + angleJitter) * r,
          h as real / 2.0 + env.sin(angle + angleJitter) * r)
  }

  /** Two uniform draws scaled to the canvas. */
  function ScatterPoint(env: Env, w: nat, h: nat, d: nat): Point {
    Point(env.uniform(d) * w as real, env.uniform(d + 1) * h as real)
  }

  /** A layout is defined unless it would divide 0 by 0: a single point in a
      layout other than random. */
  predicate LayoutDefined(kind: LayoutKind, numPts: nat) {
    kind == Scatter || numPts != 1
  }

  /** The control points createSpline(index, total) builds, starting at draw d0. */
  function InitialPoints(env: Env, kind: LayoutKind, index: nat, total: nat, w: nat, h: nat,
                         numPts: nat, d0: nat): (pts: seq<Point>)
    requires index < total && LayoutDefined(kind, numPts)
    ensures |pts| == numPts
  {
    seq(numPts, j requires 0 <= j < numPts =>
      LayoutPoint(env, kind, index, total, w, h, numPts, j, d0 + j * DrawsPerPoint(kind)))
  }

  /** A horizontal spline runs across the canvas: its first point is at x = 0,
      its last at x = w, and x increases along it; every point sits on the
      spline's band up to its Gaussian jitter. */
  lemma HorizontalSpan(env: Env, index: nat, total: nat, w: nat, h: nat, numPts: nat, d0: nat)
    requires index < total && numPts >= 2 && w > 0
    ensures var pts := InitialPoints(env, Horizontal, index, total, w, h, numPts, d0);
      pts[0].x == 0.0 && pts[numPts - 1].x == w as real
      && (forall j :: 0 <= j < numPts - 1 ==> pts[j].x < pts[j + 1].x)
      && (forall j :: 0 <= j < numPts ==> pts[j].y == Band(h, index, total) + env.gaussian(d0 + j) * h as real * 0.05)
  {
    var pts := InitialPoints(env, Horizontal, index, total, w, h, numPts, d0);
    var W := w as real;
    assert pts[0].x == Mul(Fraction(0, numPts), W);
    assert pts[numPts - 1].x == Mul(Fraction(numPts - 1, numPts), W);
    forall j | 0 <= j < numPts - 1
      ensures pts[j].x < pts[j + 1].x
    {
      assert pts[j].x == Mul(Fraction(j, numPts), W);
      assert pts[j + 1].x == Mul(Fraction(j + 1, numPts), W);
      FractionIncreases(j, numPts);
      ScaleStrictMono(Fraction(j, numPts), Fraction(j + 1, numPts), W);
    }
  }

  lemma FractionIncreases(j: nat, numPts: nat)
    requires j + 1 < numPts
    ensures Fraction(j, numPts) < Fraction(j + 1, numPts)
  {
    var m := (numPts - 1) as real;
    assert Fraction(j + 1, numPts) == Fraction(j, numPts) + 1.0 / m;
  }

  /** A vertical layout is a horizontal one on the transposed canvas, with x
      and y swapped. */
  lemma VerticalIsTransposed(env: Env, index: nat, total: nat, w: nat, h: nat, numPts: nat, d0: nat)
    requires index < total && LayoutDefined(Horizontal, numPts)
    ensures var v := InitialPoints(env, Vertical, index, total, w, h, numPts, d0);
      var t := InitialPoints(env, Horizontal, index, total, h, w, numPts, d0);
      forall j :: 0 <= j < numPts ==> v[j] == Point(t[j].y, t[j].x)
  {
  }

  /** When every uniform draw lies in [0, 1), a random layout keeps every
      point on the canvas. */
  lemma ScatterOnCanvas(env: Env, index: nat, total: nat, w: nat, h: nat, numPts: nat, d0: nat)
    requires index < total
    requires forall d :: 0.0 <= env.uniform(d) < 1.0
    ensures var pts := InitialPoints(env, Scatter, index, total, w, h, numPts, d0);
      forall j :: 0 <= j < numPts ==>
        0.0 <= pts[j].x <= w as real && 0.0 <= pts[j].y <= h as real
  {
    var pts := InitialPoints(env, Scatter, index, total, w, h, numPts, d0);
    forall j | 0 <= j < numPts
      ensures 0.0 <= pts[j].x <= w as real && 0.0 <= pts[j].y <= h as real
    {
      var d := d0 + j * 2;
      assert pts[j] == ScatterPoint(env, w, h, d);
      ScatterPointOnCanvas(env, w, h, d);
    }
  }

  lemma ScatterPointOnCanvas(env: Env, w: nat, h: nat, d: nat)
    requires 0.0 <= env.uniform(d) <= 1.0 && 0.0 <= env.uniform(d + 1) <= 1.0
    ensures var p := ScatterPoint(env, w, h, d);
      0.0 <= p.x <= w as real && 0.0 <= p.y <= h as real
  {
    var u, v := env.uniform(d), env.uniform(d + 1);
    var p := ScatterPoint(env, w, h, d);
    assert p.x == Mul(u, w as real) && p.y == Mul(v, h as real);
    ScaleWithin(u, w as real);
    ScaleWithin(v, h as real);
  }

  /** `noise * Math.min(canvas.width, canvas.height)`. */
  function NoiseMagnitude(noise: real, w: nat, h: nat): real {
    noise * (if w <= h then w else h) as real
  }

  /** The points after perturbSpline, starting at draw d0: point i moves by
      two Gaussian draws scaled by noiseMag * pow((i + 1) / n, growth), first
      in x, then in y. */
  function Perturbed(env: Env, pts: seq<Point>, noiseMag: real, growth: real, d0: nat): (r: seq<Point>)
    ensures |r| == |pts|
  {
    seq(|pts|, i requires 0 <= i < |pts| => PerturbedPoint(env, pts[i], i, |pts|, noiseMag, growth, d0 + 2 * i))
  }

  /** Point i of n moved by the Gaussian draws d and d + 1. */
  function PerturbedPoint(env: Env, pt: Point, i: nat, n: nat, noiseMag: real, growth: real, d: nat): Point
    requires i < n
  {
    var factor := env.pow((i + 1) as real / n as real, growth);
    Point(pt.x + env.gaussian(d) * noiseMag * factor, pt.y + env.gaussian(d + 1) * noiseMag * factor)
  }

  /** With no noise a perturbation leaves the spline where it is. */
  lemma PerturbedWithoutNoise(env: Env, pts: seq<Point>, growth: real, d0: nat)
    ensures Perturbed(env, pts, 0.0, growth, d0) == pts
  {
    var r := Perturbed(env, pts, 0.0, growth, d0);
    forall i | 0 <= i < |pts| ensures r[i] == pts[i] {
      var factor := env.pow((i + 1) as real / |pts| as real, growth);
      var gx := env.gaussian(d0 + 2 * i);
      var gy := env.gaussian(d0 + 2 * i + 1);
      assert gx * 0.0 * factor == 0.0 && gy * 0.0 * factor == 0.0;
    }
  }

  /** What evaluateBSpline returns for these control points. */
  function SampledCurve(controlPoints: seq<Point>, numSamples: nat): (r: seq<Point>)
    requires |controlPoints| < 2 || numSamples != 1
    ensures |controlPoints| >= 2 ==> |r| == numSamples
    ensures |controlPoints| < 2 ==> r == controlPoints
  {
    if |controlPoints| < 2 then controlPoints else Samples(controlPoints, numSamples)
  }

  /** The grain positions of drawSplineGrains, starting at draw d0: each
      sample moved by two Gaussian draws scaled by 0.5. */
  function Jittered(env: Env, curve: seq<Point>, d0: nat): (grains: seq<Point>)
    ensures |grains| == |curve|
  {
    seq(|curve|, i requires 0 <= i < |curve| => JitteredPoint(env, curve[i], d0 + 2 * i))
  }

  /** One sample moved by the Gaussian draws d and d + 1, each scaled by 0.5. */
  function JitteredPoint(env: Env, pt: Point, d: nat): Point {
    Point(pt.x + env.gaussian(d) * 0.5, pt.y + env.gaussian(d + 1) * 0.5)
  }
}
