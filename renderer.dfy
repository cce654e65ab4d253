/** The render scheduler: the script's module-level state (the splines, the
    float buffer, `running`, `iterationCount`, `flushCounter`) and the
    functions that update it: `createSpline`, `perturbSpline`,
    `drawSplineGrains`, `iterate`, `frame`, `restart`, and the pause
    button's toggle. */
module Renderer {
  import opened Ambient
  import opened Arith
  import opened Curve
  import opened Colour
  import opened AccumulationBuffer
  import opened Layout

  /** `FLUSH_INTERVAL`: the buffer reaches the canvas every 4 frames. */
  const FLUSH_INTERVAL: nat := 4

  /** `params`, with the palette already looked up by name. */
  datatype Params = Params(
    numSplines: nat,
    numPoints: nat,
    grains: nat,
    noise: real,
    noiseGrowth: real,
    opacity: real,
    speed: nat,
    palette: seq<Rgb>,
    bgColor: string,
    layout: LayoutKind)

  /** Parameters the renderer can run with: a non-empty palette, no layout
      that divides 0 by 0, and no single-grain curve (which indexes the
      control points with NaN). */
  predicate ParamsOk(p: Params) {
    |p.palette| > 0 && LayoutDefined(p.layout, p.numPoints) && (p.numPoints >= 2 ==> p.grains != 1)
  }

  /** The structural parameters, whose controls restart the renderer, agree. */
  predicate SameStructure(p: Params, q: Params) {
    p.numSplines == q.numSplines && p.numPoints == q.numPoints && p.palette == q.palette
    && p.bgColor == q.bgColor && p.layout == q.layout
  }

  /** The cells after painting every grain in order with one colour. */
  function PaintedAll(cells: seq<real>, w: nat, h: nat, grains: seq<Point>, color: Rgb, alpha: real): (r: seq<real>)
    requires |cells| == w * h * 4
    ensures |r| == |cells|
    ensures Opaque(cells) ==> Opaque(r)
    decreases |grains|
  {
    if |grains| == 0 then cells
    else
      var before := PaintedAll(cells, w, h, grains[..|grains| - 1], color, alpha);
      var g := grains[|grains| - 1];
      PaintedOpaque(before, w, h, g.x, g.y, color, alpha);
      Painted(before, w, h, g.x, g.y, color, alpha)
  }

  /** Whether a grain lands on cell k. */
  predicate Hits(w: nat, h: nat, g: Point, k: nat) {
    InCanvas(w, h, Round(g.x), Round(g.y)) && k / 4 == Round(g.y) * w + Round(g.x)
  }

  /** A cell of a pixel that no grain lands on keeps its value; in
      particular grains that all fall off the canvas change nothing. */
  lemma {:induction false} UntouchedCellsKept(cells: seq<real>, w: nat, h: nat, grains: seq<Point>, color: Rgb, alpha: real, k: nat)
    requires |cells| == w * h * 4 && k < |cells|
    requires forall i :: 0 <= i < |grains| ==> !Hits(w, h, grains[i], k)
    ensures PaintedAll(cells, w, h, grains, color, alpha)[k] == cells[k]
    decreases |grains|
  {
    if |grains| > 0 {
      var rest := grains[..|grains| - 1];
      UntouchedCellsKept(cells, w, h, rest, color, alpha, k);
      var g := grains[|grains| - 1];
      PaintedFrame(PaintedAll(cells, w, h, rest, color, alpha), w, h, g.x, g.y, color, alpha);
    }
  }

  /** The part of the state that one iteration changes. */
  datatype World = World(splines: seq<Spline>, cells: seq<real>, draws: nat)

  /** The buffer has the canvas size and opaque alpha, and every spline has
      the configured number of control points. */
  predicate Shaped(p: Params, w: nat, h: nat, world: World) {
    |world.cells| == w * h * 4 && Opaque(world.cells)
    && forall i :: 0 <= i < |world.splines| ==> |world.splines[i].controlPoints| == p.numPoints
  }

  /** Spline k perturbed and then drawn as grains, as iterate does it. */
  function StepSpline(env: Env, p: Params, w: nat, h: nat, world: World, k: nat): (r: World)
    requires ParamsOk(p) && Shaped(p, w, h, world) && k < |world.splines|
    ensures Shaped(p, w, h, r) && |r.splines| == |world.splines|
  {
    var s := world.splines[k];
    var moved := Perturbed(env, s.controlPoints, NoiseMagnitude(p.noise, w, h), p.noiseGrowth, world.draws);
    var d := world.draws + 2 * |moved|;
    var curve := SampledCurve(moved, p.grains);
    World(world.splines[k := Spline(moved, s.color)],
          PaintedAll(world.cells, w, h, Jittered(env, curve, d), s.color, p.opacity),
          d + 2 * |curve|)
  }

  /** The first k splines stepped in order, spline 0 first. */
  function SteppedUpTo(env: Env, p: Params, w: nat, h: nat, world: World, k: nat): (r: World)
    requires ParamsOk(p) && Shaped(p, w, h, world) && k <= |world.splines|
    ensures Shaped(p, w, h, r) && |r.splines| == |world.splines|
  {
    if k == 0 then world
    else StepSpline(env, p, w, h, SteppedUpTo(env, p, w, h, world, k - 1), k - 1)
  }

  /** Stepping spline i after the first i gives the first k = i + 1. */
  lemma SteppedOneMore(env: Env, p: Params, w: nat, h: nat, start: World, i: nat, k: nat, pre: World, post: World)
    requires ParamsOk(p) && Shaped(p, w, h, start) && i < |start.splines| && k == i + 1
    requires pre == SteppedUpTo(env, p, w, h, start, i)
    requires post == StepSpline(env, p, w, h, pre, i)
    ensures post == SteppedUpTo(env, p, w, h, start, k)
  {
    SteppedUnfold(env, p, w, h, start, i);
    SteppedCount(env, p, w, h, start, i, k);
  }

  lemma SteppedUnfold(env: Env, p: Params, w: nat, h: nat, start: World, i: nat)
    requires ParamsOk(p) && Shaped(p, w, h, start) && i < |start.splines|
    ensures SteppedUpTo(env, p, w, h, start, i + 1) == StepSpline(env, p, w, h, SteppedUpTo(env, p, w, h, start, i), i)
  {
  }

  lemma SteppedCount(env: Env, p: Params, w: nat, h: nat, start: World, i: nat, k: nat)
    requires ParamsOk(p) && Shaped(p, w, h, start) && i < |start.splines| && k == i + 1
    ensures SteppedUpTo(env, p, w, h, start, i + 1) == SteppedUpTo(env, p, w, h, start, k)
  {
  }

  /** One `iterate()`: every spline stepped in order. */
  function Iteration(env: Env, p: Params, w: nat, h: nat, world: World): (r: World)
    requires ParamsOk(p) && Shaped(p, w, h, world)
    ensures Shaped(p, w, h, r) && |r.splines| == |world.splines|
  {
    SteppedUpTo(env, p, w, h, world, |world.splines|)
  }

  /** m iterations in a row. */
  function IteratedTimes(env: Env, p: Params, w: nat, h: nat, world: World, m: nat): (r: World)
    requires ParamsOk(p) && Shaped(p, w, h, world)
    ensures Shaped(p, w, h, r) && |r.splines| == |world.splines|
  {
    if m == 0 then world
    else Iteration(env, p, w, h, IteratedTimes(env, p, w, h, world, m - 1))
  }

  /** One more iteration after the first m gives the first k = m + 1. */
  lemma IteratedOneMore(env: Env, p: Params, w: nat, h: nat, start: World, m: nat, k: nat, pre: World, post: World)
    requires ParamsOk(p) && Shaped(p, w, h, start) && k == m + 1
    requires pre == IteratedTimes(env, p, w, h, start, m)
    requires post == Iteration(env, p, w, h, pre)
    ensures post == IteratedTimes(env, p, w, h, start, k)
  {
    IteratedUnfold(env, p, w, h, start, m);
    IteratedCount(env, p, w, h, start, m, k);
  }

  lemma IteratedUnfold(env: Env, p: Params, w: nat, h: nat, start: World, m: nat)
    requires ParamsOk(p) && Shaped(p, w, h, start)
    ensures IteratedTimes(env, p, w, h, start, m + 1) == Iteration(env, p, w, h, IteratedTimes(env, p, w, h, start, m))
  {
  }

  lemma IteratedCount(env: Env, p: Params, w: nat, h: nat, start: World, m: nat, k: nat)
    requires ParamsOk(p) && Shaped(p, w, h, start) && k == m + 1
    ensures IteratedTimes(env, p, w, h, start, m + 1) == IteratedTimes(env, p, w, h, start, k)
  {
  }

  /** How many values createSpline takes from the random stream. */
  function SplineDraws(p: Params): nat {
    p.numPoints * DrawsPerPoint(p.layout)
  }

  /** The first n splines restart creates when its first draw is d0: spline
      i is createSpline(i, numSplines), which starts at draw
      d0 + i * SplineDraws(p). */
  function InitialSplines(env: Env, p: Params, w: nat, h: nat, d0: nat, n: nat): (r: seq<Spline>)
    requires ParamsOk(p) && n <= p.numSplines
    ensures |r| == n
    ensures forall i :: 0 <= i < n ==> |r[i].controlPoints| == p.numPoints
  {
    seq(n, i requires 0 <= i < n =>
      Spline(InitialPoints(env, p.layout, i, p.numSplines, w, h, p.numPoints, d0 + i * SplineDraws(p)),
             PaletteColour(p.palette, i)))
  }

  /** Spline i, created from draw d = d0 + i * SplineDraws(p), extends the
      first i splines to the first k = i + 1, and the next spline starts
      SplineDraws(p) draws later. */
  lemma InitialSplinesGrow(env: Env, p: Params, w: nat, h: nat, d0: nat, i: nat, k: nat, d: nat, s: Spline)
    requires ParamsOk(p) && i < p.numSplines && k == i + 1 && d == d0 + i * SplineDraws(p)
    requires s == Spline(InitialPoints(env, p.layout, i, p.numSplines, w, h, p.numPoints, d),
                         PaletteColour(p.palette, i))
    ensures InitialSplines(env, p, w, h, d0, i) + [s] == InitialSplines(env, p, w, h, d0, k)
    ensures d0 + k * SplineDraws(p) == d + SplineDraws(p)
  {
    var before, after := InitialSplines(env, p, w, h, d0, i), InitialSplines(env, p, w, h, d0, k);
    forall j | 0 <= j < k
      ensures (before + [s])[j] == after[j]
    {
      if j == i {
        assert d0 + j * SplineDraws(p) == d;
      }
    }
    assert k * SplineDraws(p) == i * SplineDraws(p) + SplineDraws(p);
  }

  /** `flushCounter` after one running frame. */
  function NextFlushCounter(c: nat): (r: nat)
    ensures r < FLUSH_INTERVAL
    ensures c < FLUSH_INTERVAL ==> r == (c + 1) % FLUSH_INTERVAL
  {
    if c + 1 >= FLUSH_INTERVAL then 0 else c + 1
  }

  /** `flushCounter` after a number of running frames, and how many of them
      flushed the buffer to the canvas. */
  function CounterAfter(c: nat, frames: nat): nat {
    if frames == 0 then c else NextFlushCounter(CounterAfter(c, frames - 1))
  }

  function FlushesDuring(c: nat, frames: nat): nat {
    if frames == 0 then 0
    else FlushesDuring(c, frames - 1) + (if NextFlushCounter(CounterAfter(c, frames - 1)) == 0 then 1 else 0)
  }

  /** From a restart, the counter after f running frames is f mod 4 and the
      buffer has been flushed f / 4 times: on every fourth frame. */
  lemma {:induction false} FlushCadence(frames: nat)
    ensures CounterAfter(0, frames) == frames % FLUSH_INTERVAL
    ensures FlushesDuring(0, frames) == frames / FLUSH_INTERVAL
  {
    if frames > 0 {
      FlushCadence(frames - 1);
    }
  }

  class SandSpline {
    /** The random stream and Math functions the script calls. */
    const env: Env
    var params: Params
    /** `floatBuffer` with `bufferWidth` and `bufferHeight`, which are also
        the canvas size. */
    var buffer: FloatBuffer
    var splines: seq<Spline>
    var running: bool
    var iterationCount: nat
    var flushCounter: nat
    /** The index of the next draw from the random stream. */
    var draws: nat
    /** The image most recently put on the canvas. */
    var surface: seq<int>

    ghost function State(): World
      reads this`splines, this`buffer, this`draws, buffer.data
    {
      World(splines, buffer.data[..], draws)
    }

    /** What holds between calls: workable parameters, a buffer of the
        canvas size with opaque alpha, and numPoints control points in every
        spline. */
    ghost predicate Valid()
      reads this`params, this`splines, this`buffer, this`draws, buffer.data
    {
      ParamsOk(params) && Shaped(params, buffer.width, buffer.height, State())
    }

    /** The script's start: the initial module state (an empty 0 x 0 buffer,
        running, counters at 0) followed by `restart()`. */
    constructor (env: Env, p: Params, w: nat, h: nat)
      requires ParamsOk(p)
      ensures Valid() && running && params == p
      ensures fresh(buffer) && fresh(buffer.data)
      ensures iterationCount == 0 && flushCounter == 0 && |splines| == p.numSplines
      ensures buffer.width == w && buffer.height == h
      ensures buffer.data[..] == Background(w * h, HexToRgb(p.bgColor))
      ensures splines == InitialSplines(env, p, w, h, 0, p.numSplines)
      ensures surface == Flushed(Background(w * h, HexToRgb(p.bgColor)))
    {
      this.env := env;
      params := p;
      buffer := new FloatBuffer.Init(0, 0, p.bgColor);
      splines := [];
      running := true;
      iterationCount := 0;
      flushCounter := 0;
      draws := 0;
      surface := [];
      new;
      Restart(w, h, p);
    }

    /** `gaussianRandom()`: the next draw of the stream, as a Gaussian. */
    method Gaussian() returns (g: real)
      modifies this`draws
      ensures g == env.gaussian(old(draws)) && draws == old(draws) + 1
    {
      g := env.gaussian(draws);
      draws := draws + 1;
    }

    /** `Math.random()`: the next draw of the stream, as a uniform value. */
    method Uniform() returns (u: real)
      modifies this`draws
      ensures u == env.uniform(old(draws)) && draws == old(draws) + 1
    {
      u := env.uniform(draws);
      draws := draws + 1;
    }

    /** One iteration of createSpline's point loop: control point j of spline
        index, taking its draws from the stream.  Each layout has its own
        method below. */
    method PlacePoint(index: nat, total: nat, j: nat) returns (p: Point)
      requires ParamsOk(params) && index < total && j < params.numPoints
      modifies this`draws
      ensures p == LayoutPoint(env, params.layout, index, total, buffer.width, buffer.height,
                               params.numPoints, j, old(draws))
      ensures draws == old(draws) + DrawsPerPoint(params.layout)
    {
      match params.layout {
        case Horizontal => p := PlaceHorizontal(index, total, j);
        case Vertical => p := PlaceVertical(index, total, j);
        case Radial => p := PlaceRadial(index, total, j);
        case Scatter => p := PlaceScatter(index, total, j);
      }
    }

    /** Horizontal: evenly spaced in x across the canvas, on the spline's band
        in y, jittered by one Gaussian draw. */
    method PlaceHorizontal(index: nat, total: nat, j: nat) returns (p: Point)
      requires ParamsOk(params) && params.layout == Horizontal && index < total && j < params.numPoints
      modifies this`draws
      ensures p == LayoutPoint(env, Horizontal, index, total, buffer.width, buffer.height,
                               params.numPoints, j, old(draws))
      ensures draws == old(draws) + 1
    {
      var w := buffer.width;
      var h := buffer.height;
      var yBase := (h as real * (index + 1) as real) / (total + 1) as real;
      var t := j as real / (params.numPoints - 1) as real;
      var g := Gaussian();
      p := Point(t * w as real, yBase + g * h as real * 0.05);
    }

    /** Vertical: the horizontal placement with x and y exchanged. */
    method PlaceVertical(index: nat, total: nat, j: nat) returns (p: Point)
      requires ParamsOk(params) && params.layout == Vertical && index < total && j < params.numPoints
      modifies this`draws
      ensures p == LayoutPoint(env, Vertical, index, total, buffer.width, buffer.height,
                               params.numPoints, j, old(draws))
      ensures draws == old(draws) + 1
    {
      var w := buffer.width;
      var h := buffer.height;
      var xBase := (w as real * (index + 1) as real) / (total + 1) as real;
      var t := j as real / (params.numPoints - 1) as real;
      var g := Gaussian();
      p := Point(xBase + g * w as real * 0.05, t * h as real);
    }

    /** Radial: along the spline's ray from the centre, from 5% to 45% of the
        smaller canvas side, the angle jittered by one Gaussian draw. */
    method PlaceRadial(index: nat, total: nat, j: nat) returns (p: Point)
      requires ParamsOk(params) && params.layout == Radial && index < total && j < params.numPoints
      modifies this`draws
      ensures p == LayoutPoint(env, Radial, index, total, buffer.width, buffer.height,
                               params.numPoints, j, old(draws))
      ensures draws == old(draws) + 1
    {
      var w := buffer.width;
      var h := buffer.height;
      ghost var d := draws;
      var cx := w as real / 2.0;
      var cy := h as real / 2.0;
      var angle := (index as real / total as real) * Pi * 2.0;
      var rMin := Min(w as real, h as real) * 0.05;
      var rMax := Min(w as real, h as real) * 0.45;
      var t := j as real / (params.numPoints - 1) as real;
      var r := Lerp(rMin, rMax, t);
      var g := Gaussian();
      var angleJitter := g * 0.1;
      var e := env;
      p := Point(cx + e.cos(angle + angleJitter) * r, cy + e.sin(angle + angleJitter) * r);
      assert p == RadialPoint(e, index, total, w, h, params.numPoints, j, d);
    }

    /** Random: two uniform draws scaled to the canvas. */
    method PlaceScatter(index: nat, total: nat, j: nat) returns (p: Point)
      requires ParamsOk(params) && params.layout == Scatter && index < total && j < params.numPoints
      modifies this`draws
      ensures p == LayoutPoint(env, Scatter, index, total, buffer.width, buffer.height,
                               params.numPoints, j, old(draws))
      ensures draws == old(draws) + 2
    {
      var w := buffer.width;
      var h := buffer.height;
      var ux := Uniform();
      var uy := Uniform();
      p := Point(ux * w as real, uy * h as real);
    }

    /** `createSpline(index, total)` on the current canvas: numPoints control
        points placed by the layout, coloured palette[index % length]. */
    method CreateSpline(index: nat, total: nat) returns (s: Spline)
      requires ParamsOk(params) && index < total
      modifies this`draws
      ensures s == Spline(InitialPoints(env, params.layout, index, total, buffer.width, buffer.height,
                                        params.numPoints, old(draws)),
                          PaletteColour(params.palette, index))
      ensures draws == old(draws) + params.numPoints * DrawsPerPoint(params.layout)
    {
      var numPts := params.numPoints;
      var color := params.palette[index % |params.palette|];
      ghost var per := DrawsPerPoint(params.layout);
      ghost var d0 := draws;
      ghost var target := InitialPoints(env, params.layout, index, total, buffer.width, buffer.height, numPts, d0);
      var pts: seq<Point> := [];
      var j := 0;
      while j < numPts
        invariant j <= numPts
        invariant |pts| == j
        invariant draws == d0 + j * per
        invariant pts == target[..j]
      {
        var p := PlacePoint(index, total, j);
        assert (j + 1) * per == j * per + per;
        pts := pts + [p];
        j := j + 1;
      }
      assert target[..numPts] == target;
      s := Spline(pts, color);
    }

    /** `perturbSpline(splines[k])`: every control point of spline k moved by
        its growing Gaussian noise; nothing else about the splines changes. */
    method PerturbSpline(k: nat)
      requires Valid() && k < |splines|
      modifies this`splines, this`draws
      ensures Valid()
      ensures splines == old(splines)[k := Spline(
        Perturbed(env, old(splines[k].controlPoints),
                  NoiseMagnitude(params.noise, buffer.width, buffer.height), params.noiseGrowth, old(draws)),
        old(splines[k].color))]
      ensures draws == old(draws) + 2 * |old(splines[k].controlPoints)|
    {
      var noiseMag := params.noise * (if buffer.width <= buffer.height then buffer.width else buffer.height) as real;
      assert noiseMag == NoiseMagnitude(params.noise, buffer.width, buffer.height);
      var moved := PerturbPoints(splines[k].controlPoints, noiseMag, params.noiseGrowth);
      splines := splines[k := Spline(moved, splines[k].color)];
      assert Shaped(params, buffer.width, buffer.height, State());
    }

    /** The loop of perturbSpline over the control points, point i moved with
        the draws 2i and 2i + 1 from the current position of the stream. */
    method PerturbPoints(pts: seq<Point>, noiseMag: real, growth: real) returns (moved: seq<Point>)
      modifies this`draws
      ensures moved == Perturbed(env, pts, noiseMag, growth, old(draws))
      ensures draws == old(draws) + 2 * |pts|
    {
      ghost var d0 := draws;
      ghost var target := Perturbed(env, pts, noiseMag, growth, d0);
      var n := |pts|;
      moved := [];
      var i := 0;
      while i < n
        invariant i <= n
        invariant draws == d0 + 2 * i
        invariant moved == target[..i]
      {
        var q := PerturbPoint(pts[i], i, n, noiseMag, growth);
        moved := moved + [q];
        i := i + 1;
      }
      assert moved == target;
    }

    /** One iteration of perturbSpline's loop: point i of n moved by two
        Gaussian draws, x first, scaled by noiseMag * pow((i + 1) / n, growth). */
    method PerturbPoint(pt: Point, i: nat, n: nat, noiseMag: real, growth: real) returns (moved: Point)
      requires i < n
      modifies this`draws
      ensures moved == PerturbedPoint(env, pt, i, n, noiseMag, growth, old(draws))
      ensures draws == old(draws) + 2
    {
      var factor := env.pow((i + 1) as real / n as real, growth);
      var gx := Gaussian();
      var x := pt.x + gx * noiseMag * factor;
      var gy := Gaussian();
      var y := pt.y + gy * noiseMag * factor;
      moved := Point(x, y);
    }

    /** `drawSplineGrains(splines[k])`: the spline sampled into `grains`
        points, each jittered and painted with the spline's colour at the
        configured opacity. */
    method DrawSplineGrains(k: nat)
      requires Valid() && k < |splines|
      modifies buffer.data, this`draws
      ensures Valid()
      ensures var curve := SampledCurve(splines[k].controlPoints, params.grains);
        buffer.data[..] == PaintedAll(old(buffer.data[..]), buffer.width, buffer.height,
                                      Jittered(env, curve, old(draws)), splines[k].color, params.opacity)
        && draws == old(draws) + 2 * |curve|
    {
      var curvePoints := EvaluateBSpline(splines[k].controlPoints, params.grains);
      PaintGrains(curvePoints, splines[k].color, params.opacity);
    }

    /** The loop of drawSplineGrains over the curve: sample i jittered with
        the draws 2i and 2i + 1 from the current position of the stream, then
        painted. */
    method PaintGrains(curve: seq<Point>, color: Rgb, alpha: real)
      requires buffer.Valid()
      modifies buffer.data, this`draws
      ensures buffer.Valid()
      ensures buffer.data[..] == PaintedAll(old(buffer.data[..]), buffer.width, buffer.height,
                                            Jittered(env, curve, old(draws)), color, alpha)
      ensures draws == old(draws) + 2 * |curve|
    {
      ghost var cells := buffer.data[..];
      ghost var grains := Jittered(env, curve, draws);
      var i := 0;
      while i < |curve|
        invariant i <= |curve|
        invariant draws == old(draws) + 2 * i
        invariant buffer.Valid()
        invariant buffer.data[..] == PaintedAll(cells, buffer.width, buffer.height, grains[..i], color, alpha)
      {
        var grain := JitterGrain(curve[i]);
        assert grain == grains[i];
        assert grains[..i + 1][..i] == grains[..i];
        buffer.PaintGrain(grain.x, grain.y, color, alpha);
        i := i + 1;
      }
      assert grains[..|curve|] == grains;
    }

    /** `pt.x + gaussianRandom() * 0.5`, then the same for y. */
    method JitterGrain(pt: Point) returns (grain: Point)
      modifies this`draws
      ensures grain == JitteredPoint(env, pt, old(draws)) && draws == old(draws) + 2
    {
      var gx := Gaussian();
      var jx := pt.x + gx * 0.5;
      var gy := Gaussian();
      var jy := pt.y + gy * 0.5;
      grain := Point(jx, jy);
    }

    /** The body of iterate's loop for spline k: perturbSpline, then
        drawSplineGrains. */
    method Step(k: nat)
      requires Valid() && k < |splines|
      modifies this`splines, this`draws, buffer.data
      ensures Valid()
      ensures State() == StepSpline(env, params, buffer.width, buffer.height, old(State()), k)
    {
      ghost var w := buffer.width;
      ghost var h := buffer.height;
      ghost var before := State();
      ghost var s := splines[k];
      ghost var moved := Perturbed(env, s.controlPoints, NoiseMagnitude(params.noise, w, h), params.noiseGrowth, draws);
      PerturbSpline(k);
      ghost var d := before.draws + 2 * |moved|;
      ghost var curve := SampledCurve(moved, params.grains);
      DrawSplineGrains(k);
      assert State() == World(before.splines[k := Spline(moved, s.color)],
                              PaintedAll(before.cells, w, h, Jittered(env, curve, d), s.color, params.opacity),
                              d + 2 * |curve|);
    }

    /** `iterate()`: every spline perturbed and drawn in order, then one more
        iteration counted. */
    method Iterate()
      requires Valid()
      modifies this`splines, this`draws, this`iterationCount, buffer.data
      ensures Valid()
      ensures State() == Iteration(env, params, buffer.width, buffer.height, old(State()))
      ensures iterationCount == old(iterationCount) + 1
    {
      StepAll();
      iterationCount := iterationCount + 1;
    }

    /** The loop of iterate: spline i perturbed and drawn, for each i in
        order. */
    method StepAll()
      requires Valid()
      modifies this`splines, this`draws, buffer.data
      ensures Valid()
      ensures State() == Iteration(env, params, buffer.width, buffer.height, old(State()))
    {
      ghost var start := State();
      var n := |splines|;
      var i := 0;
      while i < n
        invariant i <= n == |splines|
        invariant Valid()
        invariant State() == SteppedUpTo(env, params, buffer.width, buffer.height, start, i)
      {
        i := StepNext(start, i);
      }
    }

    /** One pass of iterate's loop: spline i stepped after the first i, which
        makes the first i + 1 stepped; the next index is returned. */
    method StepNext(ghost start: World, i: nat) returns (next: nat)
      requires Valid() && Shaped(params, buffer.width, buffer.height, start) && i < |start.splines|
      requires State() == SteppedUpTo(env, params, buffer.width, buffer.height, start, i)
      modifies this`splines, this`draws, buffer.data
      ensures Valid() && next == i + 1
      ensures State() == SteppedUpTo(env, params, buffer.width, buffer.height, start, next)
    {
      ghost var pre := State();
      Step(i);
      next := i + 1;
      SteppedOneMore(env, params, buffer.width, buffer.height, start, i, next, pre, State());
    }

    /** `frame()`: when paused, nothing; when running, `speed` iterations,
        then the flush counter advances and on reaching FLUSH_INTERVAL the
        buffer is flushed to the canvas and the counter restarts at 0. */
    method Frame()
      requires Valid() && flushCounter < FLUSH_INTERVAL
      modifies this`splines, this`draws, this`iterationCount, this`flushCounter, this`surface, buffer.data
      ensures Valid() && flushCounter < FLUSH_INTERVAL
      ensures !running ==> State() == old(State()) && iterationCount == old(iterationCount)
                           && flushCounter == old(flushCounter) && surface == old(surface)
      ensures running ==>
        State() == IteratedTimes(env, params, buffer.width, buffer.height, old(State()), params.speed)
        && iterationCount == old(iterationCount) + params.speed
        && flushCounter == NextFlushCounter(old(flushCounter))
        && surface == (if flushCounter == 0 then Flushed(buffer.data[..]) else old(surface))
    {
      if !running {
        return;
      }
      var stepsPerFrame := params.speed;
      RunIterations(stepsPerFrame);
      CountFrame();
    }

    /** The loop of a running frame: `iterate()` called count times. */
    method RunIterations(count: nat)
      requires Valid()
      modifies this`splines, this`draws, this`iterationCount, buffer.data
      ensures Valid()
      ensures State() == IteratedTimes(env, params, buffer.width, buffer.height, old(State()), count)
      ensures iterationCount == old(iterationCount) + count
    {
      ghost var start := State();
      var s := 0;
      while s < count
        invariant s <= count
        invariant Valid()
        invariant iterationCount == old(iterationCount) + s
        invariant State() == IteratedTimes(env, params, buffer.width, buffer.height, start, s)
      {
        ghost var pre := State();
        Iterate();
        var next := s + 1;
        IteratedOneMore(env, params, buffer.width, buffer.height, start, s, next, pre, State());
        s := next;
      }
    }

    /** The end of a running frame: the flush counter advances, and on
        reaching FLUSH_INTERVAL the buffer is flushed to the canvas and the
        counter restarts at 0. */
    method CountFrame()
      requires buffer.Valid() && flushCounter < FLUSH_INTERVAL
      modifies this`flushCounter, this`surface
      ensures flushCounter == NextFlushCounter(old(flushCounter))
      ensures surface == (if flushCounter == 0 then Flushed(buffer.data[..]) else old(surface))
    {
      flushCounter := flushCounter + 1;
      if flushCounter >= FLUSH_INTERVAL {
        surface := buffer.Flush();
        flushCounter := 0;
      }
    }

    /** `restart()` after the canvas is resized to w x h and the parameters
        are read: counters back to 0, a fresh background buffer, and
        numSplines new splines, spline i created by createSpline(i, numSplines). */
    method Restart(w: nat, h: nat, p: Params)
      requires ParamsOk(p)
      modifies this
      ensures Valid() && fresh(buffer) && fresh(buffer.data)
      ensures params == p && running == old(running)
      ensures surface == Flushed(Background(w * h, HexToRgb(p.bgColor)))
      ensures iterationCount == 0 && flushCounter == 0
      ensures buffer.width == w && buffer.height == h
      ensures buffer.data[..] == Background(w * h, HexToRgb(p.bgColor))
      ensures splines == InitialSplines(env, p, w, h, old(draws), p.numSplines)
      ensures draws == old(draws) + p.numSplines * SplineDraws(p)
    {
      params := p;
      iterationCount := 0;
      flushCounter := 0;
      buffer := new FloatBuffer.Init(w, h, params.bgColor);
      CreateSplines();
      surface := buffer.Flush();
    }

    /** restart's loop: spline i created by createSpline(i, numSplines) and
        appended, for each i in order. */
    method CreateSplines()
      requires ParamsOk(params)
      modifies this`splines, this`draws
      ensures splines == InitialSplines(env, params, buffer.width, buffer.height, old(draws), params.numSplines)
      ensures draws == old(draws) + params.numSplines * SplineDraws(params)
    {
      ghost var d0 := draws;
      splines := [];
      var num := params.numSplines;
      var i := 0;
      while i < num
        invariant i <= num
        invariant draws == d0 + i * SplineDraws(params)
        invariant splines == InitialSplines(env, params, buffer.width, buffer.height, d0, i)
      {
        ghost var d := draws;
        var s := CreateSpline(i, num);
        var next := i + 1;
        InitialSplinesGrow(env, params, buffer.width, buffer.height, d0, i, next, d, s);
        splines := splines + [s];
        i := next;
      }
    }

    /** The pause button: running and paused swap; no state is discarded. */
    method TogglePause()
      modifies this`running
      ensures running == !old(running)
    {
      running := !running;
    }

    /** A change to a live control (noise, noiseGrowth, opacity, speed,
        grains): the new parameters take effect from the next iteration,
        with the splines and the buffer kept. */
    method ApplyLiveChange(p: Params)
      requires Valid() && ParamsOk(p) && SameStructure(params, p)
      modifies this`params
      ensures Valid() && params == p
    {
      params := p;
    }
  }
}
