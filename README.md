# Sand Spline, modelled in Dafny

Sand Spline is a generative-art renderer. A handful of splines (smooth curves through a few control points) are laid out on a canvas. On every iteration each spline's control points receive Gaussian noise that grows along the spline. The curve is then resampled into `grains` points, and each point, slightly jittered, is painted as a nearly transparent grain into a float accumulation buffer. Every fourth animation frame that buffer is clamped, rounded and put on the canvas.

This project models the core of `sand-spline.js` in seven modules:

- `Curve`: `lerp` and `evaluateBSpline`, a clamped Catmull-Rom interpolator. The pure functions `Samples`/`SampleAt` define the curve, and the method with the source's loop is proved equal to them. Lemmas show that the curve passes through its control points.
- `Colour`: `hexToRgb`, proved sound and complete against an independent printer `RgbToHex`, with the round trip.
- `AccumulationBuffer`: the float buffer as a class over an `array<real>`, with `initFloatBuffer`, `paintGrain` and `flushBufferToCanvas`. The pure functions `Background`, `Painted` and `Flushed` define what each operation does to the cells. The module has the frame condition of a grain and the convergence of repeated grains.
- `Layout`: the placement of `createSpline` for each layout, the noise of `perturbSpline` and the grain jitter of `drawSplineGrains`, as functions of the draws they take from the random stream.
- `Renderer`: the script's module-level state as the class `SandSpline` (`splines`, the buffer, `running`, `iterationCount`, `flushCounter`). It has `createSpline`, `perturbSpline`, `drawSplineGrains`, `iterate`, `frame`, `restart`, the pause toggle and a live parameter change. Each is proved equal to a pure function of the old state (`StepSpline`, `Iteration`, `IteratedTimes`, `InitialSplines`, `NextFlushCounter`).
- `Ambient`: the random sources and `Math.cos`/`Math.sin`/`Math.pow`, which are parameters of the model.
- `Arith`: small facts about products of reals and about integer products and remainders.

Randomness is a parameter. `Env.gaussian(d)` and `Env.uniform(d)` are the values of the d-th draw. The renderer keeps `draws`, the index of the next draw, and every `gaussianRandom()` or `Math.random()` call takes the next index. Because the two functions are arbitrary, any sequence of values the script could observe is one choice of `Env`.

Coordinates and buffer cells are `real`. `Math.round(x)` is `floor(x + 0.5)`.

## Model

| member | source | states |
|---|---|---|
| Curve.Lerp | sand-spline.js:232-234 | t = 0 gives a, t = 1 gives b, and any t in [0, 1] gives a value between a and b |
| Curve.CatmullRom | sand-spline.js:261-277 | the basis gives p1 at local fraction 0 and p2 at local fraction 1, and a constant when all four points agree |
| Curve.SegmentParam | sand-spline.js:250-251 | `t * (n - 1)` lies in [0, n - 1] |
| Curve.SegmentIndex | sand-spline.js:252 | the segment index lies in [0, n - 2] and brackets the sample's parameter |
| Curve.LocalFraction | sand-spline.js:253 | the local fraction lies in [0, 1] |
| Curve.Neighbours | sand-spline.js:256-259 | the four clamped neighbour indices are all in [0, n - 1]; the middle two are idx and idx + 1, and only the outer two are clamped, at the ends |
| Curve.Samples | sand-spline.js:249-280 | the sampled curve has exactly numSamples points, sample i being `SampleAt` (segment, clamped neighbours, Catmull-Rom basis) |
| Curve.EvaluateBSpline | sand-spline.js:241-283 | fewer than two control points give back the input unchanged; otherwise exactly `Samples(controlPoints, numSamples)`, in order; a single sample with two or more points is excluded |
| Curve.EvaluateSample | sand-spline.js:250-279 | one pass of the loop computes `SampleAt(controlPoints, numSamples, i)` |
| Curve.SampleAtKnot | sand-spline.js:250-277 | a sample whose `t * (n - 1)` equals an integer k is control point k, including k = n - 1, where the clamped last segment has local fraction 1 |
| Curve.FirstSample | sand-spline.js:249-277 | the first sample is the first control point |
| Curve.LastSample | sand-spline.js:249-277 | the last sample is the last control point |
| Curve.ControlPointsInterpolated | sand-spline.js:247-277 | when numSamples - 1 is a multiple of n - 1, every control point k appears as sample k * (numSamples - 1) / (n - 1) |
| Colour.HexValue | sand-spline.js:368 | a hex digit of either case has a value below 16 |
| Colour.PairValue | sand-spline.js:371-373 | `parseInt` of two hex digits is a byte whose high and low nibbles are the two digits |
| Colour.HexToRgb | sand-spline.js:367-376 | the result is always three bytes; any string that is not an optional `#` plus six hex digits gives (250, 248, 245) |
| Colour.HexToRgbSound | sand-spline.js:367-376 | a well-formed string, lower-cased, is its parsed colour printed back as hex, with its `#` if it had one |
| Colour.HexToRgbComplete | sand-spline.js:367-376 | every string that is a colour's hex form up to letter case, with or without `#`, is well-formed and parses to exactly that colour |
| Colour.HexToRgbRoundTrip | sand-spline.js:367-376 | printing a colour and parsing it back, with or without `#`, gives the colour |
| Colour.DigitsPrint | sand-spline.js:368-374 | six hex digits, lower-cased, are the printed form of the three digit-pair values |
| Colour.PairPrints | sand-spline.js:371-373 | one digit pair, lower-cased, is its byte value printed |
| Colour.PairFromPrinted | sand-spline.js:371-373 | a pair that lower-cases to a byte's printed form consists of hex digits and parses to that byte |
| AccumulationBuffer.Round | sand-spline.js:379-380 | `Math.round` is within one half of its argument, and halves round up |
| AccumulationBuffer.Clamp | sand-spline.js:397 | `min(255, max(0, v))` lies in [0, 255] and is v whenever v already does |
| AccumulationBuffer.ToByte | sand-spline.js:397-403 | a flushed channel is a byte: the nearest integer to the cell when the cell is in [0, 255], 0 at or below 0, and 255 at or above 255 |
| AccumulationBuffer.Background | sand-spline.js:354-364 | the initial buffer has width * height * 4 cells |
| AccumulationBuffer.PixelInBounds | sand-spline.js:381-383 | for an on-canvas pixel the index `(py * w + px) * 4` and the three cells after it are inside the buffer |
| AccumulationBuffer.Painted | sand-spline.js:378-390 | painting a grain keeps the buffer's length |
| AccumulationBuffer.PaintedFrame | sand-spline.js:379-389 | an off-canvas grain changes nothing; an on-canvas grain changes exactly the R, G and B cells of its rounded pixel, each to `Blend(c, col, alpha)` = `c + (col - c) * alpha`, and keeps the alpha cell and every other cell |
| AccumulationBuffer.PaintedOpaque | sand-spline.js:385-389 | painting keeps every alpha cell at 255 |
| AccumulationBuffer.Flushed | sand-spline.js:392-407 | the image has one byte per cell; every alpha byte is 255, and every colour byte is its cell clamped to [0, 255] and rounded |
| AccumulationBuffer.BlendTimesDistance | sand-spline.js:385-389 | after k blends toward a colour, the distance left is (1 - alpha)^k times the starting distance |
| AccumulationBuffer.RepeatedGrainConverges | sand-spline.js:378-390 | the same on-canvas grain painted k times leaves each R, G, B cell of its pixel at the colour plus (1 - alpha)^k times the starting distance |
| AccumulationBuffer.CellConverges | sand-spline.js:378-390 | the same convergence, stated for one cell of the grain's pixel |
| AccumulationBuffer.ChannelAfter | sand-spline.js:378-390 | k paintings of one grain act on a cell of its pixel as k blends |
| AccumulationBuffer.WhiteCanvasGrain | sand-spline.js:378-407 | a black grain at opacity 0.5 on pixel (1, 1) of a 4 x 4 white buffer leaves 127.5 there, which flushes to 128, and 255 everywhere else |
| AccumulationBuffer.FillPixel | sand-spline.js:359-363 | the four cells of one pixel become (bg.r, bg.g, bg.b, 255), and no other cell changes |
| AccumulationBuffer.FillNext | sand-spline.js:358-364 | one pass of the fill loop extends the filled prefix by one pixel |
| AccumulationBuffer.NewBackground | sand-spline.js:354-364 | the allocation and fill loop give a fresh array equal to `Background(n, bg)` |
| AccumulationBuffer.FlushNext | sand-spline.js:395-405 | one pass of the flush loop appends one pixel's four bytes |
| AccumulationBuffer.FloatBuffer.Init | sand-spline.js:350-365 | `initFloatBuffer`: width * height pixels, each (bg.r, bg.g, bg.b, 255) for bg = hexToRgb(bgColor), with every alpha cell 255 |
| AccumulationBuffer.FloatBuffer.PaintGrain | sand-spline.js:378-390 | the new cells are `Painted` of the old cells; the alpha cells stay 255 |
| AccumulationBuffer.FloatBuffer.Flush | sand-spline.js:392-407 | the image is a function of the cells alone, and the buffer is not modified (no modifies clause), so two flushes with no grain in between agree |
| Layout.LayoutOf | sand-spline.js:296-338 | "horizontal", "vertical" and "radial" each select their own layout and no other name does; every other name is the random layout |
| Layout.PaletteColour | sand-spline.js:293-294 | spline index gets `palette[index % palette.length]`, which is in the palette and is `palette[index]` when index is in range |
| Layout.PaletteCycles | sand-spline.js:294 | colours repeat with the palette's length |
| Layout.Fraction | sand-spline.js:300 | `j / (numPts - 1)` lies in [0, 1], is 0 for the first point and 1 for the last |
| Layout.Band | sand-spline.js:298 | on a non-empty canvas a spline's band lies strictly inside the canvas |
| Layout.InitialPoints | sand-spline.js:287-344 | createSpline makes exactly numPts control points |
| Layout.HorizontalSpan | sand-spline.js:296-305 | a horizontal spline starts at x = 0, ends at x = w, and increases strictly in x; each y is its band plus 5% of the height times its Gaussian draw |
| Layout.FractionIncreases | sand-spline.js:300 | successive points are strictly further along the spline |
| Layout.VerticalIsTransposed | sand-spline.js:306-314 | the vertical layout is the horizontal one on the transposed canvas, with x and y swapped |
| Layout.ScatterOnCanvas | sand-spline.js:330-337 | when every uniform draw is in [0, 1), every random-layout point is on the canvas |
| Layout.ScatterPointOnCanvas | sand-spline.js:333-336 | one random-layout point from draws in [0, 1] is on the canvas |
| Layout.Perturbed | sand-spline.js:415-426 | perturbation keeps the number of control points; point i is `PerturbedPoint`, moved by two Gaussian draws scaled by `NoiseMagnitude` (`noise * min(w, h)`) times `pow((i + 1) / n, growth)` |
| Layout.PerturbedWithoutNoise | sand-spline.js:415-426 | with zero noise a perturbation leaves every control point where it is |
| Layout.SampledCurve | sand-spline.js:433 | what drawSplineGrains samples: numSamples points from two or more control points, and the control points themselves otherwise |
| Layout.Jittered | sand-spline.js:436-440 | there is one grain per sample; grain i is `JitteredPoint`, its sample moved by half of each of two Gaussian draws |
| Renderer.PaintedAll | sand-spline.js:436-442 | painting a run of grains keeps the buffer's length and its opaque alpha |
| Renderer.UntouchedCellsKept | sand-spline.js:436-442 | a cell whose pixel no grain lands on keeps its value, so grains that all fall off the canvas change nothing |
| Renderer.StepSpline | sand-spline.js:446-449 | perturbing and drawing one spline keeps the buffer's size and opaque alpha, the number of splines and every spline's point count |
| Renderer.SteppedUpTo | sand-spline.js:446-449 | stepping the first k splines in order keeps the same shape |
| Renderer.Iteration | sand-spline.js:445-451 | one iterate keeps the world's shape and the number of splines |
| Renderer.IteratedTimes | sand-spline.js:463-465 | any number of iterations keep the world's shape |
| Renderer.InitialSplines | sand-spline.js:511-515 | restart's spline list has the requested length, and every spline has numPoints control points |
| Renderer.NextFlushCounter | sand-spline.js:467-471 | after a running frame the counter is below FLUSH_INTERVAL, and from a counter in range it is the old one plus 1 modulo 4 |
| Renderer.FlushCadence | sand-spline.js:456-471 | from a restart, the counter after f frames is f mod 4 and the buffer has been flushed f / 4 times |
| Renderer.SandSpline.constructor | sand-spline.js:182-192 | the script's start, followed by `restart()`: running, counters at 0, a freshly allocated buffer (object and cell array) holding the background colour at the canvas size, the spline list `InitialSplines` from the first draw of the stream, and the canvas showing the flushed background |
| Renderer.SandSpline.Gaussian | sand-spline.js:223-230 | `gaussianRandom()` returns the next draw of the stream, as a Gaussian, and advances the stream by one |
| Renderer.SandSpline.Uniform | sand-spline.js:334-335 | `Math.random()` returns the next draw of the stream, as a uniform value, and advances the stream by one |
| Renderer.SandSpline.PlacePoint | sand-spline.js:296-338 | control point j is the layout's point for the draws it takes, and the stream advances by that layout's draws per point |
| Renderer.SandSpline.PlaceHorizontal | sand-spline.js:296-305 | a horizontal point equal to `LayoutPoint` (`HorizontalPoint`), from one Gaussian draw |
| Renderer.SandSpline.PlaceVertical | sand-spline.js:306-314 | a vertical point equal to `LayoutPoint` (`VerticalPoint`), from one Gaussian draw |
| Renderer.SandSpline.PlaceRadial | sand-spline.js:315-329 | a radial point equal to `LayoutPoint` (`RadialPoint`), from one Gaussian draw |
| Renderer.SandSpline.PlaceScatter | sand-spline.js:330-337 | a random-layout point equal to `LayoutPoint` (`ScatterPoint`), from two uniform draws |
| Renderer.SandSpline.CreateSpline | sand-spline.js:287-344 | `createSpline(index, total)` gives the numPoints control points of the layout and the colour `palette[index % length]`, and takes numPoints times the layout's draws per point |
| Renderer.SandSpline.PerturbSpline | sand-spline.js:415-426 | spline k's control points are replaced by their perturbed positions, its colour and every other spline are kept, and two draws are taken per point |
| Renderer.SandSpline.PerturbPoints | sand-spline.js:420-425 | the loop returns `Perturbed` of the points |
| Renderer.SandSpline.PerturbPoint | sand-spline.js:422-424 | point i moves by its two Gaussian draws, x first, scaled by `noiseMag * pow((i + 1) / n, growth)` |
| Renderer.SandSpline.DrawSplineGrains | sand-spline.js:428-443 | the buffer becomes the old buffer with the spline's jittered samples painted in order, in its colour and at the configured opacity, and the alpha cells stay 255 |
| Renderer.SandSpline.PaintGrains | sand-spline.js:436-442 | the loop paints every jittered sample in order, two draws per grain |
| Renderer.SandSpline.JitterGrain | sand-spline.js:439-440 | a grain is its sample moved by half of each of two Gaussian draws |
| Renderer.SandSpline.Step | sand-spline.js:447-448 | perturbing and then drawing spline k moves the state as StepSpline does |
| Renderer.SandSpline.Iterate | sand-spline.js:445-451 | the state becomes one Iteration of the old state, and iterationCount increases by exactly 1 |
| Renderer.SandSpline.StepAll | sand-spline.js:446-449 | iterate's loop steps every spline in order |
| Renderer.SandSpline.StepNext | sand-spline.js:446-449 | one pass of iterate's loop extends the stepped prefix by one spline |
| Renderer.SandSpline.Frame | sand-spline.js:459-471 | paused: nothing changes; running: exactly `speed` iterations, iterationCount + speed, and the flush counter advanced; the canvas is the flushed buffer exactly when the counter comes back to 0, and the counter stays below FLUSH_INTERVAL |
| Renderer.SandSpline.RunIterations | sand-spline.js:462-465 | count calls of iterate give IteratedTimes(count) and add count to iterationCount |
| Renderer.SandSpline.CountFrame | sand-spline.js:467-471 | the counter advances, and on reaching FLUSH_INTERVAL the buffer is flushed to the canvas and the counter becomes 0 |
| Renderer.SandSpline.Restart | sand-spline.js:502-526 | both counters are 0, the buffer is freshly allocated (object and cell array) and holds the background colour at the new canvas size, the spline list is createSpline(i, numSplines) for each i in order, the canvas shows the background, and running is kept |
| Renderer.SandSpline.CreateSplines | sand-spline.js:511-515 | restart's loop builds the InitialSplines list and takes numSplines times one spline's draws |
| Renderer.SandSpline.TogglePause | sand-spline.js:617-623 | the pause button flips running |
| Renderer.SandSpline.ApplyLiveChange | sand-spline.js:570-573 | a live control takes effect with the splines, the buffer and the counters kept |

## Left out

- The DOM and the canvas. `createImageData`/`putImageData` become the `surface` field that `Flush` returns into. `fillRect` with the background colour is modelled as a flush of the freshly initialised buffer. The two differ in these cases. When `bgColor` is six hex digits without a `#` (such as `faf8f5`), the buffer (and the model's `surface`) holds the parsed colour, but the string is not a CSS colour, so the canvas keeps its previous fill style. When `bgColor` is rejected by `hexToRgb`, the buffer holds the default (250, 248, 245), while the canvas is filled with `bgColor` itself if it is another CSS colour (`#fff`, `white`, `rgb(0,0,0)`), and keeps its previous fill style if it is not a CSS colour at all.
- `requestAnimationFrame` and `cancelAnimationFrame`, the iteration-count display, the control bindings, `readParams`, `setControlsFromParams`, `updateValueDisplays`, the resize handler and PNG export are browser plumbing and are not modelled. `resizeCanvas` is represented only by the new canvas size it hands to `Restart`.
- `gaussianRandom`'s Box-Muller transform (log, sqrt, cos), `Math.random`, `Math.cos`, `Math.sin` and `Math.pow` are parameters (`Env`). A Gaussian counts as one draw of the stream, although the script's `gaussianRandom` consumes two or more `Math.random` values. Distributions are not modelled.
- IEEE-754 arithmetic. Cells, coordinates and parameters are reals, so the proved equalities are exact where the script's doubles are only close.
- The layout name. `Params.layout` holds the `LayoutKind` that `LayoutOf` gives for the script's `params.layout` string, that is, the layout after createSpline's dispatch on the name.
- The `PALETTES` and `PRESETS` tables. `Params` carries the palette already looked up, and `ParamsOk` requires it to be non-empty. An unknown palette name makes the script fail.
- ParamsOk: excludes two inputs on which the script computes NaN. With `numPoints == 1` in a layout other than random, `j / (numPts - 1)` is `0 / 0`, so one coordinate of every point (x in the horizontal layout, y in the vertical one, both in the radial one) is NaN. The script keeps running: each grain is either dropped by paintGrain's bounds check on its finite coordinate or written to a NaN index, which the typed array ignores, so that spline draws nothing. The model excludes this input rather than model NaN coordinates. With `grains == 1` and two or more control points, `evaluateBSpline` indexes the control points with NaN and then reads a property of `undefined`, which throws.
- Renderer.SandSpline.PerturbSpline: the script moves the coordinates of the existing point objects in place. The model replaces the spline with a new sequence of point values, so sharing of point objects between splines is not captured (the script never shares them).
- Renderer.SandSpline.ApplyLiveChange: covers only changes to the live controls (noise, noiseGrowth, opacity, speed, grains). A change to a structural control goes through `Restart`, as the script's bindings do.
- Renderer.SandSpline.Frame: requires the flush counter to be below FLUSH_INTERVAL. Every frame and restart keeps it so on a canvas of positive area.
- Renderer.SandSpline.Frame: on a 0 x 0 canvas (which `resizeCanvas` produces when the container's smaller inner side minus 40 is 0), the script's flush calls `createImageData(0, 0)`, which throws. The fourth frame then stops before resetting the counter and before requesting the next frame, leaving `flushCounter` at 4 and the animation halted. The model does not model that exception: its `Flush` returns the empty image, and `Frame` resets the counter to 0 and keeps running.
