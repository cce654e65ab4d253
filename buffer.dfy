/** The float accumulation buffer: `initFloatBuffer`, `paintGrain` and
    `flushBufferToCanvas`.  The buffer is a flat array of width * height * 4
    channels (R, G, B, A per pixel, row by row).  Grains blend into R, G and B
    without clamping; clamping and rounding happen only when the buffer is
    flushed to 8-bit pixels. */
module AccumulationBuffer {
  import opened Arith
  import opened Colour

  /** `Math.round`: the nearest integer, halves rounded up. */
  function Round(x: real): (n: int)
    ensures x - 0.5 < n as real <= x + 0.5
  {
    (x + 0.5).Floor
  }

  /** `Math.min(255, Math.max(0, v))`. */
  function Clamp(v: real): (c: real)
    ensures 0.0 <= c <= 255.0
    ensures 0.0 <= v <= 255.0 ==> c == v
  {
    var lo := if 0.0 < v then v else 0.0;
    if 255.0 < lo then 255.0 else lo
  }

  /** The display byte of one float channel: clamped, then rounded. */
  function ToByte(v: real): (b: int)
    ensures IsByte(b)
    ensures 0.0 <= v <= 255.0 ==> v - 0.5 < b as real <= v + 0.5
    ensures v <= 0.0 ==> b == 0
    ensures v >= 255.0 ==> b == 255
  {
    Round(Clamp(v))
  }

  /** Channel ch (0 = R, 1 = G, 2 = B, 3 = A) of an opaque pixel of colour c. */
  function Channel(c: Rgb, ch: nat): real
    requires ch < 4
  {
    if ch == 0 then c.r as real else if ch == 1 then c.g as real
    else if ch == 2 then c.b as real else 255.0
  }

  /** Every alpha cell holds 255. */
  predicate Opaque(cells: seq<real>) {
    forall k :: 0 <= k < |cells| && k % 4 == 3 ==> cells[k] == 255.0
  }

  /** The cells of a buffer of n pixels all of colour bg, as initFloatBuffer
      leaves them. */
  function Background(n: nat, bg: Rgb): (cells: seq<real>)
    ensures |cells| == n * 4
  {
    seq(n * 4, k requires 0 <= k < n * 4 => Channel(bg, k % 4))
  }

  /** One grain blended into one channel: `c + (col - c) * alpha`. */
  function Blend(c: real, col: real, alpha: real): real {
    c + (col - c) * alpha
  }

  predicate InCanvas(w: nat, h: nat, px: int, py: int) {
    0 <= px < w && 0 <= py < h
  }

  /** The first cell of pixel (px, py), `(py * w + px) * 4`, is in bounds
      together with the three cells after it. */
  lemma PixelInBounds(w: nat, h: nat, px: int, py: int)
    requires InCanvas(w, h, px, py)
    ensures 0 <= (py * w + px) * 4 && (py * w + px) * 4 + 3 < w * h * 4
  {
    assert py * w <= (h - 1) * w by {
      assert (h - 1) * w - py * w == (h - 1 - py) * w;
    }
    assert (h - 1) * w + w == h * w;
  }

  /** The effect of `paintGrain(x, y, color, alpha)` on the cells. */
  function Painted(cells: seq<real>, w: nat, h: nat, x: real, y: real, color: Rgb, alpha: real): (r: seq<real>)
    requires |cells| == w * h * 4
    ensures |r| == |cells|
  {
    var px, py := Round(x), Round(y);
    if !InCanvas(w, h, px, py) then cells
    else
      PixelInBounds(w, h, px, py);
      var i := (py * w + px) * 4;
      cells[i := Blend(cells[i], color.r as real, alpha)]
           [i + 1 := Blend(cells[i + 1], color.g as real, alpha)]
           [i + 2 := Blend(cells[i + 2], color.b as real, alpha)]
  }

  /** A grain changes the buffer only when its rounded position is on the
      canvas, and then exactly the R, G and B cells of that one pixel, each
      blended towards the colour; the alpha cell and every other cell keep
      their values. */
  lemma PaintedFrame(cells: seq<real>, w: nat, h: nat, x: real, y: real, color: Rgb, alpha: real)
    requires |cells| == w * h * 4
    ensures !InCanvas(w, h, Round(x), Round(y)) ==> Painted(cells, w, h, x, y, color, alpha) == cells
    ensures forall k :: 0 <= k < |cells| ==>
      Painted(cells, w, h, x, y, color, alpha)[k] ==
        if InCanvas(w, h, Round(x), Round(y))
           && k / 4 == Round(y) * w + Round(x) && k % 4 < 3
        then Blend(cells[k], Channel(color, k % 4), alpha)
        else cells[k]
  {
    var px, py := Round(x), Round(y);
    if InCanvas(w, h, px, py) {
      PixelInBounds(w, h, px, py);
      var p := py * w + px;
      forall k | 0 <= k < |cells|
        ensures Painted(cells, w, h, x, y, color, alpha)[k] ==
          if k / 4 == p && k % 4 < 3 then Blend(cells[k], Channel(color, k % 4), alpha) else cells[k]
      {
        assert (k / 4 == p && k % 4 < 3) <==> (p * 4 <= k < p * 4 + 3);
        if k / 4 == p && k % 4 < 3 {
          assert k == p * 4 + k % 4;
        }
      }
    }
  }

  /** Painting keeps every alpha cell at 255. */
  lemma PaintedOpaque(cells: seq<real>, w: nat, h: nat, x: real, y: real, color: Rgb, alpha: real)
    requires |cells| == w * h * 4
    ensures Opaque(cells) ==> Opaque(Painted(cells, w, h, x, y, color, alpha))
  {
    PaintedFrame(cells, w, h, x, y, color, alpha);
  }

  /** The 8-bit image that `flushBufferToCanvas` puts on the canvas.  Every value is a byte, every alpha value is 255, and every colour
      value is its cell clamped to 0..255 and rounded to nearest. */
  function Flushed(cells: seq<real>): (image: seq<int>)
    ensures |image| == |cells|
    ensures forall k :: 0 <= k < |cells| ==> IsByte(image[k])
    ensures forall k :: 0 <= k < |cells| && k % 4 == 3 ==> image[k] == 255
    ensures forall k :: 0 <= k < |cells| && k % 4 < 3 && 0.0 <= cells[k] <= 255.0 ==>
      cells[k] - 0.5 < image[k] as real <= cells[k] + 0.5
    ensures forall k :: 0 <= k < |cells| && k % 4 < 3 && cells[k] <= 0.0 ==> image[k] == 0
    ensures forall k :: 0 <= k < |cells| && k % 4 < 3 && cells[k] >= 255.0 ==> image[k] == 255
  {
    seq(|cells|, k requires 0 <= k < |cells| => ChannelByte(cells[k], k % 4))
  }

  /** The byte shown for a cell of channel ch (3 = alpha, always opaque). */
  function ChannelByte(v: real, ch: nat): int {
    if ch == 3 then 255 else ToByte(v)
  }

  /** k grains of one colour painted over one channel value. */
  function BlendTimes(c: real, col: real, alpha: real, k: nat): real {
    if k == 0 then c else Blend(BlendTimes(c, col, alpha, k - 1), col, alpha)
  }

  function Pow(b: real, k: nat): real {
    if k == 0 then 1.0 else b * Pow(b, k - 1)
  }

  /** After k grains the remaining distance to the grain colour is exactly
      (1 - alpha)^k times the starting distance. */
  lemma {:induction false} BlendTimesDistance(c: real, col: real, alpha: real, k: nat)
    ensures BlendTimes(c, col, alpha, k) - col == Mul(Pow(1.0 - alpha, k), c - col)
  {
    if k > 0 {
      BlendTimesDistance(c, col, alpha, k - 1);
      var prev := BlendTimes(c, col, alpha, k - 1);
      var p := Pow(1.0 - alpha, k - 1);
      assert BlendTimes(c, col, alpha, k) == Blend(prev, col, alpha);
      BlendDistance(prev, col, alpha);
      assert Pow(1.0 - alpha, k) == Mul(1.0 - alpha, p);
      MulAssoc(1.0 - alpha, p, c - col);
    }
  }

  /** One blend leaves (1 - alpha) of the distance to the colour. */
  lemma BlendDistance(c: real, col: real, alpha: real)
    ensures Blend(c, col, alpha) - col == Mul(1.0 - alpha, c - col)
  {
  }

  lemma MulAssoc(a: real, b: real, c: real)
    ensures Mul(a, Mul(b, c)) == Mul(Mul(a, b), c)
  {
  }

  /** The same grain painted k times. */
  function PaintedTimes(cells: seq<real>, w: nat, h: nat, x: real, y: real, color: Rgb, alpha: real, k: nat): (r: seq<real>)
    requires |cells| == w * h * 4
    ensures |r| == |cells|
  {
    if k == 0 then cells
    else Painted(PaintedTimes(cells, w, h, x, y, color, alpha, k - 1), w, h, x, y, color, alpha)
  }

  /** Painting the same on-canvas grain k times moves each of its pixel's
      R, G and B cells to the grain colour plus (1 - alpha)^k times the
      starting distance; at alpha = 1 one grain reaches the colour exactly. */
  lemma {:induction false} RepeatedGrainConverges(cells: seq<real>, w: nat, h: nat, x: real, y: real, color: Rgb, alpha: real, k: nat, j: nat)
    requires |cells| == w * h * 4 && InCanvas(w, h, Round(x), Round(y)) && j < 3
    ensures (Round(y) * w + Round(x)) * 4 + j < |cells|
    ensures var i := (Round(y) * w + Round(x)) * 4 + j;
      PaintedTimes(cells, w, h, x, y, color, alpha, k)[i] - Channel(color, j)
        == Mul(Pow(1.0 - alpha, k), cells[i] - Channel(color, j))
  {
    var p := Round(y) * w + Round(x);
    PixelInBounds(w, h, Round(x), Round(y));
    CellOfPixel(p, j);
    CellConverges(cells, w, h, x, y, color, alpha, k, p * 4 + j);
  }

  lemma CellOfPixel(p: int, j: nat)
    requires j < 4
    ensures (p * 4 + j) / 4 == p && (p * 4 + j) % 4 == j
  {
  }

  lemma CellConverges(cells: seq<real>, w: nat, h: nat, x: real, y: real, color: Rgb, alpha: real, k: nat, i: nat)
    requires |cells| == w * h * 4 && InCanvas(w, h, Round(x), Round(y))
    requires i < |cells| && i / 4 == Round(y) * w + Round(x) && i % 4 < 3
    ensures PaintedTimes(cells, w, h, x, y, color, alpha, k)[i] - Channel(color, i % 4)
        == Mul(Pow(1.0 - alpha, k), cells[i] - Channel(color, i % 4))
  {
    var col := Channel(color, i % 4);
    ChannelAfter(cells, w, h, x, y, color, alpha, k, i);
    BlendTimesDistance(cells[i], col, alpha, k);
  }

  lemma {:induction false} ChannelAfter(cells: seq<real>, w: nat, h: nat, x: real, y: real, color: Rgb, alpha: real, k: nat, i: nat)
    requires |cells| == w * h * 4 && InCanvas(w, h, Round(x), Round(y))
    requires i < |cells| && i / 4 == Round(y) * w + Round(x) && i % 4 < 3
    ensures PaintedTimes(cells, w, h, x, y, color, alpha, k)[i] == BlendTimes(cells[i], Channel(color, i % 4), alpha, k)
  {
    if k > 0 {
      ChannelAfter(cells, w, h, x, y, color, alpha, k - 1, i);
      PaintedFrame(PaintedTimes(cells, w, h, x, y, color, alpha, k - 1), w, h, x, y, color, alpha);
    }
  }

  /** The cells idx to idx + 3 of a pixel starting at idx are its channels 0 to 3. */
  lemma SamePixel(idx: nat, k: nat)
    requires idx % 4 == 0 && idx <= k < idx + 4
    ensures k % 4 == k - idx
  {
  }

  /** The four cells of one pixel starting at idx set to (bg.r, bg.g, bg.b,
      255), as the loop of initFloatBuffer does for each pixel. */
  method FillPixel(cells: array<real>, idx: nat, bg: Rgb)
    requires idx + 4 <= cells.Length
    modifies cells
    ensures forall k :: 0 <= k < cells.Length ==>
      cells[k] == if idx <= k < idx + 4 then Channel(bg, k - idx) else old(cells[k])
  {
    cells[idx] := bg.r as real;
    cells[idx + 1] := bg.g as real;
    cells[idx + 2] := bg.b as real;
    cells[idx + 3] := 255.0;
  }

  /** One turn of initFloatBuffer's loop: the cells before idx already hold
      the background, and after filling the pixel at idx so do those before
      the next pixel. */
  method FillNext(cells: array<real>, idx: nat, bg: Rgb) returns (next: nat)
    requires idx % 4 == 0 && idx + 4 <= cells.Length
    requires forall k :: 0 <= k < idx ==> cells[k] == Channel(bg, k % 4)
    modifies cells
    ensures next == idx + 4 && next % 4 == 0 && next <= cells.Length
    ensures forall k :: 0 <= k < next ==> cells[k] == Channel(bg, k % 4)
  {
    FillPixel(cells, idx, bg);
    forall k | idx <= k < idx + 4 ensures cells[k] == Channel(bg, k % 4) {
      SamePixel(idx, k);
    }
    next := idx + 4;
  }

  /** initFloatBuffer's loop over the n pixels of a fresh buffer. */
  method NewBackground(n: nat, bg: Rgb) returns (cells: array<real>)
    ensures fresh(cells) && cells[..] == Background(n, bg)
  {
    var len := n * 4;
    cells := new real[len];
    var idx := 0;
    while idx < len
      invariant 0 <= idx <= len && idx % 4 == 0
      invariant forall k :: 0 <= k < idx ==> cells[k] == Channel(bg, k % 4)
    {
      NextPixelFits(idx, len);
      idx := FillNext(cells, idx, bg);
    }
  }

  /** A pixel that starts inside a whole number of pixels ends inside them. */
  lemma NextPixelFits(idx: nat, len: nat)
    requires idx % 4 == 0 && len % 4 == 0 && idx < len
    ensures idx + 4 <= len
  {
  }

  /** One turn of flushBufferToCanvas's loop: the bytes of the pixel at idx
      appended to those of the pixels before it. */
  method FlushNext(cells: seq<real>, image: seq<int>, idx: nat) returns (image': seq<int>, next: nat)
    requires idx % 4 == 0 && idx + 4 <= |cells| && |image| == idx
    requires forall k :: 0 <= k < idx ==> image[k] == ChannelByte(cells[k], k % 4)
    ensures next == idx + 4 && next % 4 == 0 && next <= |cells| && |image'| == next
    ensures forall k :: 0 <= k < next ==> image'[k] == ChannelByte(cells[k], k % 4)
  {
    image' := image + [ToByte(cells[idx]), ToByte(cells[idx + 1]), ToByte(cells[idx + 2]), 255];
    forall k | idx <= k < idx + 4 ensures image'[k] == ChannelByte(cells[k], k % 4) {
      SamePixel(idx, k);
    }
    next := idx + 4;
  }

  /** The float buffer: the canvas size and the cells, R, G, B and A for
      each pixel, row by row. */
  class FloatBuffer {
    const width: nat
    const height: nat
    const data: array<real>

    ghost predicate Valid()
      reads data
    {
      data.Length == width * height * 4 && Opaque(data[..])
    }

    /** `initFloatBuffer()`: width * height pixels, each (bg.r, bg.g, bg.b, 255)
        for bg = hexToRgb(bgColor). */
    constructor Init(w: nat, h: nat, bgColor: string)
      ensures Valid() && fresh(data)
      ensures width == w && height == h
      ensures data[..] == Background(w * h, HexToRgb(bgColor))
    {
      MulNonnegInt(w, h);
      var cells := NewBackground(w * h, HexToRgb(bgColor));
      width, height, data := w, h, cells;
    }

    /** `paintGrain(x, y, color, alpha)`. */
    method PaintGrain(x: real, y: real, color: Rgb, alpha: real)
      requires Valid()
      modifies data
      ensures Valid()
      ensures data[..] == Painted(old(data[..]), width, height, x, y, color, alpha)
    {
      ghost var before := data[..];
      var px := Round(x);
      var py := Round(y);
      if px < 0 || px >= width || py < 0 || py >= height {
        return;
      }
      PixelInBounds(width, height, px, py);
      var idx := (py * width + px) * 4;
      data[idx] := data[idx] + (color.r as real - data[idx]) * alpha;
      data[idx + 1] := data[idx + 1] + (color.g as real - data[idx + 1]) * alpha;
      data[idx + 2] := data[idx + 2] + (color.b as real - data[idx + 2]) * alpha;
      ghost var after := before[idx := Blend(before[idx], color.r as real, alpha)]
                               [idx + 1 := Blend(before[idx + 1], color.g as real, alpha)]
                               [idx + 2 := Blend(before[idx + 2], color.b as real, alpha)];
      assert forall k :: 0 <= k < data.Length ==> data[k] == after[k];
      assert data[..] == after;
      PaintedOpaque(before, width, height, x, y, color, alpha);
    }

    /** `flushBufferToCanvas()`: the 8-bit image of the buffer.  The buffer
        is only read, so two flushes with no grain in between agree. */
    method Flush() returns (image: seq<int>)
      requires Valid()
      ensures image == Flushed(data[..])
    {
      var cells := data[..];
      image := [];
      var idx := 0;
      while idx < |cells|
        invariant 0 <= idx <= |cells| && idx % 4 == 0
        invariant |image| == idx
        invariant forall k :: 0 <= k < idx ==> image[k] == ChannelByte(cells[k], k % 4)
      {
        NextPixelFits(idx, |cells|);
        image, idx := FlushNext(cells, image, idx);
      }
      assert image == Flushed(cells);
    }
  }

  /** Painting a black grain at half opacity on pixel (1, 1) of a 4 x 4 white
      buffer leaves that pixel at 127.5 in each colour channel, which flushes
      to 128, and leaves every other cell at 255. */
  lemma WhiteCanvasGrain()
    ensures var cells := Painted(Background(16, Rgb(255, 255, 255)), 4, 4, 1.0, 1.0, Rgb(0, 0, 0), 0.5);
      (forall k :: 20 <= k < 23 ==> cells[k] == 127.5 && Flushed(cells)[k] == 128)
      && (forall k :: 0 <= k < 64 && !(20 <= k < 23) ==> cells[k] == 255.0)
  {
    var white := Background(16, Rgb(255, 255, 255));
    assert Round(1.0) == 1;
    PaintedFrame(white, 4, 4, 1.0, 1.0, Rgb(0, 0, 0), 0.5);
    assert Round(127.5) == 128;
  }
}
