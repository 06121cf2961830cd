/**
 The client-side image filter: a per-pixel brightness, contrast and
 saturation pass over an RGBA byte buffer, followed, when the sharpness factor
 exceeds 1, by a 3x3 sharpening convolution with edge-replicated sampling and
 a linear blend towards the convolved value.

 The canvas buffer is a `seq<int>` of length 4*w*h holding bytes, pixels in
 row-major order, channels R, G, B, A. Parameters are exact `real`s.
 */
module ImageEnhance {
  import opened Js

  // ---------------------------------------------------------------------------
  // Parameters

  /** The four multiplicative factors of one enhancement. */
  datatype Adjustments = Adjustments(brightness: real, contrast: real, saturation: real, sharpness: real)

  /** The caller's options object; each field may be left out. */
  datatype Overrides = Overrides(brightness: Field<real>, contrast: Field<real>,
                                 saturation: Field<real>, sharpness: Field<real>)

  /** Defaults of the destructuring in `enhanceImageWithCanvas`. */
  const Defaults := Adjustments(1.2, 1.15, 1.25, 1.1)

  /** The options `autoEnhanceImage` passes. */
  const AutoEnhanceOverrides := Overrides(Present(1.15), Present(1.1), Present(1.2), Present(1.05))

  /** One destructuring default: `undefined` takes the default, while `null`
      is kept and reaches the arithmetic, where JavaScript reads it as 0. */
  function PickField(f: Field<real>, default: real): real {
    match f
    case Undefined => default
    case Null => 0.0
    case Present(x) => x
  }

  /** Merges the options over the defaults, each field on its own. */
  function Resolve(o: Overrides): (a: Adjustments)
    ensures o.brightness.Undefined? ==> a.brightness == 1.2
    ensures o.contrast.Undefined? ==> a.contrast == 1.15
    ensures o.saturation.Undefined? ==> a.saturation == 1.25
    ensures o.sharpness.Undefined? ==> a.sharpness == 1.1
    ensures o.brightness.Present? ==> a.brightness == o.brightness.value
    ensures o.contrast.Present? ==> a.contrast == o.contrast.value
    ensures o.saturation.Present? ==> a.saturation == o.saturation.value
    ensures o.sharpness.Present? ==> a.sharpness == o.sharpness.value
    ensures o.brightness.Null? ==> a.brightness == 0.0
    ensures o.contrast.Null? ==> a.contrast == 0.0
    ensures o.saturation.Null? ==> a.saturation == 0.0
    ensures o.sharpness.Null? ==> a.sharpness == 0.0
  {
    Adjustments(PickField(o.brightness, Defaults.brightness), PickField(o.contrast, Defaults.contrast),
                PickField(o.saturation, Defaults.saturation), PickField(o.sharpness, Defaults.sharpness))
  }

  /** Each resolved factor depends on its own option only. */
  lemma ResolveFieldsIndependent(o: Overrides, o': Overrides)
    ensures o.brightness == o'.brightness ==> Resolve(o).brightness == Resolve(o').brightness
    ensures o.contrast == o'.contrast ==> Resolve(o).contrast == Resolve(o').contrast
    ensures o.saturation == o'.saturation ==> Resolve(o).saturation == Resolve(o').saturation
    ensures o.sharpness == o'.sharpness ==> Resolve(o).sharpness == Resolve(o').sharpness
  {
  }

  /** `autoEnhanceImage` runs the filter with 1.15 / 1.1 / 1.2 / 1.05, so it
      always sharpens. */
  lemma AutoEnhanceSettings()
    ensures Resolve(AutoEnhanceOverrides) == Adjustments(1.15, 1.1, 1.2, 1.05)
    ensures Resolve(AutoEnhanceOverrides).sharpness > 1.0
  {
  }

  // ---------------------------------------------------------------------------
  // Per-pixel colour arithmetic

  datatype Rgb = Rgb(r: real, g: real, b: real)

  function Brighten(p: Rgb, brightness: real): Rgb {
    Rgb(p.r * brightness, p.g * brightness, p.b * brightness)
  }

  /** The formula's denominator is zero at contrast 2.59. */
  predicate ContrastDefined(a: Adjustments) {
    a.contrast * 100.0 != 259.0
  }

  /** The classic 259/255 contrast-correction factor, fed `contrast * 100`. */
  function ContrastFactor(contrast: real): real
    requires contrast * 100.0 != 259.0
  {
    (259.0 * (contrast * 100.0 + 255.0)) / (255.0 * (259.0 - contrast * 100.0))
  }

  /** Scales each channel's distance from 128 by `factor`. */
  function Contrast(p: Rgb, factor: real): Rgb {
    Rgb(factor * (p.r - 128.0) + 128.0, factor * (p.g - 128.0) + 128.0, factor * (p.b - 128.0) + 128.0)
  }

  /** The luma weights; they add up to 0.9999, not 1. */
  function Luma(p: Rgb): real {
    0.2989 * p.r + 0.5870 * p.g + 0.1140 * p.b
  }

  /** Moves each channel away from (or towards) the pixel's own luma. */
  function Saturate(p: Rgb, saturation: real): Rgb {
    var gray := Luma(p);
    Rgb(gray + saturation * (p.r - gray), gray + saturation * (p.g - gray), gray + saturation * (p.b - gray))
  }

  /** Brightness, then contrast, then saturation; the luma is taken of the
      contrast-adjusted channels. */
  function AdjustColour(p: Rgb, a: Adjustments): Rgb
    requires ContrastDefined(a)
  {
    Saturate(Contrast(Brighten(p, a.brightness), ContrastFactor(a.contrast)), a.saturation)
  }

  function Channel(p: Rgb, c: int): real
    requires 0 <= c < 3
  {
    if c == 0 then p.r else if c == 1 then p.g else p.b
  }

  // ---------------------------------------------------------------------------
  // Byte stores

  function Min(x: real, y: real): real { if x <= y then x else y }
  function Max(x: real, y: real): real { if x >= y then x else y }

  /** `Math.max(0, Math.min(255, x))`. */
  function Clamp(x: real): (v: real)
    ensures 0.0 <= v <= 255.0
    ensures 0.0 <= x <= 255.0 ==> v == x
    ensures x < 0.0 ==> v == 0.0
    ensures x > 255.0 ==> v == 255.0
  {
    Max(0.0, Min(255.0, x))
  }

  /** A store into a `Uint8ClampedArray`: ECMAScript's ToUint8Clamp, which
      clamps to [0, 255] and rounds to the nearest integer, ties to even. */
  function ToByte(x: real): (b: int)
    ensures 0 <= b <= 255
    ensures x <= 0.0 ==> b == 0
    ensures x >= 255.0 ==> b == 255
    ensures 0.0 <= x <= 255.0 ==> (b as real) - 0.5 <= x <= (b as real) + 0.5
  {
    if x <= 0.0 then 0
    else if x >= 255.0 then 255
    else
      var f := x.Floor;
      if (f as real) + 0.5 < x then f + 1
      else if x < (f as real) + 0.5 then f
      else if f % 2 == 1 then f + 1
      else f
  }

  /** Storing an integer that is already a byte keeps it. */
  lemma ToByteOfByte(n: int)
    requires 0 <= n <= 255
    ensures ToByte(n as real) == n
  {
  }

  // ---------------------------------------------------------------------------
  // Buffers

  predicate IsByte(v: int) { 0 <= v <= 255 }

  /** A canvas pixel buffer: whole RGBA pixels of bytes. */
  predicate ValidBuffer(data: seq<int>) {
    |data| % 4 == 0 && forall k :: 0 <= k < |data| ==> IsByte(data[k])
  }

  /** A w-by-h canvas. */
  predicate ValidImage(data: seq<int>, w: nat, h: nat) {
    |data| == 4 * (w * h) && ValidBuffer(data)
  }

  function PixelAt(data: seq<int>, i: int): Rgb
    requires 0 <= i && i + 2 < |data|
  {
    Rgb(data[i] as real, data[i + 1] as real, data[i + 2] as real)
  }

  /** Same length, and every alpha byte (offset 3 of a pixel) kept. */
  predicate SameAlpha(data: seq<int>, out: seq<int>) {
    |out| == |data| && forall k :: 0 <= k < |data| && k % 4 == 3 ==> out[k] == data[k]
  }

  // ---------------------------------------------------------------------------
  // The colour pass

  /** Colour channel c of pixel p as the colour pass stores it. */
  function PixelByte(p: Rgb, a: Adjustments, c: int): int
    requires ContrastDefined(a) && 0 <= c < 3
  {
    ToByte(Clamp(Channel(AdjustColour(p, a), c)))
  }

  /** Byte k of the buffer after the colour pass. */
  function ColouredByte(data: seq<int>, a: Adjustments, k: int): int
    requires ContrastDefined(a) && |data| % 4 == 0 && 0 <= k < |data|
  {
    var c := k % 4;
    if c == 3 then data[k] else PixelByte(PixelAt(data, k - c), a, c)
  }

  /** The colour pass over a whole buffer. */
  function ColourPass(data: seq<int>, a: Adjustments): (out: seq<int>)
    requires ValidBuffer(data) && ContrastDefined(a)
    ensures ValidBuffer(out)
    ensures SameAlpha(data, out)
  {
    seq(|data|, k requires 0 <= k < |data| => ColouredByte(data, a, k))
  }

  /** The pass as the canvas code runs it: in place, one pixel per step,
      reading R, G and B before overwriting them. */
  method ApplyColourPass(data: seq<int>, a: Adjustments) returns (out: seq<int>)
    requires ValidBuffer(data) && ContrastDefined(a)
    ensures out == ColourPass(data, a)
  {
    out := data;
    var i := 0;
    while i < |out|
      invariant |out| == |data| && 0 <= i <= |out| && i % 4 == 0
      invariant forall k :: 0 <= k < i ==> out[k] == ColouredByte(data, a, k)
      invariant forall k :: i <= k < |out| ==> out[k] == data[k]
    {
      NextPixelFits(i, |out|);
      var p := Rgb(out[i] as real, out[i + 1] as real, out[i + 2] as real);
      assert p == PixelAt(data, i);
      p := Brighten(p, a.brightness);
      var factor := ContrastFactor(a.contrast);
      p := Contrast(p, factor);
      p := Saturate(p, a.saturation);
      assert p == AdjustColour(PixelAt(data, i), a);
      ColouredPixel(data, a, i);
      out := out[i := ToByte(Clamp(p.r))][i + 1 := ToByte(Clamp(p.g))][i + 2 := ToByte(Clamp(p.b))];
      i := i + 4;
    }
  }

  lemma NextPixelFits(i: int, n: int)
    requires 0 <= i < n && i % 4 == 0 && n % 4 == 0
    ensures i + 4 <= n && (i + 4) % 4 == 0
  {
  }

  /** The four bytes of the pixel at i after the colour pass. */
  lemma ColouredPixel(data: seq<int>, a: Adjustments, i: int)
    requires ContrastDefined(a) && |data| % 4 == 0 && 0 <= i && i + 4 <= |data| && i % 4 == 0
    ensures ColouredByte(data, a, i) == ToByte(Clamp(AdjustColour(PixelAt(data, i), a).r))
    ensures ColouredByte(data, a, i + 1) == ToByte(Clamp(AdjustColour(PixelAt(data, i), a).g))
    ensures ColouredByte(data, a, i + 2) == ToByte(Clamp(AdjustColour(PixelAt(data, i), a).b))
    ensures ColouredByte(data, a, i + 3) == data[i + 3]
  {
    assert (i + 1) % 4 == 1 && (i + 2) % 4 == 2 && (i + 3) % 4 == 3;
  }

  // ---------------------------------------------------------------------------
  // Sharpening

  /** The Laplacian sharpening kernel, row-major. */
  const Kernel: seq<int> := [0, -1, 0, -1, 5, -1, 0, -1, 0]

  /** `Math.round(Math.sqrt(9))` and `Math.floor(3 / 2)`. */
  const Side: int := 3
  const HalfSide: int := 1

  /** `Math.min(n - 1, Math.max(0, v))`: the nearest valid coordinate. */
  function ClampCoord(v: int, n: int): (c: int)
    requires n >= 1
    ensures 0 <= c < n
    ensures 0 <= v < n ==> c == v
    ensures v < 0 ==> c == 0
    ensures v >= n ==> c == n - 1
  {
    var lower := if v >= 0 then v else 0;
    if n - 1 <= lower then n - 1 else lower
  }

  /** Offset of the R byte of the neighbour read by tap (cx, cy) of the
      kernel centred on (x, y); the edge-replicated read is always a whole
      pixel inside the buffer. */
  function SampleOffset(w: nat, h: nat, x: int, y: int, cx: int, cy: int): (off: int)
    requires w >= 1 && h >= 1
    ensures 0 <= off && off + 4 <= 4 * (w * h) && off % 4 == 0
  {
    var scy := ClampCoord(y + cy - HalfSide, h);
    var scx := ClampCoord(x + cx - HalfSide, w);
    assert scy * w <= (h - 1) * w by { MulMono(scy, h - 1, w); }
    (scy * w + scx) * 4
  }

  lemma MulMono(a: int, b: int, w: nat)
    requires a <= b
    ensures a * w <= b * w
  {
  }

  /** The nine values of channel c the kernel centred on (x, y) reads, in
      the order the nested loops visit them (row by row). */
  function Neighbourhood(data: seq<int>, w: nat, h: nat, x: int, y: int, c: int): (vals: seq<int>)
    requires ValidImage(data, w, h) && w >= 1 && h >= 1 && 0 <= c < 3
    ensures |vals| == |Kernel|
  {
    seq(|Kernel|, t requires 0 <= t < |Kernel| => data[SampleOffset(w, h, x, y, t % 3, t / 3) + c])
  }

  /** One tap's contribution: a byte times its kernel weight. */
  function Weighted(v: int, wt: int): real {
    (v * wt) as real
  }

  /** Sum of the first n values weighted by the kernel. */
  function Dot(vals: seq<int>, n: nat): real
    requires n <= |vals| && n <= |Kernel|
  {
    if n == 0 then 0.0 else Dot(vals, n - 1) + Weighted(vals[n - 1], Kernel[n - 1])
  }

  /** The full kernel applied to channel c around (x, y). */
  function Convolved(data: seq<int>, w: nat, h: nat, x: int, y: int, c: int): real
    requires ValidImage(data, w, h) && w >= 1 && h >= 1 && 0 <= c < 3
  {
    Dot(Neighbourhood(data, w, h, x, y, c), |Kernel|)
  }

  /** Linear interpolation from the original value towards the convolved
      one, by how far `amount` exceeds 1. */
  function Blend(orig: real, conv: real, amount: real): real {
    orig + (conv - orig) * (amount - 1.0)
  }

  /** A colour byte after blending it towards its convolved value, as the
      clamped store keeps it. */
  function SharpenedValue(orig: int, conv: real, amount: real): int {
    ToByte(Blend(orig as real, conv, amount))
  }

  lemma NonEmptyDims(w: nat, h: nat)
    requires w * h > 0
    ensures w >= 1 && h >= 1
  {
  }

  /** Byte k of the buffer after sharpening by `amount`. */
  function SharpenedByte(data: seq<int>, w: nat, h: nat, amount: real, k: int): int
    requires ValidImage(data, w, h) && 0 <= k < |data|
  {
    var c := k % 4;
    if c == 3 then data[k]
    else
      NonEmptyDims(w, h);
      var p := k / 4;
      SharpenedValue(data[k], Convolved(data, w, h, p % w, p / w, c), amount)
  }

  /** The sharpening pass: reads only the input and writes a fresh buffer. */
  function SharpenPass(data: seq<int>, w: nat, h: nat, amount: real): (out: seq<int>)
    requires ValidImage(data, w, h)
    ensures ValidImage(out, w, h)
    ensures SameAlpha(data, out)
  {
    seq(|data|, k requires 0 <= k < |data| => SharpenedByte(data, w, h, amount, k))
  }

  /** The nine kernel taps around (x, y), all three colour channels at once:
      the outer loop of the convolution, over kernel rows. */
  method ConvolveAt(data: seq<int>, w: nat, h: nat, x: int, y: int) returns (r: real, g: real, b: real)
    requires ValidImage(data, w, h) && w >= 1 && h >= 1
    ensures r == Convolved(data, w, h, x, y, 0)
    ensures g == Convolved(data, w, h, x, y, 1)
    ensures b == Convolved(data, w, h, x, y, 2)
  {
    ghost var nr, ng, nb := Neighbourhood(data, w, h, x, y, 0), Neighbourhood(data, w, h, x, y, 1), Neighbourhood(data, w, h, x, y, 2);
    r, g, b := 0.0, 0.0, 0.0;
    var cy := 0;
    while cy < Side
      invariant 0 <= cy <= Side
      invariant r == Dot(nr, 3 * cy) && g == Dot(ng, 3 * cy) && b == Dot(nb, 3 * cy)
    {
      r, g, b := ConvolveRow(data, w, h, x, y, cy, r, g, b);
      cy := cy + 1;
    }
  }

  /** The inner loop of the convolution: the three taps of kernel row cy
      added to the running sums. */
  method ConvolveRow(data: seq<int>, w: nat, h: nat, x: int, y: int, cy: int, r0: real, g0: real, b0: real)
    returns (r: real, g: real, b: real)
    requires ValidImage(data, w, h) && w >= 1 && h >= 1 && 0 <= cy < Side
    requires r0 == Dot(Neighbourhood(data, w, h, x, y, 0), 3 * cy)
    requires g0 == Dot(Neighbourhood(data, w, h, x, y, 1), 3 * cy)
    requires b0 == Dot(Neighbourhood(data, w, h, x, y, 2), 3 * cy)
    ensures r == Dot(Neighbourhood(data, w, h, x, y, 0), 3 * cy + 3)
    ensures g == Dot(Neighbourhood(data, w, h, x, y, 1), 3 * cy + 3)
    ensures b == Dot(Neighbourhood(data, w, h, x, y, 2), 3 * cy + 3)
  {
    ghost var nr, ng, nb := Neighbourhood(data, w, h, x, y, 0), Neighbourhood(data, w, h, x, y, 1), Neighbourhood(data, w, h, x, y, 2);
    r, g, b := r0, g0, b0;
    var cx := 0;
    while cx < Side
      invariant 0 <= cx <= Side
      invariant r == Dot(nr, 3 * cy + cx) && g == Dot(ng, 3 * cy + cx) && b == Dot(nb, 3 * cy + cx)
    {
      var srcOff := SampleOffset(w, h, x, y, cx, cy);
      var wt := Kernel[3 * cy + cx];
      NeighbourAt(data, w, h, x, y, cx, cy);
      r := r + Weighted(data[srcOff], wt);
      g := g + Weighted(data[srcOff + 1], wt);
      b := b + Weighted(data[srcOff + 2], wt);
      cx := cx + 1;
    }
  }

  /** Tap (cx, cy) of each channel's neighbourhood is the byte the loops read. */
  lemma NeighbourAt(data: seq<int>, w: nat, h: nat, x: int, y: int, cx: int, cy: int)
    requires ValidImage(data, w, h) && w >= 1 && h >= 1
    requires 0 <= cx < Side && 0 <= cy < Side
    ensures forall c :: 0 <= c < 3 ==>
      Neighbourhood(data, w, h, x, y, c)[3 * cy + cx] == data[SampleOffset(w, h, x, y, cx, cy) + c]
  {
    assert (3 * cy + cx) % 3 == cx && (3 * cy + cx) / 3 == cy;
  }

  /** Pixel p = y * w + x of a row-major w-wide grid sits at column x, row y. */
  lemma PixelCoords(w: nat, x: int, y: int)
    requires w >= 1 && 0 <= x < w && 0 <= y
    ensures (y * w + x) / w == y && (y * w + x) % w == x
  {
    var p := y * w + x;
    var q, m := p / w, p % w;
    assert p == q * w + m;
    assert (q - y) * w == x - m;
    if q > y {
      MulMono(1, q - y, w);
    } else if q < y {
      MulMono(1, y - q, w);
    }
  }

  lemma PixelInRange(w: nat, h: nat, x: int, y: int)
    requires 0 <= x < w && 0 <= y < h
    ensures (y * w + x) * 4 + 4 <= 4 * (w * h)
  {
    MulMono(y, h - 1, w);
  }

  /** Byte c of pixel p, which sits at column x and row y, after sharpening. */
  lemma SharpenedByteAt(data: seq<int>, w: nat, h: nat, amount: real, p: int, x: int, y: int, c: int)
    requires ValidImage(data, w, h) && w >= 1 && h >= 1
    requires 0 <= p && p * 4 + 4 <= |data| && p % w == x && p / w == y && 0 <= c < 4
    ensures c == 3 ==> SharpenedByte(data, w, h, amount, p * 4 + c) == data[p * 4 + c]
    ensures c < 3 ==> SharpenedByte(data, w, h, amount, p * 4 + c)
                      == SharpenedValue(data[p * 4 + c], Convolved(data, w, h, x, y, c), amount)
  {
  }

  /** The first n bytes of `out` are sharpened, the rest still the input. */
  predicate SharpenedUpTo(out: seq<int>, data: seq<int>, w: nat, h: nat, amount: real, n: int)
    requires ValidImage(data, w, h)
  {
    |out| == |data| &&
    forall k :: 0 <= k < |data| ==>
      out[k] == if k < n then SharpenedByte(data, w, h, amount, k) else data[k]
  }

  /** The buffer once the pixel at byte offset `dstOff` has been given the
      blended colour values computed from the convolved sums r, g and b. */
  function StorePixel(out: seq<int>, data: seq<int>, amount: real, dstOff: int, r: real, g: real, b: real): seq<int>
    requires |out| == |data| && 0 <= dstOff && dstOff + 4 <= |data|
  {
    out[dstOff := SharpenedValue(data[dstOff], r, amount)]
       [dstOff + 1 := SharpenedValue(data[dstOff + 1], g, amount)]
       [dstOff + 2 := SharpenedValue(data[dstOff + 2], b, amount)]
  }

  /** Storing pixel p = y * w + x with its convolved sums extends the
      sharpened prefix by one pixel. */
  lemma StorePixelExtends(out: seq<int>, data: seq<int>, w: nat, h: nat, amount: real, p: int, x: int, y: int,
                          r: real, g: real, b: real)
    requires ValidImage(data, w, h) && w >= 1 && h >= 1
    requires 0 <= p && p * 4 + 4 <= |data| && p % w == x && p / w == y
    requires r == Convolved(data, w, h, x, y, 0)
    requires g == Convolved(data, w, h, x, y, 1)
    requires b == Convolved(data, w, h, x, y, 2)
    requires SharpenedUpTo(out, data, w, h, amount, p * 4)
    ensures SharpenedUpTo(StorePixel(out, data, amount, p * 4, r, g, b), data, w, h, amount, p * 4 + 4)
  {
    var out' := StorePixel(out, data, amount, p * 4, r, g, b);
    forall k | 0 <= k < |data|
      ensures out'[k] == if k < p * 4 + 4 then SharpenedByte(data, w, h, amount, k) else data[k]
    {
      if p * 4 <= k < p * 4 + 4 {
        SharpenedByteAt(data, w, h, amount, p, x, y, k - p * 4);
      }
    }
  }

  /** The sharpening pass as the canvas code runs it: rows, then columns,
      writing the three colour bytes of each pixel into a copy. */
  method Sharpen(data: seq<int>, w: nat, h: nat, amount: real) returns (out: seq<int>)
    requires ValidImage(data, w, h)
    ensures out == SharpenPass(data, w, h, amount)
  {
    out := data;
    var y := 0;
    while y < h
      invariant 0 <= y <= h
      invariant SharpenedUpTo(out, data, w, h, amount, 4 * (y * w))
    {
      out := SharpenRow(out, data, w, h, amount, y);
      assert y * w + w == (y + 1) * w;
      y := y + 1;
    }
    assert 4 * (y * w) == |data|;
  }

  /** Row y of the sharpening pass, pixel by pixel from the left. */
  method SharpenRow(out0: seq<int>, data: seq<int>, w: nat, h: nat, amount: real, y: int) returns (out: seq<int>)
    requires ValidImage(data, w, h) && 0 <= y < h
    requires SharpenedUpTo(out0, data, w, h, amount, 4 * (y * w))
    ensures SharpenedUpTo(out, data, w, h, amount, 4 * (y * w + w))
  {
    out := out0;
    var rowStart := y * w;
    var x := 0;
    while x < w
      invariant 0 <= x <= w
      invariant SharpenedUpTo(out, data, w, h, amount, 4 * (rowStart + x))
    {
      PixelInRange(w, h, x, y);
      PixelCoords(w, x, y);
      var dstOff := (rowStart + x) * 4;
      var r, g, b := ConvolveAt(data, w, h, x, y);
      StorePixelExtends(out, data, w, h, amount, rowStart + x, x, y, r, g, b);
      out := StorePixel(out, data, amount, dstOff, r, g, b);
      x := x + 1;
    }
  }

  // ---------------------------------------------------------------------------
  // The whole filter

  /** Colour pass, then sharpening only when the factor exceeds 1. */
  function EnhancePixels(data: seq<int>, w: nat, h: nat, a: Adjustments): (out: seq<int>)
    requires ValidImage(data, w, h) && ContrastDefined(a)
    ensures ValidImage(out, w, h)
    ensures SameAlpha(data, out)
    ensures a.sharpness <= 1.0 ==> out == ColourPass(data, a)
    ensures a.sharpness > 1.0 ==> out == SharpenPass(ColourPass(data, a), w, h, a.sharpness)
  {
    var coloured := ColourPass(data, a);
    if a.sharpness > 1.0 then SharpenPass(coloured, w, h, a.sharpness) else coloured
  }

  /** The filter as the canvas code runs it. */
  method Enhance(data: seq<int>, w: nat, h: nat, a: Adjustments) returns (out: seq<int>)
    requires ValidImage(data, w, h) && ContrastDefined(a)
    ensures out == EnhancePixels(data, w, h, a)
  {
    out := ApplyColourPass(data, a);
    if a.sharpness > 1.0 {
      out := Sharpen(out, w, h, a.sharpness);
    }
  }
}
