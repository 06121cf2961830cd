/**
 Properties of the image filter: the contrast factor's neutral point, fixed
 points of the colour pass and of sharpening, and a worked sample pixel.
 */
module ImageEnhanceProps {
  import opened ImageEnhance

  /** The contrast factor is neutral (exactly 1) at contrast 0 and nowhere
      else, although the option's documentation calls 1.0 normal. */
  lemma ContrastNeutralOnlyAtZero(c: real)
    requires c * 100.0 != 259.0
    ensures ContrastFactor(c) == 1.0 <==> c == 0.0
  {
  }

  /** At the documented "normal" contrast 1.0 the factor is
      259 * 355 / (255 * 159), about 2.268. */
  lemma ContrastAtOne()
    ensures ContrastFactor(1.0) == 18389.0 / 8109.0
    ensures 2.26 < ContrastFactor(1.0) < 2.27
  {
  }

  /** Brightness 1, contrast 0 and saturation 1 leave every byte of a
      buffer as it was. */
  lemma ColourPassIdentity(data: seq<int>, sharpness: real)
    requires ValidBuffer(data)
    ensures ColourPass(data, Adjustments(1.0, 0.0, 1.0, sharpness)) == data
  {
  }

  /** The luma weights add up to 0.9999, so a grey pixel is not a fixed
      point of saturation: every channel becomes v * (0.9999 + 0.0001 * s). */
  lemma GreyDriftsUnderSaturation(v: real, s: real)
    ensures Saturate(Rgb(v, v, v), s) == Rgb(v * (0.9999 + 0.0001 * s), v * (0.9999 + 0.0001 * s), v * (0.9999 + 0.0001 * s))
    ensures v != 0.0 && s != 1.0 ==> Saturate(Rgb(v, v, v), s) != Rgb(v, v, v)
  {
  }

  /** The sample pixel after brightness 1.2, contrast 1.15 and saturation
      1.25, before clamping and rounding. */
  lemma SampleColour()
    ensures AdjustColour(Rgb(100.0, 150.0, 200.0), Defaults)
         == Rgb(690524147.0 / 9180000.0, 2487336647.0 / 9180000.0, 4284149147.0 / 9180000.0)
  {
  }

  /** Clamping and rounding the adjusted sample pixel. */
  lemma SampleBytes()
    ensures ToByte(Clamp(690524147.0 / 9180000.0)) == 75
    ensures ToByte(Clamp(2487336647.0 / 9180000.0)) == 255
    ensures ToByte(Clamp(4284149147.0 / 9180000.0)) == 255
  {
  }

  /** The default settings turn the pixel (100, 150, 200) into (75, 255, 255). */
  lemma DefaultsOnSamplePixel()
    ensures ColourPass([100, 150, 200, 255], Defaults) == [75, 255, 255, 255]
  {
    var data := [100, 150, 200, 255];
    assert PixelAt(data, 0) == Rgb(100.0, 150.0, 200.0);
    SampleColour();
    SampleBytes();
    ColouredPixel(data, Defaults, 0);
  }

  // ---------------------------------------------------------------------------
  // Properties of sharpening

  /** Sum of the first n kernel weights. */
  function KernelPrefix(n: nat): int
    requires n <= |Kernel|
  {
    if n == 0 then 0 else KernelPrefix(n - 1) + Kernel[n - 1]
  }

  /** The kernel weights add up to 1. */
  lemma KernelSumsToOne()
    ensures KernelPrefix(|Kernel|) == 1
  {
    assert |Kernel| == 9;
    assert KernelPrefix(9) == 1;
  }

  /** Every pixel of the buffer has the same R, G and B (alpha may vary). */
  predicate Uniform(data: seq<int>) {
    forall k :: 0 <= k < |data| && k % 4 != 3 ==> data[k] == data[k % 4]
  }

  lemma Distribute(v: int, a: int, b: int)
    ensures v * (a + b) == v * a + v * b
  {
  }

  /** Weighting n equal values by the kernel scales the value by the sum of
      the first n weights. */
  lemma {:induction false} DotOfConstant(vals: seq<int>, v: int, n: nat)
    requires n <= |vals| && n <= |Kernel|
    requires forall t :: 0 <= t < |vals| ==> vals[t] == v
    ensures Dot(vals, n) == (v * KernelPrefix(n)) as real
  {
    if n > 0 {
      DotOfConstant(vals, v, n - 1);
      WeightedSum(v, KernelPrefix(n - 1), Kernel[n - 1]);
    }
  }

  /** On a uniform buffer every tap of channel c reads the first pixel's c. */
  lemma UniformNeighbourhood(data: seq<int>, w: nat, h: nat, x: int, y: int, c: int)
    requires ValidImage(data, w, h) && w >= 1 && h >= 1 && 0 <= c < 3 && Uniform(data)
    ensures forall t :: 0 <= t < |Kernel| ==> Neighbourhood(data, w, h, x, y, c)[t] == data[c]
  {
    forall t | 0 <= t < |Kernel| ensures Neighbourhood(data, w, h, x, y, c)[t] == data[c] {
      UniformSample(data, SampleOffset(w, h, x, y, t % 3, t / 3), c);
    }
  }

  /** Any R, G or B byte of a uniform buffer equals the first pixel's. */
  lemma UniformSample(data: seq<int>, off: int, c: int)
    requires Uniform(data) && 0 <= off && off + 4 <= |data| && off % 4 == 0 && 0 <= c < 3
    ensures data[off + c] == data[c]
  {
    assert (off + c) % 4 == c;
  }

  lemma WeightedSum(v: int, kp: int, kw: int)
    ensures (v * kp) as real + Weighted(v, kw) == (v * (kp + kw)) as real
  {
  }

  /** A uniform image is a fixed point of sharpening, for every amount. */
  lemma UniformIsSharpenFixedPoint(data: seq<int>, w: nat, h: nat, amount: real)
    requires ValidImage(data, w, h) && Uniform(data)
    ensures SharpenPass(data, w, h, amount) == data
  {
    forall k | 0 <= k < |data| ensures SharpenedByte(data, w, h, amount, k) == data[k] {
      UniformSharpenedByte(data, w, h, amount, k);
    }
  }

  lemma UniformSharpenedByte(data: seq<int>, w: nat, h: nat, amount: real, k: int)
    requires ValidImage(data, w, h) && Uniform(data) && 0 <= k < |data|
    ensures SharpenedByte(data, w, h, amount, k) == data[k]
  {
    var c := k % 4;
    if c != 3 {
      NonEmptyDims(w, h);
      var p := k / 4;
      UniformConvolved(data, w, h, p % w, p / w, c);
      UniformSample(data, k - c, c);
      BlendTowardsItself(data[k] as real, amount);
      ToByteOfByte(data[k]);
    }
  }

  /** Convolving a uniform buffer gives back the uniform value. */
  lemma UniformConvolved(data: seq<int>, w: nat, h: nat, x: int, y: int, c: int)
    requires ValidImage(data, w, h) && w >= 1 && h >= 1 && 0 <= c < 3 && Uniform(data)
    ensures Convolved(data, w, h, x, y, c) == data[c] as real
  {
    UniformNeighbourhood(data, w, h, x, y, c);
    DotOfConstant(Neighbourhood(data, w, h, x, y, c), data[c], |Kernel|);
    KernelSumsToOne();
  }

  lemma BlendTowardsItself(v: real, amount: real)
    ensures Blend(v, v, amount) == v
  {
  }

  /** A one-pixel image is unchanged by sharpening. */
  lemma SinglePixelIsSharpenFixedPoint(data: seq<int>, amount: real)
    requires ValidImage(data, 1, 1)
    ensures SharpenPass(data, 1, 1, amount) == data
  {
    UniformIsSharpenFixedPoint(data, 1, 1, amount);
  }

  /** With brightness 1, contrast 0, saturation 1 and no sharpening, the
      whole filter leaves the buffer as it was. */
  lemma EnhanceIdentity(data: seq<int>, w: nat, h: nat, sharpness: real)
    requires ValidImage(data, w, h) && sharpness <= 1.0
    ensures EnhancePixels(data, w, h, Adjustments(1.0, 0.0, 1.0, sharpness)) == data
  {
    ColourPassIdentity(data, sharpness);
  }
}
