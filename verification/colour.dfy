/**
 * The integer side of the pixel renderer: the colour scale
 * `((uint8_t)-1) / max_iters`, the `uint8_t` intensity
 * `scale_val * (max_iters - count)` and the grey ARGB word that repeats it
 * in all four byte lanes (main-openmp.cpp:17, 73-75).
 */
module Colour {

  /** `uint8_t` */
  type Byte = b: int | 0 <= b < 0x100

  /** `uint32_t` */
  type Word = w: int | 0 <= w < 0x1_0000_0000

  /** Conversion of an int to `uint8_t`: the value modulo 2^8. */
  function NarrowToByte(x: int): (b: Byte)
    ensures 0 <= x < 0x100 ==> b == x
    ensures (x - b) % 0x100 == 0
  {
    x % 0x100
  }

  /** Conversion of an unsigned sum to `uint32_t`: the value modulo 2^32. */
  function NarrowToWord(x: int): (w: Word)
    ensures 0 <= x < 0x1_0000_0000 ==> w == x
    ensures (x - w) % 0x1_0000_0000 == 0
  {
    x % 0x1_0000_0000
  }

  /** `(uint8_t)-1`, the largest intensity, is 255. */
  lemma MaxByte()
    ensures NarrowToByte(-1) == 255
  {
  }

  /**
   * `scale_val = ((uint8_t)-1) / max_iters`: the largest s with
   * s * maxIters <= 255, hence 0 once maxIters exceeds 255.
   */
  function ScaleVal(maxIters: int): (s: Byte)
    requires maxIters >= 1
    ensures s * maxIters <= 255 < (s + 1) * maxIters
    ensures maxIters > 255 ==> s == 0
  {
    NarrowToByte(-1) / maxIters
  }

  /** `uint8_t single_col = scale_val * (max_iters - count)`. */
  function Intensity(scale: Byte, maxIters: int, count: int): Byte {
    NarrowToByte(scale * (maxIters - count))
  }

  /**
   * `(b << 24) + (b << 16) + (b << 8) + b` in unsigned 32-bit arithmetic:
   * the grey pixel with b in every byte lane.
   */
  function PackGrey(b: Byte): Word {
    NarrowToWord(b * 0x100_0000 + b * 0x1_0000 + b * 0x100 + b)
  }

  /** Byte lane k (0 = lowest) of a word: `(w >> 8k) & 0xff`. */
  function Lane(w: nat, k: nat): Byte {
    if k == 0 then w % 0x100 else Lane(w / 0x100, k - 1)
  }

  /**
   * With scale = ScaleVal(maxIters) and a count in [0, maxIters] the
   * product never leaves [0, 255], so the narrowing to `uint8_t` keeps it.
   */
  lemma IntensityNoWrap(maxIters: int, count: int)
    requires maxIters >= 1
    requires 0 <= count <= maxIters
    ensures 0 <= ScaleVal(maxIters) * (maxIters - count) <= 255
    ensures Intensity(ScaleVal(maxIters), maxIters, count) == ScaleVal(maxIters) * (maxIters - count)
  {
    var s := ScaleVal(maxIters);
    assert s * (maxIters - count) <= s * maxIters by {
      assert s * (maxIters - count) == s * maxIters - s * count;
      assert s * count >= 0;
    }
    assert 0 <= s * (maxIters - count);
  }

  lemma MulMonotone(s: nat, a: int, b: int)
    requires a <= b
    ensures s * a <= s * b
  {
    assert s * b == s * a + s * (b - a);
  }

  /** More iterations survived means a darker pixel; surviving them all gives black. */
  lemma IntensityAntitone(maxIters: int, count1: int, count2: int)
    requires maxIters >= 1
    requires 0 <= count1 <= count2 <= maxIters
    ensures Intensity(ScaleVal(maxIters), maxIters, count2) <= Intensity(ScaleVal(maxIters), maxIters, count1)
    ensures Intensity(ScaleVal(maxIters), maxIters, maxIters) == 0
  {
    var s := ScaleVal(maxIters);
    IntensityNoWrap(maxIters, count1);
    IntensityNoWrap(maxIters, count2);
    MulMonotone(s, maxIters - count2, maxIters - count1);
    IntensityNoWrap(maxIters, maxIters);
  }

  /**
   * With the default bound 50 the scale is 5: escaping at index 0 gives
   * intensity 250, never escaping gives 0.
   */
  lemma DefaultIntensities()
    ensures ScaleVal(50) == 5
    ensures Intensity(ScaleVal(50), 50, 0) == 250
    ensures Intensity(ScaleVal(50), 50, 50) == 0
  {
  }

  /** The packed sum never wraps: it is b * 0x01010101. */
  lemma PackNoWrap(b: Byte)
    ensures PackGrey(b) == b * 0x0101_0101
  {
  }

  /** Splitting off the low byte: the quotient and remainder by 256. */
  lemma ShiftByte(w: int, q: int, r: int)
    requires 0 <= r < 0x100 && w == 0x100 * q + r
    ensures w / 0x100 == q && w % 0x100 == r
  {
  }

  /** Every byte lane of the packed word holds b, so unpacking any lane recovers it. */
  lemma PackLanes(b: Byte, k: nat)
    requires k < 4
    ensures Lane(PackGrey(b), k) == b
  {
    var w := PackGrey(b);
    PackNoWrap(b);
    ShiftByte(w, b * 0x1_0101, b);
    ShiftByte(b * 0x1_0101, b * 0x101, b);
    ShiftByte(b * 0x101, b, b);
    ShiftByte(b, 0, b);
    if k == 1 {
      assert Lane(w, 1) == Lane(b * 0x1_0101, 0);
    } else if k == 2 {
      assert Lane(w, 2) == Lane(b * 0x101, 0);
    } else if k == 3 {
      assert Lane(w, 3) == Lane(b * 0x101, 1);
    }
  }

  /** Distinct intensities give distinct pixels. */
  lemma PackInjective(b1: Byte, b2: Byte)
    ensures PackGrey(b1) == PackGrey(b2) ==> b1 == b2
  {
    PackLanes(b1, 0);
    PackLanes(b2, 0);
  }
}
