/**
 * The engine's globals and the procedures that read and update them in
 * place: iter_div, init_complex_plane, mandelbrot_diverge_pixels,
 * compute_and_render, resize_compute_region and the key and mouse-up
 * handlers of the event loop (main-openmp.cpp:15-22, 29-117, 163-225).
 * The sample grid `plane` and the pixel buffer `pixels_div` are arrays
 * passed in, as in the source; the SDL texture lock around the render
 * pass is not part of this model.
 */
module Engine {
  import opened Complex
  import opened Escape
  import opened Colour
  import opened Plane
  import opened Params

  /** Every cell of `plane` holds the sample of its pixel under viewport v. */
  ghost predicate SampledFrom(plane: array<Cplx>, v: Viewport)
    requires plane.Length == PixelCount
    reads plane
  {
    forall pos :: 0 <= pos < PixelCount ==> plane[pos] == Sample(v, pos % Width, pos / Width)
  }

  /**
   * The pixel drawn for a sample: escape count, grey intensity, packed word.
   * Under a consistent state it is b * 0x01010101 with
   * b = scale_val * (max_iters - count) <= 255; the origin is black.
   */
  lemma PixelOfSample(c: Cplx, maxIters: int, cap: real)
    requires maxIters >= 1
    ensures var count := EscapeCount(c, maxIters, cap);
            var b := ScaleVal(maxIters) * (maxIters - count);
            && 0 <= b <= 255
            && PackGrey(Intensity(ScaleVal(maxIters), maxIters, count)) == b * 0x0101_0101
    ensures cap >= 0.0 ==> PackGrey(Intensity(ScaleVal(maxIters), maxIters, EscapeCount(Zero, maxIters, cap))) == 0
  {
    var count := EscapeCount(c, maxIters, cap);
    IntensityNoWrap(maxIters, count);
    PackNoWrap(Intensity(ScaleVal(maxIters), maxIters, count));
    if cap >= 0.0 {
      OriginNeverEscapes(maxIters, cap);
      IntensityNoWrap(maxIters, maxIters);
      PackNoWrap(0);
    }
  }

  class Fractal {
    var xExtent: real
    var zExtent: real
    var xCent: real
    var zCent: real
    var cap: real
    var maxIters: int
    var scaleVal: Byte

    /** The globals as one value. */
    function State(): Settings
      reads this
    {
      Settings(Viewport(xExtent, zExtent, xCent, zCent), cap, maxIters, scaleVal)
    }

    function Region(): Viewport
      reads this
    {
      Viewport(xExtent, zExtent, xCent, zCent)
    }

    ghost predicate Valid()
      reads this
    {
      Consistent(State())
    }

    /** The pixel mandelbrot_diverge_pixels writes for sample c under the current parameters. */
    function PixelColour(c: Cplx): Word
      reads this
    {
      PackGrey(Intensity(scaleVal, maxIters, EscapeCount(c, maxIters, cap)))
    }

    /** Every pixel holds the colour of the sample at the same position. */
    ghost predicate Rendered(pixels: array<Word>, plane: array<Cplx>)
      requires pixels.Length == PixelCount && plane.Length == PixelCount
      reads this, pixels, plane
    {
      forall pos :: 0 <= pos < PixelCount ==> pixels[pos] == PixelColour(plane[pos])
    }

    /** The initial values of the globals (main-openmp.cpp:15-22). */
    constructor ()
      ensures Valid()
      ensures State() == DefaultSettings
    {
      xExtent := 3.0;
      zExtent := 2.0;
      xCent := -0.6;
      zCent := 0.0;
      cap := 2.0;
      maxIters := 50;
      scaleVal := ScaleVal(50);
    }

    /**
     * iter_div: the index of the first tested value of c whose modulus
     * exceeds cap, or max_iters when none of the max_iters values does.
     */
    method IterDiv(c: Cplx) returns (n: int)
      ensures n == EscapeCount(c, maxIters, cap)
      ensures maxIters >= 0 ==> 0 <= n <= maxIters
      ensures forall k: nat :: k < n ==> !EscapesAt(c, k, cap)
      ensures 0 <= n < maxIters ==> EscapesAt(c, n, cap)
    {
      // eval = fc(c): with the default z = 0 that is c itself (FcDefaultIsSeed)
      var eval := c;
      var i := 0;
      while i < maxIters
        invariant 0 <= i && (maxIters >= 0 ==> i <= maxIters)
        invariant eval == Orbit(c, i)
        invariant EscapeFrom(c, i, maxIters, cap) == EscapeCount(c, maxIters, cap)
      {
        if ModulusExceeds(eval, cap) {
          return i;
        }
        eval := Fc(c, eval);
        i := i + 1;
      }
      return maxIters;
    }

    /** init_complex_plane: fills `plane` row by row with the sample of every pixel. */
    method InitComplexPlane(plane: array<Cplx>)
      requires plane.Length == PixelCount
      modifies plane
      ensures SampledFrom(plane, Region())
    {
      var z := 0;
      while z < Height
        invariant 0 <= z <= Height
        invariant forall pos :: 0 <= pos < z * Width ==> plane[pos] == Sample(Region(), pos % Width, pos / Width)
      {
        var x := 0;
        while x < Width
          invariant 0 <= x <= Width
          invariant forall pos :: 0 <= pos < z * Width + x ==> plane[pos] == Sample(Region(), pos % Width, pos / Width)
        {
          IndexInGrid(x, z);
          // x_cent - x_extent/2 + step_x*x, z_cent - z_extent/2 + step_z*z
          var val := Sample(Region(), x, z);
          plane[z * Width + x] := val;
          x := x + 1;
        }
        z := z + 1;
      }
    }

    /**
     * mandelbrot_diverge_pixels: every pixel becomes the grey word of the
     * escape count of the sample at the same position; `mat` is only read.
     */
    method MandelbrotDivergePixels(pixels: array<Word>, mat: array<Cplx>)
      requires pixels.Length == PixelCount && mat.Length == PixelCount
      modifies pixels
      ensures Rendered(pixels, mat)
    {
      var z := 0;
      while z < Height
        invariant 0 <= z <= Height
        invariant forall pos :: 0 <= pos < z * Width ==> pixels[pos] == PixelColour(mat[pos])
      {
        var x := 0;
        while x < Width
          invariant 0 <= x <= Width
          invariant forall pos :: 0 <= pos < z * Width + x ==> pixels[pos] == PixelColour(mat[pos])
        {
          var pos := z * Width + x;
          var count := IterDiv(mat[pos]);
          var singleCol := Intensity(scaleVal, maxIters, count);
          var colour := PackGrey(singleCol);
          pixels[pos] := colour;
          x := x + 1;
        }
        z := z + 1;
      }
    }

    /**
     * compute_and_render without the texture lock: regenerate the sample
     * grid only when toShift is set, then render every pixel from it.
     */
    method ComputeAndRender(pixels: array<Word>, mat: array<Cplx>, toShift: bool)
      requires pixels.Length == PixelCount && mat.Length == PixelCount
      modifies pixels, mat
      ensures toShift ==> SampledFrom(mat, Region())
      ensures !toShift ==> mat[..] == old(mat[..])
      ensures Rendered(pixels, mat)
    {
      if toShift {
        InitComplexPlane(mat);
      }
      MandelbrotDivergePixels(pixels, mat);
    }

    /**
     * resize_compute_region: sort the dragged corners per axis, map them
     * through the current viewport and make the rectangle between them the
     * new viewport. The iteration parameters do not change.
     */
    method ResizeComputeRegion(x1: int, z1: int, x2: int, z2: int)
      requires Valid()
      modifies this
      ensures Valid()
      ensures Region() == Zoomed(old(Region()), x1, z1, x2, z2)
      ensures cap == old(cap) && maxIters == old(maxIters) && scaleVal == old(scaleVal)
    {
      ZoomExtents(Region(), x1, z1, x2, z2);
      var left, right := x1, x2;
      if right < left {
        var temp := left;
        left := right;
        right := temp;
      }
      var top, bottom := z1, z2;
      if bottom < top {
        var temp := top;
        top := bottom;
        bottom := temp;
      }
      var newX1 := ((left as real / Width as real) - 0.5) * xExtent + xCent;
      var newX2 := ((right as real / Width as real) - 0.5) * xExtent + xCent;
      var newZ1 := ((top as real / Height as real) - 0.5) * zExtent + zCent;
      var newZ2 := ((bottom as real / Height as real) - 0.5) * zExtent + zCent;
      assert (left, right) == Ordered(x1, x2) && (top, bottom) == Ordered(z1, z2);
      assert newX1 == ToPlane(left, Width, xExtent, xCent) && newX2 == ToPlane(right, Width, xExtent, xCent);
      assert newZ1 == ToPlane(top, Height, zExtent, zCent) && newZ2 == ToPlane(bottom, Height, zExtent, zCent);
      xExtent := newX2 - newX1;
      zExtent := newZ2 - newZ1;
      xCent := (newX2 + newX1) / 2.0;
      zCent := (newZ2 + newZ1) / 2.0;
    }

    /** The up key: `cap = cap * 1.2`. */
    method IncreaseCap()
      requires Valid()
      modifies this`cap
      ensures Valid()
      ensures State() == ApplyKey(Up, old(State()))
    {
      KeyKeepsConsistent(Up, State());
      cap := cap * 1.2;
    }

    /** The down key: `cap = cap * 0.8`. */
    method DecreaseCap()
      requires Valid()
      modifies this`cap
      ensures Valid()
      ensures State() == ApplyKey(Down, old(State()))
    {
      KeyKeepsConsistent(Down, State());
      cap := cap * 0.8;
    }

    /** The left key: truncate max_iters * 0.8, then recompute scale_val from it. */
    method DecreaseMaxIters()
      requires Valid()
      requires KeyAllowed(Left, State())
      modifies this`maxIters, this`scaleVal
      ensures Valid()
      ensures State() == ApplyKey(Left, old(State()))
    {
      KeyKeepsConsistent(Left, State());
      maxIters := Shrunk(maxIters);
      scaleVal := ScaleVal(maxIters);
    }

    /** The right key: truncate max_iters * 1.2, then recompute scale_val from it. */
    method IncreaseMaxIters()
      requires Valid()
      requires KeyAllowed(Right, State())
      modifies this`maxIters, this`scaleVal
      ensures Valid()
      ensures State() == ApplyKey(Right, old(State()))
    {
      KeyKeepsConsistent(Right, State());
      maxIters := Grown(maxIters);
      scaleVal := ScaleVal(maxIters);
    }

    /** The space key: restore every global to its initial value. */
    method Reset()
      modifies this
      ensures Valid()
      ensures State() == ApplyKey(Space, old(State()))
    {
      xExtent := 3.0;
      zExtent := 2.0;
      xCent := -0.6;
      zCent := 0.0;
      cap := 2.0;
      maxIters := 50;
      scaleVal := ScaleVal(maxIters);
    }

    /**
     * A key-down event: run the key's update, then re-render; only the
     * space key regenerates the sample grid. Any other key is skipped
     * without rendering.
     */
    method HandleKey(key: Key, pixels: array<Word>, plane: array<Cplx>)
      requires Valid() && KeyAllowed(key, State())
      requires pixels.Length == PixelCount && plane.Length == PixelCount
      modifies this, pixels, plane
      ensures Valid()
      ensures State() == ApplyKey(key, old(State()))
      ensures key == Space ==> SampledFrom(plane, Region())
      ensures key != Space ==> plane[..] == old(plane[..])
      ensures key != Other ==> Rendered(pixels, plane)
      ensures key == Other ==> pixels[..] == old(pixels[..])
    {
      match key
      case Up =>
        IncreaseCap();
        ComputeAndRender(pixels, plane, false);
      case Down =>
        DecreaseCap();
        ComputeAndRender(pixels, plane, false);
      case Left =>
        DecreaseMaxIters();
        ComputeAndRender(pixels, plane, false);
      case Right =>
        IncreaseMaxIters();
        ComputeAndRender(pixels, plane, false);
      case Space =>
        Reset();
        ComputeAndRender(pixels, plane, true);
      case Other =>
    }

    /**
     * A mouse-button-up event ending a drag from (xDown, zDown): zoom to
     * the dragged rectangle, regenerate the sample grid and re-render.
     */
    method HandleMouseUp(xDown: int, zDown: int, xUp: int, zUp: int, pixels: array<Word>, plane: array<Cplx>)
      requires Valid()
      requires pixels.Length == PixelCount && plane.Length == PixelCount
      modifies this, pixels, plane
      ensures Valid()
      ensures Region() == Zoomed(old(Region()), xDown, zDown, xUp, zUp)
      ensures cap == old(cap) && maxIters == old(maxIters) && scaleVal == old(scaleVal)
      ensures SampledFrom(plane, Region())
      ensures Rendered(pixels, plane)
    {
      ResizeComputeRegion(xDown, zDown, xUp, zUp);
      ComputeAndRender(pixels, plane, true);
    }
  }
}
