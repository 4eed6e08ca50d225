/**
 * The pixel grid and the viewport: the fixed 640x480 row-major grid, the
 * viewport (centre and extent in the plane), the sample a pixel shows
 * (init_complex_plane, main-openmp.cpp:47-60) and the zoom-to-rectangle
 * transform (resize_compute_region, main-openmp.cpp:92-117).
 */
module Plane {
  import opened Complex

  const Width: int := 640
  const Height: int := 480
  const PixelCount: int := Width * Height

  /** The globals x_extent, z_extent, x_cent, z_cent. */
  datatype Viewport = Viewport(xExtent: real, zExtent: real, xCent: real, zCent: real)

  /** Their initial values, restored by the reset key. */
  const Default: Viewport := Viewport(3.0, 2.0, -0.6, 0.0)

  /** Row-major position of pixel (x, z): `z * width + x`. */
  function Index(x: int, z: int): int {
    z * Width + x
  }

  /** Every pixel of the grid has a position inside the buffer, from which its coordinates come back. */
  lemma IndexInGrid(x: int, z: int)
    requires 0 <= x < Width && 0 <= z < Height
    ensures 0 <= Index(x, z) < PixelCount
    ensures Index(x, z) % Width == x && Index(x, z) / Width == z
  {
  }

  /** Every position of the buffer is the position of exactly the pixel its coordinates name. */
  lemma IndexCovers(pos: int)
    requires 0 <= pos < PixelCount
    ensures 0 <= pos % Width < Width && 0 <= pos / Width < Height
    ensures Index(pos % Width, pos / Width) == pos
  {
  }

  /** Distinct pixels have distinct positions, so each cell is written by one pixel only. */
  lemma IndexInjective(x1: int, z1: int, x2: int, z2: int)
    requires 0 <= x1 < Width && 0 <= z1 < Height
    requires 0 <= x2 < Width && 0 <= z2 < Height
    ensures Index(x1, z1) == Index(x2, z2) ==> x1 == x2 && z1 == z2
  {
    IndexInGrid(x1, z1);
    IndexInGrid(x2, z2);
  }

  /**
   * One axis of the pixel-to-plane map of resize_compute_region:
   * `((p / size) - 0.5) * extent + cent`.
   */
  function ToPlane(p: int, size: int, extent: real, cent: real): real
    requires size > 0
  {
    ((p as real / size as real) - 0.5) * extent + cent
  }

  /**
   * The sample init_complex_plane stores for pixel (x, z):
   * `(x_cent - x_extent/2 + step_x * x, z_cent - z_extent/2 + step_z * z)`.
   */
  function Sample(v: Viewport, x: int, z: int): Cplx {
    var stepX := v.xExtent / Width as real;
    var stepZ := v.zExtent / Height as real;
    Cplx(v.xCent - v.xExtent / 2.0 + stepX * x as real, v.zCent - v.zExtent / 2.0 + stepZ * z as real)
  }

  /** The map of one axis is affine in the pixel coordinate. */
  lemma ToPlaneAffine(p: int, size: int, extent: real, cent: real)
    requires size > 0
    ensures ToPlane(p, size, extent, cent) == cent - extent / 2.0 + (extent / size as real) * p as real
  {
    var u := p as real / size as real;
    assert (u - 0.5) * extent == u * extent - extent / 2.0;
    assert u * extent == (extent / size as real) * p as real;
  }

  /** The sample grid and the zoom use the same pixel-to-plane map. */
  lemma SampleIsToPlane(v: Viewport, x: int, z: int)
    ensures Sample(v, x, z) == Cplx(ToPlane(x, Width, v.xExtent, v.xCent), ToPlane(z, Height, v.zExtent, v.zCent))
  {
    ToPlaneAffine(x, Width, v.xExtent, v.xCent);
    ToPlaneAffine(z, Height, v.zExtent, v.zCent);
  }

  /** The swap of lines 96-107: the pair in ascending order. */
  function Ordered(a: int, b: int): (r: (int, int))
    ensures r.0 <= r.1
    ensures (r.0 == a && r.1 == b) || (r.0 == b && r.1 == a)
  {
    if b < a then (b, a) else (a, b)
  }

  /**
   * The viewport after resize_compute_region(x1, z1, x2, z2): both corners
   * mapped through the current viewport, then the new extent is their
   * difference and the new centre their midpoint, per axis.
   */
  function Zoomed(v: Viewport, x1: int, z1: int, x2: int, z2: int): Viewport {
    var (lx, hx) := Ordered(x1, x2);
    var (lz, hz) := Ordered(z1, z2);
    var newX1 := ToPlane(lx, Width, v.xExtent, v.xCent);
    var newX2 := ToPlane(hx, Width, v.xExtent, v.xCent);
    var newZ1 := ToPlane(lz, Height, v.zExtent, v.zCent);
    var newZ2 := ToPlane(hz, Height, v.zExtent, v.zCent);
    Viewport(newX2 - newX1, newZ2 - newZ1, (newX2 + newX1) / 2.0, (newZ2 + newZ1) / 2.0)
  }

  /** The distance between two mapped pixels is their pixel distance scaled by extent / size. */
  lemma ToPlaneDistance(a: int, b: int, size: int, extent: real, cent: real)
    requires size > 0
    ensures ToPlane(b, size, extent, cent) - ToPlane(a, size, extent, cent) == (b - a) as real / size as real * extent
  {
    ToPlaneAffine(a, size, extent, cent);
    ToPlaneAffine(b, size, extent, cent);
    var step := extent / size as real;
    assert step * b as real - step * a as real == step * (b - a) as real;
    assert step * (b - a) as real == (b - a) as real / size as real * extent;
  }

  /**
   * The new extents are the sorted pixel spans scaled by the old extents;
   * so they stay non-negative, and one is 0 exactly when the two corners
   * share that coordinate (there is no guard) or the old extent was 0.
   */
  lemma ZoomExtents(v: Viewport, x1: int, z1: int, x2: int, z2: int)
    ensures var r := Zoomed(v, x1, z1, x2, z2);
            && r.xExtent == (Ordered(x1, x2).1 - Ordered(x1, x2).0) as real / Width as real * v.xExtent
            && r.zExtent == (Ordered(z1, z2).1 - Ordered(z1, z2).0) as real / Height as real * v.zExtent
    ensures v.xExtent >= 0.0 ==> Zoomed(v, x1, z1, x2, z2).xExtent >= 0.0
    ensures v.zExtent >= 0.0 ==> Zoomed(v, x1, z1, x2, z2).zExtent >= 0.0
    ensures Zoomed(v, x1, z1, x2, z2).xExtent == 0.0 <==> x1 == x2 || v.xExtent == 0.0
    ensures Zoomed(v, x1, z1, x2, z2).zExtent == 0.0 <==> z1 == z2 || v.zExtent == 0.0
  {
    var (lx, hx) := Ordered(x1, x2);
    var (lz, hz) := Ordered(z1, z2);
    ToPlaneDistance(lx, hx, Width, v.xExtent, v.xCent);
    ToPlaneDistance(lz, hz, Height, v.zExtent, v.zCent);
    var sx := (hx - lx) as real / Width as real;
    var sz := (hz - lz) as real / Height as real;
    assert sx >= 0.0 && sz >= 0.0;
    assert sx == 0.0 <==> x1 == x2;
    assert sz == 0.0 <==> z1 == z2;
    ProductSign(sx, v.xExtent);
    ProductSign(sz, v.zExtent);
  }

  lemma ProductSign(s: real, e: real)
    requires s >= 0.0
    ensures e >= 0.0 ==> s * e >= 0.0
    ensures s * e == 0.0 <==> s == 0.0 || e == 0.0
  {
    if s != 0.0 && s * e == 0.0 {
      assert e == (s * e) / s;
    }
  }

  /**
   * The new viewport frames the dragged rectangle: its first column and
   * row show what the smaller corner showed before, and its far edge
   * (pixel Width, Height) what the larger corner showed.
   */
  lemma ZoomFrames(v: Viewport, x1: int, z1: int, x2: int, z2: int)
    ensures var r := Zoomed(v, x1, z1, x2, z2);
            && ToPlane(0, Width, r.xExtent, r.xCent) == ToPlane(Ordered(x1, x2).0, Width, v.xExtent, v.xCent)
            && ToPlane(Width, Width, r.xExtent, r.xCent) == ToPlane(Ordered(x1, x2).1, Width, v.xExtent, v.xCent)
            && ToPlane(0, Height, r.zExtent, r.zCent) == ToPlane(Ordered(z1, z2).0, Height, v.zExtent, v.zCent)
            && ToPlane(Height, Height, r.zExtent, r.zCent) == ToPlane(Ordered(z1, z2).1, Height, v.zExtent, v.zCent)
  {
    var r := Zoomed(v, x1, z1, x2, z2);
    ToPlaneEdges(Width, r.xExtent, r.xCent);
    ToPlaneEdges(Height, r.zExtent, r.zCent);
  }

  /** Pixel 0 maps to the centre minus half the extent, pixel size to the centre plus half. */
  lemma ToPlaneEdges(size: int, extent: real, cent: real)
    requires size > 0
    ensures ToPlane(0, size, extent, cent) == cent - extent / 2.0
    ensures ToPlane(size, size, extent, cent) == cent + extent / 2.0
  {
    assert size as real / size as real == 1.0;
  }

  /** The order in which the two corners were dragged does not matter. */
  lemma ZoomCornerOrder(v: Viewport, x1: int, z1: int, x2: int, z2: int)
    ensures Zoomed(v, x1, z1, x2, z2) == Zoomed(v, x2, z2, x1, z1)
    ensures Zoomed(v, x1, z1, x2, z2) == Zoomed(v, x2, z1, x1, z2)
  {
  }

  /** Zooming to the rectangle that covers the whole grid leaves the viewport as it was. */
  lemma ZoomFullView(v: Viewport)
    ensures Zoomed(v, 0, 0, Width, Height) == v
  {
    ToPlaneEdges(Width, v.xExtent, v.xCent);
    ToPlaneEdges(Height, v.zExtent, v.zCent);
  }

  /**
   * After the zoom every sample of the grid lies inside the dragged
   * rectangle, as mapped through the viewport before the zoom.
   */
  lemma ZoomSamplesInside(v: Viewport, x1: int, z1: int, x2: int, z2: int, x: int, z: int)
    requires v.xExtent >= 0.0 && v.zExtent >= 0.0
    requires 0 <= x < Width && 0 <= z < Height
    ensures var s := Sample(Zoomed(v, x1, z1, x2, z2), x, z);
            && ToPlane(Ordered(x1, x2).0, Width, v.xExtent, v.xCent) <= s.re <= ToPlane(Ordered(x1, x2).1, Width, v.xExtent, v.xCent)
            && ToPlane(Ordered(z1, z2).0, Height, v.zExtent, v.zCent) <= s.im <= ToPlane(Ordered(z1, z2).1, Height, v.zExtent, v.zCent)
  {
    var r := Zoomed(v, x1, z1, x2, z2);
    ZoomExtents(v, x1, z1, x2, z2);
    ZoomFrames(v, x1, z1, x2, z2);
    SampleIsToPlane(r, x, z);
    ToPlaneBetween(x, Width, r.xExtent, r.xCent);
    ToPlaneBetween(z, Height, r.zExtent, r.zCent);
  }

  /** With a non-negative extent, pixels in [0, size] map between the images of 0 and size. */
  lemma ToPlaneBetween(p: int, size: int, extent: real, cent: real)
    requires size > 0 && 0 <= p <= size && extent >= 0.0
    ensures ToPlane(0, size, extent, cent) <= ToPlane(p, size, extent, cent) <= ToPlane(size, size, extent, cent)
  {
    ToPlaneDistance(0, p, size, extent, cent);
    ToPlaneDistance(p, size, size, extent, cent);
    ProductSign(p as real / size as real, extent);
    ProductSign((size - p) as real / size as real, extent);
  }
}
