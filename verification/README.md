# Mandelbrot fractal engine, modelled in Dafny

This project models the computing core of an interactive Mandelbrot viewer
written in C++ with SDL and OpenMP (`main-openmp.cpp`). The viewer shows a
640x480 grey-scale escape-time image of a viewport of the complex plane.
The arrow keys scale the divergence threshold `cap` and the iteration bound
`max_iters`. The space key resets everything. Dragging a rectangle with the
mouse zooms into it.

The model covers five parts:

- **Escape-count evaluator** (`fc`, `iter_div`). The loop is
  `Engine.Fractal.IterDiv`. Its specification is the recursive function
  `Escape.EscapeCount`, which gives the first index whose iterate has
  modulus above `cap`, or `max_iters` when there is none. The lemmas in
  `Escape` prove the first-escape characterisation, the effect of raising
  `max_iters`, and the effect of lowering `cap`.
- **Sample-grid fill** (`init_complex_plane`). `Engine.Fractal.InitComplexPlane`
  fills the row-major array `plane` in place. `Plane.Sample` gives the value
  of each cell. The `Plane.Index*` lemmas show that the positions `z*640 + x`
  cover the buffer exactly once.
- **Pixel renderer** (`mandelbrot_diverge_pixels`, `compute_and_render`).
  `Engine.Fractal.MandelbrotDivergePixels` writes each pixel in place from
  the sample at the same position. The integer colour arithmetic is in
  `Colour`: the `uint8_t` scale and intensity, and the four-lane `uint32_t`
  packing.
- **Zoom transform** (`resize_compute_region`). `Engine.Fractal.ResizeComputeRegion`
  updates the viewport globals in place. It is specified by the function
  `Plane.Zoomed`, and the `Plane.Zoom*` lemmas give that function's
  properties.
- **Parameter updates** of the key handlers. The methods of `Engine.Fractal`
  change the globals in place. Each one is specified by `Params.ApplyKey`,
  a function on a `Settings` value that holds the seven globals.

The seven globals (`x_extent`, `z_extent`, `x_cent`, `z_cent`, `cap`,
`max_iters`, `scale_val`) are the fields of the class `Engine.Fractal`. The
sample grid is an array passed to its methods, as the source passes `plane`.
The pixel array `pixels` stands for the texture memory. `SDL_LockTexture`
(main-openmp.cpp:87) rebinds `compute_and_render`'s local `pixels_div` to
that memory, so the renderer writes there and not into the array allocated
in `main`.

Modelling choices:

- `double` is the exact `real`, and `std::complex<double>` is a pair of reals.
- `std::abs(z) > cap` is `cap < 0 || cap² < re² + im²`. This is the same test
  for every real `cap`, without the square root.
- `uint8_t` and `uint32_t` are integer subset types. Each narrowing is
  written out as a reduction modulo 2^8 or 2^32.
- `static_cast<int>(max_iters * 0.8)` and `static_cast<int>(max_iters * 1.2)`
  are the exact products truncated (`Params.Shrunk`, `Params.Grown`).

Facts about the code that the model keeps:

- The first value `iter_div` tests is `fc(c)`. The default argument
  `z = 0` makes that `0*0 + c = c` (`Escape.FcDefaultIsSeed`).
  `IterDiv` therefore starts its loop from `c`.
- The code has no clamps. A decrease can drive `max_iters` to 0. A zoom
  whose corners share a coordinate gives a zero extent. Pixel coordinates
  are not clamped to the window. `cap` has no lower floor. The model keeps
  all of this except the decrease from 1, which `DecreaseMaxIters` excludes
  (see "Left out"). It proves what does hold: extents stay non-negative,
  `cap` stays positive, and `max_iters` stays at least 1 whenever the left
  key is allowed.
- The intensity `scale_val * (max_iters - count)` never leaves [0, 255], so
  its narrowing to `uint8_t` never wraps (`Colour.IntensityNoWrap`).

## Model

| member | source | states |
|---|---|---|
| `Complex.ModulusExceeds` | main-openmp.cpp:38 | the definition is the test `std::abs(eval) > cap` without the square root; `Complex.ExceedsLowerCap` and `Complex.ZeroNeverExceeds` state its properties |
| `Complex.ExceedsLowerCap` | main-openmp.cpp:38 | if a value's modulus exceeds `cap`, it exceeds every lower threshold too |
| `Complex.ZeroNeverExceeds` | main-openmp.cpp:38 | the origin exceeds no non-negative threshold |
| `Escape.Fc` | main-openmp.cpp:24-27 | the definition follows the source: `z*z + c`; `Escape.FcDefaultIsSeed` gives its value at the default `z = 0` |
| `Escape.Orbit` | main-openmp.cpp:35-42 | the definition follows the source: the value of `eval` after k steps, starting from `fc(c) = c`; `Escape.OriginOrbit` and `Engine.Fractal.IterDiv` (its loop invariant) state its properties |
| `Escape.FcDefaultIsSeed` | main-openmp.cpp:24-27 | `fc(c)` with the default `z = 0` is `c` itself, so this is the first value `iter_div` tests |
| `Escape.EscapeFrom` | main-openmp.cpp:36-44 | the loop resumed at index k returns a value in [k, max_iters]; no index before the result escapes, and the result escapes unless it is max_iters |
| `Escape.EscapeCount` | main-openmp.cpp:29-45 | the result of `iter_div` lies in [0, max_iters], is preceded only by non-escaping iterates, and is itself escaping unless it equals max_iters |
| `Escape.EscapeCountIff` | main-openmp.cpp:35-44 | both directions: n is the count exactly when n is in [0, max_iters], no iterate before n escapes, and iterate n escapes unless n == max_iters |
| `Escape.NoEscapeIff` | main-openmp.cpp:36-44 | the count is max_iters exactly when none of the max_iters tested iterates escapes |
| `Escape.ResumeFrom` | main-openmp.cpp:31-34 | iterates known not to escape can be skipped: the loop may resume where an earlier run stopped |
| `Escape.RaiseMaxIters` | main-openmp.cpp:31-34 | raising max_iters keeps the count of every point that escaped; a point that did not escape gets the resumed loop's count, which is at least the old bound |
| `Escape.LowerCap` | main-openmp.cpp:38 | lowering cap never increases the count |
| `Escape.OriginOrbit` | main-openmp.cpp:24-27 | every iterate of the origin is the origin |
| `Escape.OriginNeverEscapes` | main-openmp.cpp:35-44 | for a non-negative cap the origin's count is max_iters |
| `Escape.CornerEscapesAtOnce` | main-openmp.cpp:35-40 | 2+2i with cap 2 has count 0 for every max_iters >= 0 |
| `Engine.Fractal.IterDiv` | main-openmp.cpp:29-45 | the loop with early exit returns EscapeCount of the current globals: the first escaping index, or max_iters |
| `Colour.NarrowToByte` | main-openmp.cpp:73 | conversion to `uint8_t` keeps values in [0, 255] and is congruent modulo 256 |
| `Colour.NarrowToWord` | main-openmp.cpp:75 | conversion to `uint32_t` keeps values below 2^32 and is congruent modulo 2^32 |
| `Colour.MaxByte` | main-openmp.cpp:17 | `(uint8_t)-1` is 255 |
| `Colour.ScaleVal` | main-openmp.cpp:17 | scale_val is the largest s with s * max_iters <= 255, so it is 0 once max_iters > 255 |
| `Colour.Intensity` | main-openmp.cpp:73 | the definition follows the source: the product narrowed to `uint8_t`; `Colour.IntensityNoWrap`, `Colour.IntensityAntitone` and `Colour.DefaultIntensities` state its properties |
| `Colour.IntensityNoWrap` | main-openmp.cpp:73 | for a count in [0, max_iters], scale_val * (max_iters - count) lies in [0, 255], so the `uint8_t` narrowing keeps it |
| `Colour.IntensityAntitone` | main-openmp.cpp:73 | a larger count gives an intensity no brighter, and count == max_iters gives 0 (black) |
| `Colour.DefaultIntensities` | main-openmp.cpp:16-17 | with max_iters 50 the scale is 5; count 0 gives 250 and count 50 gives 0 |
| `Colour.PackGrey` | main-openmp.cpp:75 | the definition follows the source: the four shifted copies summed and narrowed to `uint32_t`; `Colour.PackNoWrap`, `Colour.PackLanes` and `Colour.PackInjective` state its properties |
| `Colour.PackNoWrap` | main-openmp.cpp:75 | the four shifted copies add up to b * 0x01010101 without wrapping |
| `Colour.PackLanes` | main-openmp.cpp:74-75 | each of the four byte lanes of the packed word holds b |
| `Colour.PackInjective` | main-openmp.cpp:75 | distinct intensities give distinct pixel words |
| `Engine.PixelOfSample` | main-openmp.cpp:72-76 | the pixel for a sample is b * 0x01010101 with b = scale_val * (max_iters - count) in [0, 255]; the origin's pixel is 0 |
| `Plane.Index` | main-openmp.cpp:57 | the definition follows the source: `z*width + x`; `Plane.IndexInGrid`, `Plane.IndexCovers` and `Plane.IndexInjective` state its properties |
| `Plane.Sample` | main-openmp.cpp:49-56 | the definition follows the source's step formula; `Plane.SampleIsToPlane` and `Plane.ZoomSamplesInside` state its properties, and `Engine.Fractal.InitComplexPlane` stores it |
| `Plane.ToPlane` | main-openmp.cpp:109-112 | the definition follows the source's pixel-to-plane map of one axis; `Plane.ToPlaneAffine` and `Plane.ToPlaneDistance` state its properties |
| `Plane.IndexInGrid` | main-openmp.cpp:57 | for every pixel (x, z) of the grid, `z*width + x` lies in [0, width*height) and gives back x and z |
| `Plane.IndexCovers` | main-openmp.cpp:51-57 | every position of the buffer is `z*width + x` for the pixel its quotient and remainder name |
| `Plane.IndexInjective` | main-openmp.cpp:51-57 | distinct pixels have distinct positions, so each cell is written by one pixel only |
| `Plane.ToPlaneAffine` | main-openmp.cpp:109 | the zoom's pixel-to-plane map is centre - extent/2 + (extent/size) * p |
| `Plane.SampleIsToPlane` | main-openmp.cpp:49-56 | the sample of pixel (x, z) is the zoom's pixel-to-plane map applied to each axis |
| `Plane.Ordered` | main-openmp.cpp:96-107 | the swap yields the two corner coordinates in ascending order |
| `Plane.ToPlaneDistance` | main-openmp.cpp:109-114 | two mapped pixels are (b - a) / size * extent apart |
| `Plane.Zoomed` | main-openmp.cpp:96-116 | the definition follows the source: sort the corners, map them, take difference and midpoint; `Plane.ZoomExtents`, `Plane.ZoomFrames`, `Plane.ZoomCornerOrder`, `Plane.ZoomFullView` and `Plane.ZoomSamplesInside` state its properties, and `Engine.Fractal.ResizeComputeRegion` is specified by it |
| `Plane.ZoomExtents` | main-openmp.cpp:109-114 | the new extent is the sorted pixel span over the grid size times the old extent; it stays non-negative; it is 0 exactly when the corners share that coordinate or the old extent was 0 |
| `Plane.ZoomFrames` | main-openmp.cpp:109-116 | the new viewport's edges are the old images of the smaller and the larger corner, per axis |
| `Plane.ZoomCornerOrder` | main-openmp.cpp:96-107 | the result does not depend on which corner was pressed first, on either axis |
| `Plane.ZoomFullView` | main-openmp.cpp:109-116 | zooming to (0, 0)-(width, height) leaves the viewport unchanged |
| `Plane.ZoomSamplesInside` | main-openmp.cpp:49-56 | after a zoom every sample of the grid lies inside the dragged rectangle as seen before the zoom |
| `Engine.Fractal.InitComplexPlane` | main-openmp.cpp:47-60 | after the nested loops, every cell `plane[pos]` holds the sample of pixel (pos % width, pos / width) |
| `Engine.Fractal.MandelbrotDivergePixels` | main-openmp.cpp:62-79 | after the nested loops, every `pixels_div[pos]` is the grey word of the escape count of `mat[pos]`; only the pixel buffer is modified |
| `Engine.Fractal.ComputeAndRender` | main-openmp.cpp:81-90 | the grid is regenerated exactly when to_shift holds and is otherwise unchanged; then every pixel is rendered from it |
| `Engine.Fractal.ResizeComputeRegion` | main-openmp.cpp:92-117 | the new viewport is Zoomed(old viewport, corners); cap, max_iters and scale_val do not change; the state stays consistent |
| `Engine.Fractal.constructor` | main-openmp.cpp:15-22 | the globals start at extent (3, 2), centre (-0.6, 0), cap 2, max_iters 50, scale_val 5 |
| `Params.Shrunk` | main-openmp.cpp:182 | the new bound is the truncation of the exact product max_iters * 0.8 |
| `Params.Grown` | main-openmp.cpp:189 | the new bound is the truncation of the exact product max_iters * 1.2 |
| `Params.ShrunkBounds` | main-openmp.cpp:182-183 | the left key lowers every positive bound; the result is positive exactly when the bound was at least 2 |
| `Params.GrownBounds` | main-openmp.cpp:189 | the right key leaves bounds up to 4 unchanged and raises every larger one |
| `Params.ShrunkTimesAntitone` | main-openmp.cpp:181-183 | repeated left presses never raise the bound |
| `Params.LeftPressesFromDefault` | main-openmp.cpp:181-183 | from 50, 13 left presses reach 1 and every earlier press leaves at least 2; a 14th would give 0 |
| `Params.ApplyKey` | main-openmp.cpp:167-203 | the definition follows the source's handler of each key; `Params.KeyKeepsConsistent`, `Params.ResetRestoresDefaults`, `Params.KeyFrames` and `Params.CapKeysNotInverse` state its properties, and the key methods of `Engine.Fractal` are specified by it |
| `Params.KeyKeepsConsistent` | main-openmp.cpp:167-203 | every key handler keeps the state consistent: scale_val always matches max_iters, cap stays positive, extents stay non-negative |
| `Params.ResetRestoresDefaults` | main-openmp.cpp:195-203 | whatever came before, the space key restores exactly the initial settings |
| `Params.KeyFrames` | main-openmp.cpp:167-194 | only the space key moves the viewport; the cap keys leave max_iters and scale_val alone; the bound keys leave cap alone |
| `Params.CapKeysNotInverse` | main-openmp.cpp:169-176 | up then down, or down then up, scales cap by 0.96, not 1 |
| `Engine.Fractal.IncreaseCap` | main-openmp.cpp:167-169 | cap becomes cap * 1.2 and nothing else changes |
| `Engine.Fractal.DecreaseCap` | main-openmp.cpp:174-176 | cap becomes cap * 0.8 and nothing else changes |
| `Engine.Fractal.DecreaseMaxIters` | main-openmp.cpp:181-183 | max_iters becomes Shrunk(max_iters) and scale_val is recomputed from it |
| `Engine.Fractal.IncreaseMaxIters` | main-openmp.cpp:188-190 | max_iters becomes Grown(max_iters) and scale_val is recomputed from it |
| `Engine.Fractal.Reset` | main-openmp.cpp:195-203 | all seven globals get their initial values |
| `Engine.Fractal.HandleKey` | main-openmp.cpp:163-209 | the key's update is applied; the grid is regenerated only for space; every handled key re-renders all pixels; other keys change nothing |
| `Engine.Fractal.HandleMouseUp` | main-openmp.cpp:217-222 | the drag's rectangle becomes the viewport, then the grid is regenerated and all pixels are re-rendered |

## Left out

- The pixel buffer's identity: `pixels` is the locked texture memory that `SDL_LockTexture` binds to `pixels_div` at line 87. The array allocated in `main` is never written and is not modelled.
- SDL: window, renderer and texture creation, `SDL_LockTexture`/`SDL_UnlockTexture`, presenting, the event loop itself and `SDL_GetMouseState`. These are foreign library calls. The mouse coordinates are parameters of `HandleMouseUp`, and the key is a parameter of `HandleKey`.
- OpenMP: the `parallel for` pragmas. The loops are modelled sequentially. The writes go to distinct cells (`Plane.IndexInjective`), so the result does not depend on the schedule.
- IEEE-754 rounding of `double` and `std::complex<double>`. Values are exact reals. The truncating casts at lines 182 and 189 use the exact products 0.8·m and 1.2·m.
- The square root in `std::abs`. It is replaced by the equivalent squared-modulus comparison.
- The signed `int` shift `single_col << 24` at line 75, which overflows for values of 128 or more. The packing is modelled as unsigned 32-bit arithmetic.
- `std::cout` logging and the `pitch` variable. These are I/O only.
- Engine.Fractal.DecreaseMaxIters: requires that the new bound be at least 1 (`max_iters >= 2`). From 1 the source sets `max_iters` to 0 and then divides by it at line 183, which is undefined behaviour.
- Engine.Fractal.IncreaseMaxIters: requires that the truncated product fit in an `int`. Beyond that the cast at line 189 is undefined behaviour.
- Engine.Fractal.HandleKey: carries the two requirements above for the left and right keys.
- Engine.Fractal.IterDiv: starts its loop from `c` and does not call `fc(c)`. The two are equal (`Escape.FcDefaultIsSeed`).
