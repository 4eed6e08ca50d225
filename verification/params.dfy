/**
 * The parameter updates of the key handlers (main-openmp.cpp:167-206) as
 * functions of the seven globals: the arrow keys scale `cap` and
 * `max_iters` by 1.2 or 0.8 (recomputing `scale_val` with `max_iters`),
 * the space key restores every default. `Engine.Fractal` performs these
 * updates in place and is specified by them.
 */
module Params {
  import opened Colour
  import opened Plane

  /** INT_MAX for the 32-bit `int max_iters`. */
  const IntMax: int := 0x7fff_ffff

  /** The keys the event loop reacts to; any other key is skipped (`continue`). */
  datatype Key = Up | Down | Left | Right | Space | Other

  /** The globals x_extent, z_extent, x_cent, z_cent, cap, max_iters, scale_val. */
  datatype Settings = Settings(view: Viewport, cap: real, maxIters: int, scaleVal: Byte)

  /** The initial values (main-openmp.cpp:15-22), which the space key restores. */
  const DefaultSettings: Settings := Settings(Default, 2.0, 50, 5)

  /**
   * What every reachable state satisfies: a positive 32-bit bound with a
   * matching colour scale, a positive cap and non-negative extents.
   */
  predicate Consistent(s: Settings) {
    && 1 <= s.maxIters <= IntMax
    && s.scaleVal == ScaleVal(s.maxIters)
    && s.cap > 0.0
    && s.view.xExtent >= 0.0 && s.view.zExtent >= 0.0
  }

  /** `static_cast<int>(max_iters * 0.8)`: the exact product truncated. */
  function Shrunk(maxIters: nat): (r: nat)
    ensures r as real <= maxIters as real * 0.8 < r as real + 1.0
  {
    maxIters * 4 / 5
  }

  /** `static_cast<int>(max_iters * 1.2)`: the exact product truncated. */
  function Grown(maxIters: nat): (r: nat)
    ensures r as real <= maxIters as real * 1.2 < r as real + 1.0
  {
    maxIters * 6 / 5
  }

  /**
   * When a key's update is defined: the left key must leave a non-zero
   * bound (line 183 divides by it) and the right key a bound that fits in
   * an int (the cast at line 189).
   */
  predicate KeyAllowed(key: Key, s: Settings) {
    match key
    case Left => s.maxIters >= 0 && Shrunk(s.maxIters) >= 1
    case Right => s.maxIters >= 1 && Grown(s.maxIters) <= IntMax
    case _ => true
  }

  /** The globals after the handler of `key` has run. */
  function ApplyKey(key: Key, s: Settings): Settings
    requires KeyAllowed(key, s)
  {
    match key
    case Up => s.(cap := s.cap * 1.2)
    case Down => s.(cap := s.cap * 0.8)
    case Left =>
      var m := Shrunk(s.maxIters);
      s.(maxIters := m, scaleVal := ScaleVal(m))
    case Right =>
      var m := Grown(s.maxIters);
      s.(maxIters := m, scaleVal := ScaleVal(m))
    case Space => Settings(Viewport(3.0, 2.0, -0.6, 0.0), 2.0, 50, ScaleVal(50))
    case Other => s
  }

  /** The left key decreases every bound of at least 2 and keeps it positive; from 1 it would reach 0. */
  lemma ShrunkBounds(maxIters: nat)
    ensures maxIters >= 1 ==> Shrunk(maxIters) < maxIters
    ensures Shrunk(maxIters) >= 1 <==> maxIters >= 2
  {
  }

  /** The right key leaves bounds up to 4 unchanged and raises every larger one. */
  lemma GrownBounds(maxIters: nat)
    ensures maxIters <= 4 ==> Grown(maxIters) == maxIters
    ensures maxIters >= 5 ==> Grown(maxIters) > maxIters
  {
  }

  /** The bound after n presses of the left key. */
  function ShrunkTimes(maxIters: nat, n: nat): nat {
    if n == 0 then maxIters else Shrunk(ShrunkTimes(maxIters, n - 1))
  }

  /** Repeated presses of the left key never raise the bound. */
  lemma {:induction false} ShrunkTimesAntitone(maxIters: nat, i: nat, j: nat)
    requires i <= j
    ensures ShrunkTimes(maxIters, j) <= ShrunkTimes(maxIters, i)
    decreases j - i
  {
    if i < j {
      ShrunkTimesAntitone(maxIters, i, j - 1);
      ShrunkBounds(ShrunkTimes(maxIters, j - 1));
    }
  }

  /**
   * From the default 50, thirteen presses of the left key reach 1
   * (50, 40, 32, 25, 20, 16, 12, 9, 7, 5, 4, 3, 2, 1), every earlier press
   * leaves at least 2, and a fourteenth would set max_iters to 0 and
   * divide by it.
   */
  lemma LeftPressesFromDefault()
    ensures ShrunkTimes(50, 13) == 1
    ensures Shrunk(1) == 0
    ensures forall n: nat :: n < 13 ==> ShrunkTimes(50, n) >= 2
  {
    assert ShrunkTimes(50, 4) == 20;
    assert ShrunkTimes(50, 8) == 7;
    assert ShrunkTimes(50, 12) == 2;
    forall n: nat | n < 13
      ensures ShrunkTimes(50, n) >= 2
    {
      ShrunkTimesAntitone(50, n, 12);
    }
  }

  /** Every handler keeps the state consistent; in particular scale_val is never stale. */
  lemma KeyKeepsConsistent(key: Key, s: Settings)
    requires Consistent(s) && KeyAllowed(key, s)
    ensures Consistent(ApplyKey(key, s))
    ensures ApplyKey(key, s).scaleVal == ScaleVal(ApplyKey(key, s).maxIters)
  {
    if key == Up || key == Down {
      assert s.cap * 1.2 > 0.0 && s.cap * 0.8 > 0.0;
    }
  }

  /** Whatever came before, the space key restores exactly the initial settings. */
  lemma ResetRestoresDefaults(s: Settings)
    ensures ApplyKey(Space, s) == DefaultSettings
    ensures Consistent(ApplyKey(Space, s))
  {
  }

  /** Only the space key moves the viewport; the cap keys leave the bound alone and the bound keys the cap. */
  lemma KeyFrames(key: Key, s: Settings)
    requires KeyAllowed(key, s)
    ensures key != Space ==> ApplyKey(key, s).view == s.view
    ensures (key == Up || key == Down) ==> ApplyKey(key, s).maxIters == s.maxIters && ApplyKey(key, s).scaleVal == s.scaleVal
    ensures (key == Left || key == Right) ==> ApplyKey(key, s).cap == s.cap
  {
  }

  /** The cap keys are not inverse to each other: up then down scales the cap by 0.96. */
  lemma CapKeysNotInverse(s: Settings)
    ensures ApplyKey(Down, ApplyKey(Up, s)).cap == s.cap * 0.96
    ensures ApplyKey(Up, ApplyKey(Down, s)).cap == s.cap * 0.96
  {
  }
}
