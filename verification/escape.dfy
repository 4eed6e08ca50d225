/**
 * The escape-count evaluator: `fc` and the specification of `iter_div`
 * (main-openmp.cpp:24-45). The loop itself is `Engine.Fractal.IterDiv`,
 * since the source reads `max_iters` and `cap` from globals.
 */
module Escape {
  import opened Complex

  /**
   * fc(c, z) = z*z + c. The source's default argument z = 0 makes the
   * first value iter_div tests fc(c) == c itself.
   */
  function Fc(c: Cplx, z: Cplx): Cplx {
    Add(Mul(z, z), c)
  }

  /** The call `fc(c)` with the default argument returns the seed c unchanged. */
  lemma FcDefaultIsSeed(c: Cplx)
    ensures Fc(c, Zero) == c
  {
    assert Mul(Zero, Zero) == Zero;
  }

  /**
   * The k-th value iter_div tests: Orbit(c, 0) is fc(c), which is c by
   * FcDefaultIsSeed, and each next one is fc(c, previous).
   */
  function Orbit(c: Cplx, k: nat): Cplx {
    if k == 0 then c else Fc(c, Orbit(c, k - 1))
  }

  /** The k-th tested value has modulus above cap. */
  predicate EscapesAt(c: Cplx, k: nat, cap: real) {
    ModulusExceeds(Orbit(c, k), cap)
  }

  /**
   * The loop of iter_div resumed at index k: the first index in [k, maxIters)
   * whose tested value escapes, or maxIters when there is none.
   */
  function EscapeFrom(c: Cplx, k: nat, maxIters: int, cap: real): (r: int)
    ensures maxIters <= k ==> r == maxIters
    ensures k < maxIters ==> k <= r <= maxIters
    ensures forall j: nat :: k <= j < r ==> !EscapesAt(c, j, cap)
    ensures k <= r < maxIters ==> EscapesAt(c, r, cap)
    decreases maxIters - k
  {
    if maxIters <= k then maxIters
    else if EscapesAt(c, k, cap) then k
    else EscapeFrom(c, k + 1, maxIters, cap)
  }

  /**
   * The value iter_div returns for point c when the globals hold maxIters
   * and cap: the index of the first escaping iterate, or maxIters.
   */
  function EscapeCount(c: Cplx, maxIters: int, cap: real): (r: int)
    ensures maxIters <= 0 ==> r == maxIters
    ensures maxIters >= 0 ==> 0 <= r <= maxIters
    ensures forall k: nat :: k < r ==> !EscapesAt(c, k, cap)
    ensures 0 <= r < maxIters ==> EscapesAt(c, r, cap)
  {
    EscapeFrom(c, 0, maxIters, cap)
  }

  /**
   * EscapeCount is characterised by the first-escape property: n is the
   * result if and only if n lies in [0, maxIters], no iterate before n
   * escapes, and iterate n escapes unless n == maxIters.
   */
  lemma EscapeCountIff(c: Cplx, maxIters: nat, cap: real, n: int)
    ensures EscapeCount(c, maxIters, cap) == n <==>
              && 0 <= n <= maxIters
              && (forall k: nat :: k < n ==> !EscapesAt(c, k, cap))
              && (n < maxIters ==> EscapesAt(c, n, cap))
  {
    var r: nat := EscapeCount(c, maxIters, cap);
    if 0 <= n <= maxIters && (forall k: nat :: k < n ==> !EscapesAt(c, k, cap)) && (n < maxIters ==> EscapesAt(c, n, cap)) {
      var i: nat := n;
      assert i < r ==> !EscapesAt(c, i, cap);
      assert r < i ==> !EscapesAt(c, r, cap);
    }
  }

  /** The result is maxIters exactly when none of the maxIters tested values escapes. */
  lemma NoEscapeIff(c: Cplx, maxIters: nat, cap: real)
    ensures EscapeCount(c, maxIters, cap) == maxIters <==>
              forall k: nat :: k < maxIters ==> !EscapesAt(c, k, cap)
  {
    EscapeCountIff(c, maxIters, cap, maxIters);
  }

  /**
   * Skipping indices whose values are known not to escape does not change
   * the result: the loop may be resumed where an earlier run stopped.
   */
  lemma {:induction false} ResumeFrom(c: Cplx, k: nat, m: nat, maxIters: int, cap: real)
    requires k <= m <= maxIters
    requires forall j: nat :: k <= j < m ==> !EscapesAt(c, j, cap)
    ensures EscapeFrom(c, k, maxIters, cap) == EscapeFrom(c, m, maxIters, cap)
    decreases m - k
  {
    if k < m {
      assert !EscapesAt(c, k, cap);
      ResumeFrom(c, k + 1, m, maxIters, cap);
    }
  }

  /**
   * Raising the bound from m to m2: a point that escaped keeps its count,
   * and a point that did not gets the count of the loop resumed at m,
   * which is at least m (the claim of the comment on iter_div).
   */
  lemma RaiseMaxIters(c: Cplx, m: nat, m2: int, cap: real)
    requires m <= m2
    ensures EscapeCount(c, m, cap) < m ==> EscapeCount(c, m2, cap) == EscapeCount(c, m, cap)
    ensures EscapeCount(c, m, cap) == m ==>
              EscapeCount(c, m2, cap) == EscapeFrom(c, m, m2, cap) >= m
  {
    var r := EscapeCount(c, m, cap);
    if r < m {
      ResumeFrom(c, 0, r, m2, cap);
      assert EscapesAt(c, r, cap);
    } else {
      ResumeFrom(c, 0, m, m2, cap);
    }
  }

  /** Lowering the divergence threshold cannot postpone escape. */
  lemma LowerCap(c: Cplx, maxIters: nat, cap: real, lower: real)
    requires lower <= cap
    ensures EscapeCount(c, maxIters, lower) <= EscapeCount(c, maxIters, cap)
  {
    var r := EscapeCount(c, maxIters, cap);
    var r2 := EscapeCount(c, maxIters, lower);
    if r < maxIters {
      ExceedsLowerCap(Orbit(c, r), cap, lower);
      assert r < r2 ==> !EscapesAt(c, r, lower);
    }
  }

  /** Every tested value of the origin is the origin. */
  lemma {:induction false} OriginOrbit(k: nat)
    ensures Orbit(Zero, k) == Zero
  {
    if k > 0 {
      OriginOrbit(k - 1);
    }
  }

  /** The origin never escapes a non-negative threshold. */
  lemma OriginNeverEscapes(maxIters: nat, cap: real)
    requires cap >= 0.0
    ensures EscapeCount(Zero, maxIters, cap) == maxIters
  {
    forall k: nat | k < maxIters
      ensures !EscapesAt(Zero, k, cap)
    {
      OriginOrbit(k);
      ZeroNeverExceeds(cap);
    }
    NoEscapeIff(Zero, maxIters, cap);
  }

  /**
   * The point 2+2i has modulus sqrt 8 > 2 and escapes at index 0; with the
   * bound 0 the loop does not run and the count is 0 as well.
   */
  lemma CornerEscapesAtOnce(maxIters: int)
    requires maxIters >= 0
    ensures EscapeCount(Cplx(2.0, 2.0), maxIters, 2.0) == 0
  {
    assert EscapesAt(Cplx(2.0, 2.0), 0, 2.0);
  }
}
