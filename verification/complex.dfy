/**
 * Complex numbers over exact reals: the model's stand-in for
 * `std::complex<double>` (main-openmp.cpp:9), with the modulus test of
 * `std::abs(z) > cap` stated without the square root.
 */
module Complex {

  datatype Cplx = Cplx(re: real, im: real)

  const Zero: Cplx := Cplx(0.0, 0.0)

  function Add(a: Cplx, b: Cplx): Cplx {
    Cplx(a.re + b.re, a.im + b.im)
  }

  function Mul(a: Cplx, b: Cplx): Cplx {
    Cplx(a.re * b.re - a.im * b.im, a.re * b.im + a.im * b.re)
  }

  /** The squared modulus re² + im². */
  function SqModulus(z: Cplx): real {
    z.re * z.re + z.im * z.im
  }

  /**
   * `std::abs(z) > cap`. Since |z| = sqrt(SqModulus(z)) >= 0, the test holds
   * for every z when cap is negative, and otherwise exactly when cap² < |z|².
   */
  predicate ModulusExceeds(z: Cplx, cap: real) {
    cap < 0.0 || cap * cap < SqModulus(z)
  }

  /** Lowering the threshold never turns an escaped value into a bounded one. */
  lemma ExceedsLowerCap(z: Cplx, cap: real, lower: real)
    requires lower <= cap
    requires ModulusExceeds(z, cap)
    ensures ModulusExceeds(z, lower)
  {
    if 0.0 <= lower {
      assert lower * lower <= lower * cap <= cap * cap;
    }
  }

  /** The origin has modulus 0, so it exceeds no non-negative threshold. */
  lemma ZeroNeverExceeds(cap: real)
    requires cap >= 0.0
    ensures !ModulusExceeds(Zero, cap)
  {
  }
}
