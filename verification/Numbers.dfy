/** Small things about numbers that several modules use. */
module Numbers {

  function Max(a: real, b: real): real { if a >= b then a else b }
  function Min(a: real, b: real): real { if a <= b then a else b }

  /** A product under a name, so that proofs can treat it as a whole. */
  function Times(a: real, b: real): real { a * b }

  ghost predicate IsSqrt(sqrt: real -> real) {
    forall x :: x >= 0.0 ==> sqrt(x) >= 0.0 && sqrt(x) * sqrt(x) == x
  }

  lemma ScaleInt(a: int, b: int, m: nat)
    requires a <= b
    ensures a * m <= b * m
  {
    assert (b - a) * m >= 0;
  }

  lemma ScaleReal(a: real, b: real, d: real)
    requires a <= b && d >= 0.0
    ensures a * d <= b * d
  {
    assert (b - a) * d >= 0.0;
  }

  lemma ScaleRealStrict(a: real, b: real, d: real)
    requires a < b && d > 0.0
    ensures a * d < b * d
  {
    assert (b - a) * d > 0.0;
  }

  lemma ZeroFactor(a: real, d: real)
    requires a * d == 0.0 && d > 0.0
    ensures a == 0.0
  {
    if a > 0.0 { ScaleRealStrict(0.0, a, d); }
    if a < 0.0 { ScaleRealStrict(a, 0.0, d); }
  }
}
