/** The page's only source of randomness, `Math.random()`, as a value the
    caller supplies. */
module Oracle {

  /** A value of `Math.random()`: a real in [0, 1). */
  type Random = u: real | 0.0 <= u < 1.0 witness 0.0

  /** `u * w` stays in [0, w) for a `Math.random()` value u and a positive width. */
  lemma ScaleBelow(u: Random, w: real)
    requires w > 0.0
    ensures 0.0 <= u * w < w
  {
    assert (1.0 - u) * w > 0.0;
  }
}
