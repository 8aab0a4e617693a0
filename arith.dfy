/** Arithmetic facts the proofs about amounts of money rely on. */
module Arith {

  /** Multiplying by a non-negative factor keeps an inequality. */
  lemma MulLe(x: int, y: int, k: int)
    requires x <= y && k >= 0
    ensures x * k <= y * k
  {
    assert y * k - x * k == (y - x) * k;
  }
}
