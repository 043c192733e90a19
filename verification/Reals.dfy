/** Facts of exact real arithmetic that the accounting proofs use. */
module Reals {

  function Min(x: real, y: real): real {
    if y < x then y else x
  }

  function Max(x: real, y: real): real {
    if y > x then y else x
  }

  lemma FactorSign(x: real, k: real)
    requires k > 0.0 && x * k >= 0.0
    ensures x >= 0.0
  {
    assert x < 0.0 ==> x * k < 0.0;
  }

  lemma QuotientIs(x: real, k: real, q: real)
    requires k != 0.0 && x == q * k
    ensures x / k == q
  {
    assert (x / k) * k == x;
    assert (x / k - q) * k == 0.0;
  }

  lemma DivideMonotone(x: real, y: real, k: real)
    requires k > 0.0 && x <= y
    ensures x / k <= y / k
  {
    var gap := y / k - x / k;
    assert gap * k == y - x;
    FactorSign(gap, k);
  }

  lemma StrictFactorSign(x: real, k: real)
    requires k > 0.0 && x * k > 0.0
    ensures x > 0.0
  {
  }

  /** `r` is the reciprocal of `k`, named so that the products stay polynomial. */
  lemma ReciprocalAbove(x: real, k: real, r: real)
    requires k > 0.0 && r * k == 1.0
    ensures x * k < 1.0 ==> x < r
    ensures x < r ==> x * k < 1.0
    ensures x * k >= 1.0 ==> x >= r
  {
    var gap := r - x;
    assert gap * k == 1.0 - x * k;
    assert gap > 0.0 ==> gap * k > 0.0;
    assert gap <= 0.0 ==> gap * k <= 0.0;
  }

  lemma ProductSign(x: real, y: real)
    requires x >= 0.0 && y >= 0.0
    ensures x * y >= 0.0
  {
  }

  lemma ProductBounds(x: real, xMax: real, y: real, yMax: real)
    requires 0.0 <= x <= xMax && 0.0 <= y <= yMax
    ensures 0.0 <= x * y <= xMax * yMax
  {
    ProductSign(x, y);
    ProductSign(xMax - x, y);
    ProductSign(xMax, yMax - y);
  }

  /** A product under a name, for sums whose terms all carry one factor. */
  function Times(factor: real, x: real): real {
    factor * x
  }

  lemma TimesAdds(factor: real, a: real, b: real)
    ensures Times(factor, a + b) == Times(factor, a) + Times(factor, b)
    ensures Times(factor, 0.0) == 0.0
  {
  }
}
