/** Integer division and remainder. */
module Arith {
  lemma Multiples(d: int, b: nat)
    ensures d >= 1 ==> d * b >= b
    ensures d <= -1 ==> d * b + b <= 0
  {
    if d >= 1 {
      assert d * b == (d - 1) * b + b;
    } else if d <= -1 {
      assert d * b == (d + 1) * b - b;
    }
  }

  /** Quotient and remainder are unique. */
  lemma DivUnique(x: int, b: nat, q: int, r: nat)
    requires b >= 1 && r < b && x == q * b + r
    ensures x / b == q && x % b == r
  {
    var q', r' := x / b, x % b;
    assert x == b * q' + r';
    assert (q - q') * b == r' - r;
    Multiples(q - q', b);
  }
}
