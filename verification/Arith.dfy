/**
  Powers of two and the facts about multiplication and division that the other
  modules share.
 */
module Arith {

  function Pow2(n: nat): (p: nat)
    ensures p > 0
  {
    if n == 0 then 1 else 2 * Pow2(n - 1)
  }

  lemma Pow2Values()
    ensures Pow2(24) == 0x100_0000 && Pow2(32) == 0x1_0000_0000
  {
    assert Pow2(8) == 256;
    assert Pow2(16) == 65536;
    assert Pow2(24) == 0x100_0000;
  }

  lemma Widen(a: int, b: int, k: nat)
    requires a <= b
    ensures a * k <= b * k
  {
  }

  /** Division is the only quotient with a small enough remainder. */
  lemma QuotientIs(a: nat, k: nat, q: nat, r: nat)
    requires k > 0 && a == q * k + r && r < k
    ensures a / k == q
  {
    var q', r' := a / k, a % k;
    assert a == q' * k + r';
    if q' < q {
      Widen(q' + 1, q, k);
    } else if q < q' {
      Widen(q + 1, q', k);
    }
  }

  lemma QuotRem(a: nat, b: nat)
    requires b > 0
    ensures a / b >= 0 && 0 <= a % b < b && a == a / b * b + a % b
  {
  }
}
