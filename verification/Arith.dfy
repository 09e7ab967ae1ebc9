/** Facts about integer division that the solver does not find by itself. */
module Arith {

  lemma NoSmallMultiple(k: int, b: int)
    requires b > 0 && -b < k * b < b
    ensures k == 0
  {
  }

  /** Quotient and remainder are determined by the division equation. */
  lemma DivUnique(a: int, b: int, q: int, r: int)
    requires b > 0 && a == q * b + r && 0 <= r < b
    ensures a / b == q && a % b == r
  {
    var q', r' := a / b, a % b;
    assert a == q' * b + r';
    assert (q - q') * b == r' - r;
    NoSmallMultiple(q - q', b);
  }

  lemma DivBounds(a: int, b: int)
    requires b > 0
    ensures a / b * b <= a < a / b * b + b
  {
  }

  lemma MulMono(k: int, a: int, b: int)
    requires k >= 0 && a <= b
    ensures k * a <= k * b
  {
  }

  /** The kernel macro roundup. */
  function RoundUp(x: int, y: nat): int
    requires y > 0
  {
    (x + y - 1) / y * y
  }

  lemma RoundUpBounds(x: int, y: nat)
    requires y > 0
    ensures x <= RoundUp(x, y) < x + y
    ensures RoundUp(x, y) % y == 0
  {
    DivBounds(x + y - 1, y);
    DivUnique(RoundUp(x, y), y, (x + y - 1) / y, 0);
  }

  lemma PositiveMultiple(x: int, y: nat)
    requires y > 0 && x > 0 && x % y == 0
    ensures x >= y
  {
    if x < y { DivUnique(x, y, 0, x); }
  }
}
