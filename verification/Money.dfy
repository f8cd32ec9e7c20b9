/** Integer cents, with the rounding JavaScript's `Math.round` applies to quotients. */
module Money {

  function Min(a: int, b: int): int { if a <= b then a else b }

  function Max(a: int, b: int): int { if a >= b then a else b }

  /** `Math.round`: half a cent goes up. */
  function Round(x: real): int { (x + 0.5).Floor }

  /** A rate in basis points of an amount that need not be whole cents. */
  function BasisPoints(amount: real, bps: int): int {
    Round(amount * bps as real / 10000.0)
  }

  function Percent(amount: int, percent: int): int {
    Round((amount * percent) as real / 100.0)
  }

  /** Whole cents within half a cent of an exact amount. */
  ghost predicate NearExact(cents: int, exact: real) { -0.5 < cents as real - exact <= 0.5 }

  lemma RoundIsNearest(x: real)
    ensures NearExact(Round(x), x)
  {
  }

  lemma RoundMonotone(x: real, y: real)
    requires x <= y
    ensures Round(x) <= Round(y)
  {
  }

  lemma ScaleMonotone(x: real, y: real, bps: int)
    requires x <= y && 0 <= bps
    ensures x * bps as real / 10000.0 <= y * bps as real / 10000.0
  {
    assert 0.0 <= (y - x) * bps as real;
  }

  lemma BasisPointsMonotone(x: real, y: real, bps: int)
    requires x <= y && 0 <= bps
    ensures BasisPoints(x, bps) <= BasisPoints(y, bps)
  {
    ScaleMonotone(x, y, bps);
    RoundMonotone(x * bps as real / 10000.0, y * bps as real / 10000.0);
  }

  lemma BasisPointsNonNegative(x: real, bps: int)
    requires 0.0 <= x && 0 <= bps
    ensures 0 <= BasisPoints(x, bps)
  {
    BasisPointsMonotone(0.0, x, bps);
  }
}
