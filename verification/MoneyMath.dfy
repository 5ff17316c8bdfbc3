/** Integer minor units with checked arithmetic, as `Money` in the domain crate. */
module MoneyMath {
  import opened Results

  const I64_MAX: int := 0x7FFF_FFFF_FFFF_FFFF
  const I64_MIN: int := -0x8000_0000_0000_0000
  const FULL_BASIS_POINTS: int := 10_000

  type i64 = x: int | I64_MIN <= x <= I64_MAX

  type Currency = nat

  datatype Money = Money(minor: i64, currency: Currency) {

    function CheckedAdd(other: Money): Result<Money> {
      if currency != other.currency || !Fits(minor + other.minor) then Err(MoneyError)
      else Ok(Money(minor + other.minor, currency))
    }

    function CheckedSub(other: Money): Result<Money> {
      if currency != other.currency || !Fits(minor - other.minor) then Err(MoneyError)
      else Ok(Money(minor - other.minor, currency))
    }

    /** The share `basisPoints / 10000`, truncated toward zero; the intermediate product is 128 bits wide. */
    function ScaledBasisPoints(basisPoints: nat): Result<Money> {
      if basisPoints > FULL_BASIS_POINTS then Err(MoneyError)
      else
        var scaled := TruncatedShare(minor, basisPoints);
        if Fits(scaled) then Ok(Money(scaled, currency)) else Err(MoneyError)
    }
  }

  predicate Fits(x: int) {
    I64_MIN <= x <= I64_MAX
  }

  function TruncatedShare(minor: int, basisPoints: nat): int {
    if 0 <= minor then minor * basisPoints / FULL_BASIS_POINTS
    else -(-minor * basisPoints / FULL_BASIS_POINTS)
  }

  /** A share of a positive amount is never negative, never above the exact share, and always fits. */
  lemma ShareBounds(minor: nat, basisPoints: nat)
    requires basisPoints <= FULL_BASIS_POINTS
    ensures 0 <= TruncatedShare(minor, basisPoints) <= minor
    ensures FULL_BASIS_POINTS * TruncatedShare(minor, basisPoints) <= basisPoints * minor
  {
    var product := minor * basisPoints;
    assert 0 <= product <= minor * FULL_BASIS_POINTS;
    assert FULL_BASIS_POINTS * (product / FULL_BASIS_POINTS) <= product;
  }

  /** Splitting one amount in two never yields a larger share than the amount taken whole. */
  lemma SplitNeverGainsShare(left: nat, right: nat, basisPoints: nat)
    ensures TruncatedShare(left, basisPoints) + TruncatedShare(right, basisPoints)
         <= TruncatedShare(left + right, basisPoints)
  {
    var l, r := left * basisPoints, right * basisPoints;
    assert (left + right) * basisPoints == l + r;
    assert l / FULL_BASIS_POINTS + r / FULL_BASIS_POINTS <= (l + r) / FULL_BASIS_POINTS;
  }
}
