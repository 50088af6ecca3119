/** The platform's cut of a payment (payment-svc, platformFee), in 64-bit arithmetic. */
module Fee {
  import opened Basics

  const MIN_FEE_PENCE := 1
  const FEE_RATE_BPS := 100

  function PlatformFee(amount: int): int {
    var raw := TruncDiv(Wrap64(amount * FEE_RATE_BPS), 10000);
    var floored := if raw < MIN_FEE_PENCE then MIN_FEE_PENCE else raw;
    if floored > amount then amount else floored
  }

  /** Wrap-around included, the fee never exceeds the amount and is never free; it leaves the
      merchant something as soon as the amount is at least two pence. */
  lemma FeeBounds(amount: int)
    requires 1 <= amount <= INT64_MAX
    ensures 1 <= PlatformFee(amount) <= amount
    ensures PlatformFee(amount) < amount <==> amount >= 2
  {
    if amount <= INT64_MAX / 100 {
      assert Wrap64(amount * 100) == amount * 100;
    } else {
      assert TruncDiv(Wrap64(amount * 100), 10000) <= INT64_MAX / 10000;
    }
  }

  /** The fee is one percent with a one penny floor exactly when `amount * 100` fits 64 bits. */
  lemma FeeIsOnePercent(amount: int)
    requires 1 <= amount <= INT64_MAX
    ensures PlatformFee(amount) == (if amount < 100 then 1 else amount / 100)
       <==> amount * 100 <= INT64_MAX
  {
    if amount * 100 <= INT64_MAX {
      assert Wrap64(amount * 100) == amount * 100;
      assert amount * 100 / 10000 == amount / 100;
    } else if amount / 100 <= INT64_MAX / 10000 {
      // the smallest overflowing amounts wrap to a negative product, hence to the one penny floor
      assert amount * 100 < TWO_64;
      assert Wrap64(amount * 100) == amount * 100 - TWO_64;
      assert Wrap64(amount * 100) < 0;
    } else {
      assert TruncDiv(Wrap64(amount * 100), 10000) <= INT64_MAX / 10000;
    }
  }
}
