/** Bitcoin amounts with milli-satoshi precision (amount.rs). */
module Amounts {
  import opened Wrappers

  const U64_MAX: int := 0xFFFF_FFFF_FFFF_FFFF
  /** 21 million bitcoin, in milli-satoshis. */
  const MAX_MSATS: int := 2_100_000_000_000_000_000
  const SATS_PER_BTC: int := 1_0000_0000

  type U64 = x: int | 0 <= x <= U64_MAX

  datatype Amount = Amount(msats: U64) {

    function SatsRoundingUp(): (sats: U64)
      requires msats + 999 <= U64_MAX
      ensures (sats - 1) * 1000 < msats <= sats * 1000
    {
      (msats + 999) / 1000
    }

    /** Never exceeds 21 million bitcoin, even when `this` already does. */
    function SaturatingAdd(rhs: Amount): (sum: Amount)
      ensures msats + rhs.msats <= MAX_MSATS ==> sum.msats == msats + rhs.msats
      ensures msats + rhs.msats > MAX_MSATS ==> sum.msats == MAX_MSATS
    {
      if msats + rhs.msats > U64_MAX then Amount(MAX_MSATS)
      else if msats + rhs.msats <= MAX_MSATS then Amount(msats + rhs.msats)
      else Amount(MAX_MSATS)
    }

    function SaturatingSub(rhs: Amount): (diff: Amount)
      ensures diff.msats <= msats
      ensures diff.msats + rhs.msats == msats || (diff.msats == 0 && msats < rhs.msats)
    {
      if msats < rhs.msats then Amount(0) else Amount(msats - rhs.msats)
    }
  }

  function FromSats(sats: U64): Amount
    requires sats * 1000 <= U64_MAX
  {
    Amount(sats * 1000)
  }

  /** `Amount::from_sats` as a release build computes it: the multiplication wraps. */
  function FromSatsWrapping(sats: U64): Amount {
    Amount((sats * 1000) % (U64_MAX + 1))
  }

  /** The guard that `pay` uses: a saturated sum is compared with a balance. */
  predicate CoveredBy(amount: Amount, fee: Amount, balance: Amount) {
    fee.SaturatingAdd(amount).msats <= balance.msats
  }

  /**
   * What that guard really establishes. Below the 21 million bitcoin cap it is the exact comparison;
   * a balance at the cap passes whatever the fee.
   */
  lemma CoveredByMeans(amount: Amount, fee: Amount, balance: Amount)
    ensures CoveredBy(amount, fee, balance) <==>
            amount.msats + fee.msats <= balance.msats || MAX_MSATS <= balance.msats
  {
  }

  /** The wrapping conversion is exact just when the product fits in 64 bits, and else off by multiples of 2^64. */
  lemma FromSatsExact(sats: U64)
    ensures FromSatsWrapping(sats).msats == sats * 1000 <==> sats <= U64_MAX / 1000
    ensures (sats * 1000 - FromSatsWrapping(sats).msats) % 0x1_0000_0000_0000_0000 == 0
  {
  }
}
