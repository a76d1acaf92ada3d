/** The platform fee policy: 2.5% of every paid amount, rounded down. */
module Fees {

  const FeeRateNumerator: nat := 25
  const FeeRateDenominator: nat := 1000

  /** The fee skimmed from a payment of `cost`, i.e. one fortieth of it
      rounded down to a whole micro-STX. */
  function Fee(cost: nat): (fee: nat)
    ensures fee * 40 <= cost < fee * 40 + 40
    ensures cost % 40 == 0 ==> fee * 40 == cost
    ensures fee <= cost
  {
    var fee := cost * FeeRateNumerator / FeeRateDenominator;
    assert cost * 25 == (cost / 40) * 1000 + (cost % 40) * 25;
    assert fee == cost / 40;
    fee
  }

  /** A larger payment never pays a smaller fee. */
  lemma {:induction false} FeeMonotone(a: nat, b: nat)
    requires a <= b
    ensures Fee(a) <= Fee(b)
  {
    assert Fee(a) * 40 <= a <= b < Fee(b) * 40 + 40;
  }

  /** When the cost is a multiple of 40 the fee is exact, so cost plus fee
      is precisely 102.5% of the cost. */
  lemma ExactFee(cost: nat)
    requires cost % 40 == 0
    ensures (cost + Fee(cost)) * 40 == cost * 41
  {
  }
}
