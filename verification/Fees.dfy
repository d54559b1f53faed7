/** Protocol fees (contracts/src/config.rs, contracts/src/settlement_math.rs). */
module Fees {
  import opened Types
  import opened Arith

  const MAX_PROTOCOL_FEE_BPS: int := 1_000

  datatype FeeTerms = FeeTerms(bps: Option<nat>, model: FeeModel)

  /** `_validate_protocol_fee_bps` */
  predicate ValidFeeBps(bps: Option<nat>) {
    bps.Some? ==> 1 <= bps.value <= MAX_PROTOCOL_FEE_BPS
  }

  /** The two pools after the fee, and the fee. */
  datatype PoolSplit = PoolSplit(winning: int, losing: int, fee: int)

  function TakeFromPools(winning: int, losing: int, fee: int): Result<PoolSplit> {
    var fromLosing := Min(fee, losing);
    var fromWinning :- Checked(fee - fromLosing, Overflow);
    var distWinning :- Checked(winning - fromWinning, Overflow);
    var distLosing :- Checked(losing - fromLosing, Overflow);
    Ok(PoolSplit(distWinning, distLosing, fee))
  }

  /** `calculate_protocol_fee_updown` */
  function UpDownFee(terms: FeeTerms, winning: int, losing: int): Result<PoolSplit> {
    if terms.bps.None? then Ok(PoolSplit(winning, losing, 0))
    else
      match terms.model
      case FeeOnPot =>
        var pot :- Checked(winning + losing, PayoutOverflow);
        var scaled :- Checked(pot * terms.bps.value, Overflow);
        var fee := Quot(scaled, BPS_DENOMINATOR);
        if fee == 0 then Ok(PoolSplit(winning, losing, 0)) else TakeFromPools(winning, losing, fee)
      case FeeOnWinnings =>
        var scaled :- Checked(losing * terms.bps.value, Overflow);
        var fee := Quot(scaled, BPS_DENOMINATOR);
        if fee == 0 then Ok(PoolSplit(winning, losing, 0))
        else
          var distLosing :- Checked(losing - fee, Overflow);
          Ok(PoolSplit(winning, distLosing, fee))
  }

  datatype PotSplit = PotSplit(distributable: int, fee: int)

  /** `calculate_protocol_fee_precision` */
  function PrecisionFee(terms: FeeTerms, pot: int, winnerStakes: int): Result<PotSplit> {
    if terms.bps.None? || pot <= 0 then Ok(PotSplit(pot, 0))
    else
      var base :- if terms.model.FeeOnPot? then Ok(pot) else Checked(pot - winnerStakes, Overflow);
      if terms.model.FeeOnWinnings? && base <= 0 then Ok(PotSplit(pot, 0))
      else
        var scaled :- Checked(base * terms.bps.value, Overflow);
        var fee := Quot(scaled, BPS_DENOMINATOR);
        if fee == 0 then Ok(PotSplit(pot, 0))
        else
          var distributable :- Checked(pot - fee, Overflow);
          Ok(PotSplit(distributable, fee))
  }

  /** Whatever the fee model, and even when the fee is larger than the losing pool, the
      post-fee pools and the fee add up to the original pools and none is negative.
      FeeOnWinnings never touches the winning pool; FeeOnPot leaves 9/10 of the pot. */
  lemma UpDownFeeConserves(terms: FeeTerms, winning: int, losing: int)
    requires ValidFeeBps(terms.bps) && winning >= 0 && losing >= 0
    requires UpDownFee(terms, winning, losing).Ok?
    ensures var s := UpDownFee(terms, winning, losing).value;
            && s.winning + s.losing + s.fee == winning + losing
            && s.winning >= 0 && s.losing >= 0 && s.fee >= 0
            && (terms.model.FeeOnWinnings? ==> s.winning == winning)
            && 10 * (s.winning + s.losing) >= 9 * (winning + losing)
  {
    if terms.bps.Some? {
      var base := if terms.model.FeeOnPot? then winning + losing else losing;
      TenthBound(base, terms.bps.value);
    }
  }

  lemma TenthBound(base: int, bps: int)
    requires base >= 0 && 0 <= bps <= MAX_PROTOCOL_FEE_BPS
    ensures 0 <= 10 * Bps(base, bps) <= base
  {
    MulBound(base, bps, base, MAX_PROTOCOL_FEE_BPS);
    FloorBounds(base * bps, BPS_DENOMINATOR);
  }

  lemma PrecisionFeeConserves(terms: FeeTerms, pot: int, winnerStakes: int)
    requires ValidFeeBps(terms.bps) && 0 <= winnerStakes <= pot
    requires PrecisionFee(terms, pot, winnerStakes).Ok?
    ensures var s := PrecisionFee(terms, pot, winnerStakes).value;
            && s.distributable + s.fee == pot
            && s.fee >= 0
            && 10 * s.distributable >= 9 * pot
            && (terms.model.FeeOnWinnings? ==> s.distributable >= winnerStakes)
  {
    if terms.bps.Some? && pot > 0 {
      TenthBound(if terms.model.FeeOnPot? then pot else pot - winnerStakes, terms.bps.value);
    }
  }

  /** Pots below 2^63 cannot overflow the fee arithmetic. */
  lemma FeesFit(terms: FeeTerms, a: int, b: int)
    requires ValidFeeBps(terms.bps) && a >= 0 && b >= 0 && a + b < 0x8000_0000_0000_0000
    ensures UpDownFee(terms, a, b).Ok?
    ensures PrecisionFee(terms, a + b, a).Ok?
  {
    if terms.bps.Some? {
      MulBound(a + b, terms.bps.value, a + b, MAX_PROTOCOL_FEE_BPS);
      MulBound(b, terms.bps.value, b, MAX_PROTOCOL_FEE_BPS);
      TenthBound(a + b, terms.bps.value);
      TenthBound(b, terms.bps.value);
    }
  }
}
