/** The pure settlement module and the live settlement loops compute the same payouts. */
module Agreement {
  import opened Types
  import opened Arith
  import opened Sums
  import opened Shares
  import opened Fees
  import opened Engine
  import opened SettlementMath

  // ----- the same round, as the pure module sees it -----

  function Positions(es: seq<UpDownStake>): seq<UpDownPosition> {
    seq(|es|, i requires 0 <= i < |es| => UpDownPosition(i, es[i].amount, es[i].side.Up?))
  }

  function Entries(es: seq<PrecisionStake>): seq<PrecisionEntry> {
    seq(|es|, i requires 0 <= i < |es| => PrecisionEntry(i, es[i].price, es[i].amount, es[i].revealed))
  }

  /** `outcome_from_flags` */
  function KindOf(isWinner: bool, isRefund: bool): OutcomeKind {
    if isRefund then Refund else if isWinner then Win else Loss
  }

  /** The same stake, payout and classification for every participant, in the same order. */
  ghost predicate SameUpDown(rows: seq<UpDownPayoutEntry>, outcomes: seq<UserRoundOutcome>) {
    && |rows| == |outcomes|
    && forall i :: 0 <= i < |rows| ==>
         rows[i].index == i && rows[i].stake == outcomes[i].stake && rows[i].payout == outcomes[i].payout
         && KindOf(rows[i].isWinner, rows[i].isRefund) == outcomes[i].kind
  }

  ghost predicate SamePrecision(rows: seq<PrecisionPayoutEntry>, outcomes: seq<UserRoundOutcome>) {
    && |rows| == |outcomes|
    && forall i :: 0 <= i < |rows| ==>
         rows[i].index == i && rows[i].stake == outcomes[i].stake && rows[i].payout == outcomes[i].payout
         && KindOf(rows[i].isWinner, rows[i].isRefund) == outcomes[i].kind
  }

  /** Both succeed with the same rows, or both fail. */
  ghost predicate AgreeUpDown(pure: Result<seq<UpDownPayoutEntry>>, live: Result<Engine.Settlement>) {
    (live.Ok? <==> pure.Ok?) && (live.Ok? ==> SameUpDown(pure.value, live.value.outcomes))
  }

  // ----- Up/Down -----

  /** Under FeeOnPot the pure payout vector of a booked round succeeds exactly when the live
      settlement does, and pays everybody the same. */
  lemma UpDownAgrees(es: seq<UpDownStake>, start: nat, final: nat, poolUp: int, poolDown: int, bps: Option<nat>)
    requires es != [] && UpDownBooked(es, poolUp, poolDown)
    ensures AgreeUpDown(PureUpDown(Positions(es), start, final, poolUp, poolDown, bps),
                        SettleUpDown(es, start, final, poolUp, poolDown, FeeTerms(bps, FeeOnPot)))
  {
    BookedPools(es, poolUp, poolDown);
    if OneSided(poolUp, poolDown) || final == start {
      RefundsAgree(es);
    } else if final > start {
      CompetitionAgrees(es, Up, poolUp, poolDown, bps);
    } else {
      CompetitionAgrees(es, Down, poolDown, poolUp, bps);
    }
  }

  lemma RefundsAgree(es: seq<UpDownStake>)
    ensures SameUpDown(SettlementMath.RefundAll(Positions(es)), UpDownReturns(es, Refund))
  {
  }

  lemma CompetitionAgrees(es: seq<UpDownStake>, side: BetSide, winning: int, losing: int, bps: Option<nat>)
    requires winning != 0
    ensures AgreeUpDown(PureCompetition(Positions(es), side.Up?, winning, losing, bps),
                        SettleCompetition(es, side, winning, losing, FeeTerms(bps, FeeOnPot)))
  {
    var split := UpDownFee(FeeTerms(bps, FeeOnPot), winning, losing);
    if split.Ok? && InI128(split.value.winning + split.value.losing) {
      PayableAgrees(es, side, winning, split.value.winning + split.value.losing);
    }
  }

  lemma PayableAgrees(es: seq<UpDownStake>, side: BetSide, winning: int, d: int)
    ensures UpDownPayable(es, side, winning, d) <==> AllPayable(Positions(es), side.Up?, winning, d)
  {
    var ps := Positions(es);
    if AllPayable(ps, side.Up?, winning, d) {
      forall i | 0 <= i < |es| && es[i].side == side ensures WinnerPayout(es[i].amount, winning, d).Ok? {
        assert ps[i].sideUp == side.Up?;
      }
    }
    if UpDownPayable(es, side, winning, d) {
      forall i | 0 <= i < |ps| && ps[i].sideUp == side.Up? ensures WinnerPayout(ps[i].amount, winning, d).Ok? {
        assert es[i].side == side;
      }
    }
  }

  // ----- Precision -----

  /** Without a band, the pure module's winners are the live scan's winners. */
  lemma {:induction false} SameWinners(es: seq<PrecisionStake>, final: nat, n: nat)
    requires n <= |es|
    ensures ScoreWinnersBelow(Entries(es), final, DEFAULT_SCORING, n) == WinnersBelow(es, final, n)
    ensures forall i :: 0 <= i < n ==> (ScoreWins(Entries(es), i, final, DEFAULT_SCORING) <==> Wins(es, i, final))
  {
    if n > 0 {
      SameWinners(es, final, n - 1);
      SameWin(es, final, n - 1);
    }
  }

  lemma SameWin(es: seq<PrecisionStake>, final: nat, i: nat)
    requires i < |es|
    ensures ScoreWins(Entries(es), i, final, DEFAULT_SCORING) <==> Wins(es, i, final)
  {
    var entries := Entries(es);
    BestIsLeast(entries, final, AbsoluteDistance);
    var best := BestOf(entries, final, AbsoluteDistance);
    if best.Some? {
      var j :| 0 <= j < |entries| && entries[j].revealed && Score(AbsoluteDistance, entries[j].price, final) == best.value;
      assert es[j].revealed;
      forall k | 0 <= k < |es| && es[k].revealed ensures best.value <= Distance(es[k].price, final) {
        assert entries[k].revealed;
      }
    } else {
      assert !entries[i].revealed;
    }
  }

  lemma {:induction false} SaturatingIsSum(amounts: seq<int>)
    requires AllNonNegative(amounts) && Sum(amounts) <= I128_MAX
    ensures SaturatingTotal(amounts) == Sum(amounts)
  {
    if amounts != [] {
      var front := amounts[..|amounts| - 1];
      SumNonNegative(front);
      SaturatingIsSum(front);
    }
  }

  /** Both ways of assigning the remainder to the first winner. */
  lemma SplitAgrees(amounts: seq<int>, pool: int, policy: PayoutPolicy)
    requires amounts != [] && 0 < pool <= I128_MAX && forall i :: 0 <= i < |amounts| ==> amounts[i] > 0
    ensures Split(policy, pool, amounts) == PrecisionPayouts(amounts, pool, policy)
  {
    SumNonNegative(amounts);
    CheckedSumIs(amounts);
    assert amounts[0] > 0;
    if policy.Equal? {
      EqualAgrees(amounts, pool);
    } else if CheckedSum(amounts).Ok? {
      WeightedAgrees(amounts, pool);
    }
  }

  lemma EqualAgrees(amounts: seq<int>, pool: int)
    requires amounts != [] && 0 < pool <= I128_MAX
    ensures PrecisionPayouts(amounts, pool, Equal) == Ok(EqualSplit(pool, |amounts|))
  {
    var n := |amounts|;
    var base := BasePayouts(amounts, pool, Equal).value;
    FloorBounds(pool, n);
    SumConstant(base, Quot(pool, n));
    assert n * (pool / n) == pool - pool % n;
    SumNonNegative(base);
    CheckedSumIs(base);
    assert EqualSplit(pool, n) == base[0 := pool / n + pool % n];
  }

  /** Adding the remainder always, or only when there is one. */
  lemma RemaindersAgree(base: seq<int>, pool: int)
    requires base != [] && CheckedSum(base) == Ok(Sum(base)) && 0 <= pool - Sum(base) <= I128_MAX
    requires InI128(base[0])
    ensures TopUpFirst(base, pool) == WithRemainder(base, pool)
  {
    assert base[0 := base[0] + 0] == base;
  }

  /** The rounded-down shares of a pot add up to no more than the pot. */
  lemma WeightedParts(amounts: seq<int>, pool: int)
    requires amounts != [] && 0 < pool <= I128_MAX && (forall i :: 0 <= i < |amounts| ==> amounts[i] > 0)
    requires Sum(amounts) > 0
    ensures var base := SharesOf(amounts, Sum(amounts), pool);
            && CheckedSum(base) == Ok(Sum(base)) && 0 <= pool - Sum(base) <= pool && InI128(base[0])
  {
    var base := SharesOf(amounts, Sum(amounts), pool);
    SharesOfWhole(amounts, Sum(amounts), pool);
    SumNonNegative(base);
    CheckedSumIs(base);
  }

  lemma WeightedAgrees(amounts: seq<int>, pool: int)
    requires amounts != [] && 0 < pool <= I128_MAX && (forall i :: 0 <= i < |amounts| ==> amounts[i] > 0)
    requires CheckedSum(amounts) == Ok(Sum(amounts)) && Sum(amounts) > 0
    ensures WeightedSplit(pool, amounts) == PrecisionPayouts(amounts, pool, StakeWeighted)
  {
    WeightedParts(amounts, pool);
    RemaindersAgree(SharesOf(amounts, Sum(amounts), pool), pool);
  }

  /** The two fee formulas for a Precision pot. */
  lemma PrecisionFeeAgrees(pot: int, bps: Option<nat>, winnerStakes: int)
    requires 0 < pot <= I128_MAX && ValidFeeBps(bps)
    ensures var live := PrecisionFee(FeeTerms(bps, FeeOnPot), pot, winnerStakes);
            var pure := PurePrecisionFee(pot, bps);
            && (live.Ok? <==> pure.Ok?)
            && (live.Ok? ==> live == pure && 0 < pure.value.distributable <= pot)
  {
    if bps.Some? { TenthBound(pot, bps.value); }
  }

  /** Under FeeOnPot, for both payout policies, the pure Precision payout vector succeeds
      exactly when the live settlement does, and pays everybody the same. */
  lemma PrecisionAgrees(es: seq<PrecisionStake>, final: nat, bps: Option<nat>, policy: PayoutPolicy)
    requires es != [] && PositivePrecision(es) && ValidFeeBps(bps) && Sum(PrecisionAmounts(es)) <= I128_MAX
    ensures var live := SettlePrecision(es, final, FeeTerms(bps, FeeOnPot), policy);
            var pure := PurePrecision(Entries(es), final, bps, DEFAULT_SCORING, policy);
            && (live.Ok? <==> pure.Ok?)
            && (live.Ok? ==> SamePrecision(pure.value, live.value.outcomes))
  {
    var amounts := PrecisionAmounts(es);
    assert EntryAmounts(Entries(es)) == amounts;
    CheckedSumIs(amounts);
    SumNonNegative(amounts);
    assert amounts[0] > 0;
    SaturatingIsSum(amounts);
    SameWinners(es, final, |es|);
    if Winners(es, final) != [] {
      WinnersAgree(es, final, bps, policy);
    }
  }

  lemma WinnersAgree(es: seq<PrecisionStake>, final: nat, bps: Option<nat>, policy: PayoutPolicy)
    requires PositivePrecision(es) && ValidFeeBps(bps) && 0 < Sum(PrecisionAmounts(es)) <= I128_MAX
    requires Winners(es, final) != [] && CheckedSum(PrecisionAmounts(es)) == Ok(Sum(PrecisionAmounts(es)))
    requires SaturatingTotal(EntryAmounts(Entries(es))) == Sum(PrecisionAmounts(es))
    requires ScoreWinners(Entries(es), final, DEFAULT_SCORING) == Winners(es, final)
    ensures var live := SettlePrecision(es, final, FeeTerms(bps, FeeOnPot), policy);
            var pure := PurePrecision(Entries(es), final, bps, DEFAULT_SCORING, policy);
            && (live.Ok? <==> pure.Ok?)
            && (live.Ok? ==> SamePrecision(pure.value, live.value.outcomes))
  {
    var pot := Sum(PrecisionAmounts(es));
    WinnersInRange(es, final);
    var w := Winners(es, final);
    var stakes := AmountsAt(es, w);
    assert WinningIndices(Entries(es), final, DEFAULT_SCORING) == w;
    assert AmountsOf(Entries(es), w) == stakes;
    WinnerStakesBelowPot(es, final);
    CheckedSumIs(stakes);
    PrecisionFeeAgrees(pot, bps, Sum(stakes));
    var fee := PurePrecisionFee(pot, bps);
    if fee.Ok? {
      SplitAgrees(stakes, fee.value.distributable, policy);
      var pays := Split(policy, fee.value.distributable, stakes);
      if pays.Ok? { AwardsAgree(es, final, pays.value); }
    }
  }

  lemma AwardsAgree(es: seq<PrecisionStake>, final: nat, pays: seq<int>)
    ensures var w := WinningIndices(Entries(es), final, DEFAULT_SCORING);
            SamePrecision(seq(|Entries(es)|, i requires 0 <= i < |Entries(es)| => PureAward(Entries(es), w, pays, i)),
                          Prizes(es, final, pays))
  {
    forall i | 0 <= i < |es|
      ensures var at := PlaceOf(WinningIndices(Entries(es), final, DEFAULT_SCORING), i);
              && (at.Some? <==> Wins(es, i, final))
              && (at.Some? ==> at.value == |WinnersBelow(es, final, i)|)
    {
      WinnerPosition(Entries(es), final, DEFAULT_SCORING, i);
      SameWinners(es, final, i);
      SameWin(es, final, i);
    }
  }

  // ----- when the pure module aborts -----

  /** Dividing a pot among at least one winner aborts exactly when the fee has taken everything,
      so that a winner is left without an entry, or when a weighted split looks up the stake of
      an index that is not a position. */
  lemma AbortsWhenFeeTakesAll(entries: seq<PrecisionEntry>, final: nat, bps: Option<nat>, scoring: ScoringPolicy, policy: PayoutPolicy)
    ensures var w := WinningIndices(entries, final, scoring);
            PurePrecision(entries, final, bps, scoring, policy) == Err(Panicked) <==>
              && w != []
              && SaturatingTotal(EntryAmounts(entries)) > 0
              && PurePrecisionFee(SaturatingTotal(EntryAmounts(entries)), bps).Ok?
              && (|| PurePrecisionFee(SaturatingTotal(EntryAmounts(entries)), bps).value.distributable <= 0
                  || (policy.StakeWeighted? && exists j :: 0 <= j < |w| && w[j] >= |entries|))
  {
    var w := WinningIndices(entries, final, scoring);
    var fee := PurePrecisionFee(SaturatingTotal(EntryAmounts(entries)), bps);
    if w != [] && fee.Ok? {
      PureSplitLength(entries, w, policy, fee.value.distributable);
    }
  }

  lemma PureSplitLength(entries: seq<PrecisionEntry>, winners: seq<nat>, policy: PayoutPolicy, pool: int)
    requires winners != []
    ensures var parts := PureSplit(entries, winners, policy, pool);
            && (parts.Ok? ==> |parts.value| == if pool <= 0 then 0 else |winners|)
            && (parts == Err(Panicked) <==> policy.StakeWeighted? && exists j :: 0 <= j < |winners| && winners[j] >= |entries|)
            && (pool <= 0 ==> parts.Ok? || parts == Err(Panicked))
  {
    if policy.StakeWeighted? && forall j :: 0 <= j < |winners| ==> winners[j] < |entries| {
      SplitLength(policy, pool, AmountsOf(entries, winners));
    }
  }

  lemma SplitLength(policy: PayoutPolicy, pool: int, stakes: seq<int>)
    requires stakes != []
    ensures Split(policy, pool, stakes).Ok? ==> |Split(policy, pool, stakes).value| == if pool <= 0 then 0 else |stakes|
    ensures pool <= 0 ==> Split(policy, pool, stakes).Ok?
    ensures Split(policy, pool, stakes).Err? ==> Split(policy, pool, stakes).error == PayoutOverflow
  {
    CheckedSumIs(stakes);
    if CheckedSum(stakes).Ok? && CheckedSum(stakes).value != 0 {
      CheckedSumIs(SharesOf(stakes, CheckedSum(stakes).value, pool));
    }
  }
}
