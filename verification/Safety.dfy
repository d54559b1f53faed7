/** Arithmetic safety: while fewer than 2^63 units have been minted, ending a round or paying
    a claim cannot overflow, so only the cap on pending winnings can stand in the way. */
module Safety {
  import opened Types
  import opened Arith
  import opened Sums
  import opened Engine
  import opened Ledger
  import opened Books
  import opened Invariants
  import opened Steps

  /** Nothing fails except the cap on pending winnings, and only if one is configured. */
  predicate OnlyCap<T>(s: State, r: Result<T>) {
    r.Err? ==> s.cfg.maxPending.Some? && r.error == PendingWinningsCapExceeded
  }

  lemma PayOutOnlyCap(s: State, id: nat, outcomes: seq<UserRoundOutcome>)
    requires PurseOk(s.purse) && Payable(outcomes)
    requires SumMap(s.purse.amounts) + Paid(outcomes) <= I128_MAX
    ensures OnlyCap(s, PayOut(s, id, outcomes))
  {
    CreditsPay(outcomes);
    OnlyTheCapFails(s.purse, s.cfg.maxPending, s.now, Credits(outcomes));
  }

  lemma SettleRoundFits(s: State, rd: Round, users: seq<Address>, price: nat)
    requires Inv(s) && s.minted < MAX_POT && IsLive(s, rd) && Members(s.book, rd.id, users)
    ensures SettleRound(s.book, rd, users, price, s.cfg).Ok?
    ensures 0 <= SumMap(s.purse.amounts) && s.treasury >= 0 && s.fund >= 0
    ensures Pot(s.book, rd, users) + s.treasury + s.fund + SumMap(s.purse.amounts) <= s.minted
  {
    PotIsRecorded(s.book, s.startLedgers, s.lastRoundId, rd, users);
    PartsBelowMinted(s);
    if rd.mode.UpDown? {
      UpDownFits(UpDownEntries(s.book, rd.id, users), rd.priceStart, price, rd.poolUp, rd.poolDown, Terms(s.cfg));
    } else {
      PrecisionFits(PrecisionEntries(s.book, rd.id, users), price, Terms(s.cfg), s.cfg.policy);
    }
  }

  lemma SettlementParts(s: State, rd: Round, users: seq<Address>, price: nat)
    requires Inv(s) && s.minted < MAX_POT && IsLive(s, rd) && Members(s.book, rd.id, users)
    ensures var st := SettleRound(s.book, rd, users, price, s.cfg);
            && st.Ok? && CollectFee(s, st.value.fee).Ok?
            && OnlyCap(s, PayOut(CollectFee(s, st.value.fee).value, rd.id, st.value.outcomes))
  {
    SettleRoundFits(s, rd, users, price);
    var st := SettleRound(s.book, rd, users, price, s.cfg).value;
    SettlementSums(s.book, s.startLedgers, s.lastRoundId, rd, users, price, s.cfg);
    PaidNonNegative(st.outcomes);
    FeeFits(s, st.fee);
    FeeCollected(s, st.fee);
    PayOutOnlyCap(CollectFee(s, st.fee).value, rd.id, st.outcomes);
  }

  /** Settling any live round of a reachable state at any price fails only through the cap. */
  lemma SettlementSafe(s: State, rd: Round, price: nat)
    requires Inv(s) && s.minted < MAX_POT && IsLive(s, rd)
    ensures SettleRound(s.book, rd, Sort(ParticipantsOf(s, rd.id)), price, s.cfg).Ok?
    ensures OnlyCap(s, CompleteSettlement(s, rd, price))
  {
    ParticipantsAre(s, rd.id);
    MembersSorted(s.book, rd.id, ParticipantsOf(s, rd.id));
    SettlementParts(s, rd, Sort(ParticipantsOf(s, rd.id)), price);
  }

  lemma PaidNonNegative(outcomes: seq<UserRoundOutcome>)
    requires Payable(outcomes)
    ensures Paid(outcomes) >= 0
  {
    SumNonNegative(Payouts(outcomes));
  }

  /** So does returning all its stakes. */
  lemma RefundSafe(s: State, rd: Round, kind: OutcomeKind, showPrice: bool, status: ArchiveStatus)
    requires Inv(s) && s.minted <= I128_MAX && IsLive(s, rd) && !kind.Loss?
    ensures OnlyCap(s, RefundRound(s, rd, kind, showPrice, status))
    ensures CheckedSum(StakesOf(Returns(s.book, rd, ParticipantsOf(s, rd.id), kind, showPrice))).Ok?
  {
    var outcomes := Returns(s.book, rd, ParticipantsOf(s, rd.id), kind, showPrice);
    ReturnsFitInside(s, rd, kind, showPrice);
    PayOutOnlyCap(s, rd.id, outcomes);
    CheckedSumIs(StakesOf(outcomes));
  }

  /** What a refund hands out is what was staked, and no more than was minted. */
  lemma ReturnsFitInside(s: State, rd: Round, kind: OutcomeKind, showPrice: bool)
    requires Inv(s) && IsLive(s, rd) && !kind.Loss?
    ensures var outcomes := Returns(s.book, rd, ParticipantsOf(s, rd.id), kind, showPrice);
            && Payable(outcomes) && AllNonNegative(StakesOf(outcomes))
            && 0 <= SumMap(s.purse.amounts) && SumMap(s.purse.amounts) + Paid(outcomes) <= s.minted
            && Sum(StakesOf(outcomes)) == Paid(outcomes)
  {
    var users := ParticipantsOf(s, rd.id);
    ParticipantsAre(s, rd.id);
    ReturnsAligned(s.book, s.startLedgers, s.lastRoundId, rd, users, kind, showPrice);
    PotIsRecorded(s.book, s.startLedgers, s.lastRoundId, rd, users);
    PartsBelowMinted(s);
    AlignedStakes(s.book, rd.id, users, kind, Returns(s.book, rd, users, kind, showPrice));
  }

  lemma AlignedStakes(b: Book, round: nat, users: seq<Address>, kind: OutcomeKind, outcomes: seq<UserRoundOutcome>)
    requires AlignedReturns(b, round, users, kind, outcomes) && !kind.Loss?
    ensures Payable(outcomes) && AllNonNegative(StakesOf(outcomes)) && StakesOf(outcomes) == Payouts(outcomes)
  {
  }

  lemma VoidSafe(s: State, id: nat)
    requires Inv(s) && s.minted <= I128_MAX && !s.cfg.mode.FullyPaused? && id in s.disputes
    ensures s.now < s.disputes[id].deadline ==> OnlyCap(s, VoidRound(s, id))
    ensures s.now >= s.disputes[id].deadline ==> VoidRound(s, id) == Err(RoundNotCancellable)
  {
    var rd := s.disputes[id].round;
    assert rd.(id := id) == rd;
    RefundSafe(s, rd, Void, true, Voided);
  }

  /** While a dispute is pending, the deadline decides: at every ledger exactly one of void
      and finalize goes through, as long as no cap on pending winnings is configured. */
  lemma ExactlyOneOfVoidAndFinalize(s: State, id: nat)
    requires Inv(s) && s.minted < MAX_POT && !s.cfg.mode.FullyPaused? && id in s.disputes
    ensures s.cfg.maxPending.None? ==>
              && (VoidRound(s, id).Ok? <==> s.now < s.disputes[id].deadline)
              && (FinalizeRound(s, id).Ok? <==> s.now >= s.disputes[id].deadline)
    ensures !(VoidRound(s, id).Ok? && FinalizeRound(s, id).Ok?)
    ensures s.now >= s.disputes[id].deadline ==> OnlyCap(s, FinalizeRound(s, id))
  {
    VoidSafe(s, id);
    SettlementSafe(s, s.disputes[id].round, s.disputes[id].price);
  }

  // ----- cancelling -----

  lemma {:induction false} CoverageTotalFits(stakes: seq<int>, bps: nat)
    requires (forall i :: 0 <= i < |stakes| ==> stakes[i] > 0) && bps <= BPS_DENOMINATOR && Sum(stakes) < MAX_POT
    ensures CoverageTotal(stakes, bps).Ok?
  {
    if stakes != [] {
      var n := |stakes| - 1;
      SumPrefix(stakes, n);
      SumNonNegative(stakes);
      CoverageTotalFits(stakes[..n], bps);
      CoverageTotalBound(stakes[..n], bps);
      MulBound(stakes[n], bps, MAX_POT, BPS_DENOMINATOR);
      BpsBounds(stakes[n], bps);
    }
  }

  lemma {:induction false} CoverageCreditsFit(users: seq<Address>, stakes: seq<int>, total: int, spent: int)
    requires |users| <= |stakes| && total != 0 && 0 <= spent < MAX_POT
    requires forall i :: 0 <= i < |stakes| ==> 0 < stakes[i] < MAX_POT
    ensures CoverageCredits(users, stakes, total, spent).Ok?
  {
    if users != [] {
      CoverageCreditsFit(users[..|users| - 1], stakes, total, spent);
      ProductFits(spent, stakes[|users| - 1]);
    }
  }

  lemma CoverFits(s: State, users: seq<Address>, stakes: seq<int>, reason: nat)
    requires ValidConfig(s.cfg) && |users| == |stakes| && Sum(stakes) < MAX_POT
    requires forall i :: 0 <= i < |stakes| ==> stakes[i] > 0
    ensures CancelCover(s, users, stakes, reason).Ok?
  {
    SumNonNegative(stakes);
    var bps := s.cfg.insuranceCoverageBps;
    CoverageTotalFits(stakes, bps);
    CoverageTotalBound(stakes, bps);
    StakeTotalIs(stakes);
    var wanted := CoverageTotal(stakes, bps).value;
    var spent := if wanted <= 0 || s.fund <= 0 then 0 else Min(wanted, s.fund);
    if spent > 0 && Sum(stakes) > 0 {
      CoverageCreditsFit(users, stakes, Sum(stakes), spent);
    }
  }

  /** Cancelling a round, insured or not, fails only through the cap. */
  lemma CancelSafe(s: State, reason: nat)
    requires Inv(s) && s.minted < MAX_POT && s.active.Some?
    ensures OnlyCap(s, CancelRound(s, reason))
  {
    var rd := s.active.value;
    var users := ParticipantsOf(s, rd.id);
    ParticipantsAre(s, rd.id);
    var outcomes := Returns(s.book, rd, users, Void, false);
    ReturnsAligned(s.book, s.startLedgers, s.lastRoundId, rd, users, Void, false);
    PotIsRecorded(s.book, s.startLedgers, s.lastRoundId, rd, users);
    PartsBelowMinted(s);
    PayOutOnlyCap(s, rd.id, outcomes);
    var stakes := StakesOf(outcomes);
    assert stakes == Payouts(outcomes);
    CoverFits(s, users, stakes, reason);
    if PayOut(s, rd.id, outcomes).Ok? {
      CoverIsFair(s, rd.id, users, outcomes, reason);
      PayOutAdds(s, rd.id, outcomes);
      var cover := CancelCover(s, users, stakes, reason).value;
      OnlyTheCapFails(PayOut(s, rd.id, outcomes).value.purse, s.cfg.maxPending, s.now, cover.credits);
    }
  }

  /** Claims and reclaims never overflow: a balance and a pending amount fit together. */
  lemma ClaimSafe(s: State, user: Address)
    requires Inv(s) && s.minted <= I128_MAX
    ensures ClaimOne(s, user).Ok?
    ensures ReclaimExpired(s, user).Err? ==> ReclaimExpired(s, user).error != PayoutOverflow
  {
    PartsBelowMinted(s);
    assert BalanceOf(s, user) <= SumMap(s.balances);
    assert BalanceOf(s, s.cfg.admin) <= SumMap(s.balances);
    assert PendingOf(s.purse, user) <= SumMap(s.purse.amounts);
  }

  // ----- taking stakes -----

  /** No arithmetic fails. */
  predicate NeverOverflows<T>(r: Result<T>) {
    r.Err? ==> r.error != Overflow && r.error != PayoutOverflow
  }

  /** With an exposure cap, the stakes of the user in the round and the new one are added
      before the balance is looked at, and the sum may leave the integer type. */
  predicate ExposureOverflows(s: State, user: Address, amount: int) {
    && s.active.Some? && s.cfg.maxExposure.Some?
    && Exposure(s.book, Key(s.active.value.id, user)) + amount > I128_MAX
  }

  lemma StakeFits(s: State, k: Key)
    requires Inv(s)
    ensures 0 <= StakeAt(s.book, k) <= s.minted
  {
    PartsBelowMinted(s);
    forall j | j in Recorded(s.book) ensures Recorded(s.book)[j] >= 0 { }
    SumMapNonNegative(Recorded(s.book));
    if InBook(s.book, k) { assert StakeAt(s.book, k) == Recorded(s.book)[k]; }
  }

  lemma ExposureFits(s: State, k: Key)
    requires Inv(s) && s.minted < MAX_POT
    ensures 0 <= Exposure(s.book, k) <= 2 * s.minted
  {
    StakeFits(s, k);
  }

  lemma PoolsFit(s: State, rd: Round)
    requires Inv(s) && IsLive(s, rd) && rd.mode.UpDown?
    ensures 0 <= rd.poolUp && 0 <= rd.poolDown
    ensures rd.poolUp + rd.poolDown + SumMap(s.balances) + SumMap(s.purse.amounts) + s.treasury + s.fund <= s.minted
    ensures 0 <= SumMap(s.balances) && 0 <= SumMap(s.purse.amounts)
  {
    var users := ParticipantsOf(s, rd.id);
    ParticipantsAre(s, rd.id);
    PotIsRecorded(s.book, s.startLedgers, s.lastRoundId, rd, users);
    BookedPools(UpDownEntries(s.book, rd.id, users), rd.poolUp, rd.poolDown);
    PartsBelowMinted(s);
  }

  lemma OpenRoundOverflows(s: State, user: Address, amount: int, mode: RoundMode)
    requires Inv(s) && s.minted < MAX_POT && amount > 0
    ensures OpenRound(s, user, amount, mode) == Err(Overflow) <==> ExposureOverflows(s, user, amount)
    ensures OpenRound(s, user, amount, mode) != Err(PayoutOverflow)
    ensures amount <= BalanceOf(s, user) ==> !ExposureOverflows(s, user, amount)
  {
    PartsBelowMinted(s);
    assert BalanceOf(s, user) <= SumMap(s.balances);
    if s.active.Some? { ExposureFits(s, Key(s.active.value.id, user)); }
  }

  /** A bet overflows only in the exposure check, with a stake above what the user has: adding
      it to the pool is safe once the balance covers it. */
  lemma BetSafe(s: State, user: Address, amount: int, side: BetSide)
    requires Inv(s) && s.minted < MAX_POT
    ensures PlaceBet(s, user, amount, side) == Err(Overflow)
       <==> s.cfg.mode.Normal? && StakeRules(s.cfg, amount).Pass? && ExposureOverflows(s, user, amount)
    ensures PlaceBet(s, user, amount, side) != Err(PayoutOverflow)
    ensures s.cfg.maxExposure.None? || amount <= BalanceOf(s, user) ==> NeverOverflows(PlaceBet(s, user, amount, side))
  {
    if s.cfg.mode.Normal? && StakeRules(s.cfg, amount).Pass? {
      OpenRoundOverflows(s, user, amount, UpDown);
      if OpenRound(s, user, amount, UpDown).Ok? {
        if amount <= BalanceOf(s, user) { PoolTakes(s, user, amount); }
        BetIsTaken(s, user, amount, side);
      }
    }
  }

  lemma BetIsTaken(s: State, user: Address, amount: int, side: BetSide)
    requires OpenRound(s, user, amount, UpDown).Ok?
    requires amount <= BalanceOf(s, user) ==> InI128(s.active.value.poolUp + amount) && InI128(s.active.value.poolDown + amount)
    ensures NeverOverflows(PlaceBet(s, user, amount, side))
  {
  }

  lemma PoolTakes(s: State, user: Address, amount: int)
    requires Inv(s) && s.minted < MAX_POT && s.active.Some? && s.active.value.mode.UpDown? && 0 < amount <= BalanceOf(s, user)
    ensures InI128(s.active.value.poolUp + amount) && InI128(s.active.value.poolDown + amount)
  {
    PoolsFit(s, s.active.value);
    PartsBelowMinted(s);
    assert BalanceOf(s, user) <= SumMap(s.balances);
  }

  lemma PredictSafe(s: State, user: Address, amount: int, price: nat)
    requires Inv(s) && s.minted < MAX_POT
    ensures PlacePrediction(s, user, amount, price) == Err(Overflow)
       <==> s.cfg.mode.Normal? && StakeRules(s.cfg, amount).Pass? && price <= 99_999_999 && ExposureOverflows(s, user, amount)
    ensures PlacePrediction(s, user, amount, price) != Err(PayoutOverflow)
    ensures s.cfg.maxExposure.None? || amount <= BalanceOf(s, user) ==> NeverOverflows(PlacePrediction(s, user, amount, price))
  {
    if s.cfg.mode.Normal? && StakeRules(s.cfg, amount).Pass? { OpenRoundOverflows(s, user, amount, Precision); }
  }

  lemma CommitSafe(s: State, user: Address, hash: Digest, amount: int)
    requires Inv(s) && s.minted < MAX_POT
    ensures CommitPrediction(s, user, hash, amount) == Err(Overflow)
       <==> s.cfg.mode.Normal? && !hash.ZeroDigest? && StakeRules(s.cfg, amount).Pass? && ExposureOverflows(s, user, amount)
    ensures CommitPrediction(s, user, hash, amount) != Err(PayoutOverflow)
    ensures s.cfg.maxExposure.None? || amount <= BalanceOf(s, user) ==> NeverOverflows(CommitPrediction(s, user, hash, amount))
  {
    if s.cfg.mode.Normal? && StakeRules(s.cfg, amount).Pass? { OpenRoundOverflows(s, user, amount, Precision); }
  }

  // ----- moving money out -----

  lemma CashOutMoves(s: State, user: Address, cashout: int, forfeit: int)
    requires CollectFee(s, forfeit).Ok? && I128_MIN <= PendingOf(s.purse, user) + cashout <= I128_MAX
    ensures NeverOverflows(MoveCashOut(s, user, cashout, forfeit))
  {
  }

  /** Neither the penalty, nor the pool, nor pending winnings, nor the fee accounts overflow in
      an early cash-out. */
  lemma CashOutSafe(s: State, user: Address)
    requires Inv(s) && s.minted < MAX_POT
    ensures NeverOverflows(CashOutEarly(s, user))
  {
    if CashOutOpen(s, user) {
      PositionFits(s, s.active.value, user);
      CashOutFits(s, s.active.value, user, s.book.positions[Key(s.active.value.id, user)]);
    } else {
      CashOutRefused(s, user);
    }
  }

  /** There is something to cash out, and a rate for it. */
  predicate CashOutOpen(s: State, user: Address) {
    s.cfg.cashoutBps.Some? && s.active.Some? && s.active.value.mode.UpDown? && Key(s.active.value.id, user) in s.book.positions
  }

  lemma CashOutRefused(s: State, user: Address)
    requires !CashOutOpen(s, user)
    ensures NeverOverflows(CashOutEarly(s, user))
  {
  }

  ghost predicate HoldsBack(s: State, rd: Round, user: Address, amount: int) {
    && 0 < amount < MAX_POT && 0 <= rd.poolUp < MAX_POT && 0 <= rd.poolDown < MAX_POT
    && 0 <= PendingOf(s.purse, user) && PendingOf(s.purse, user) + amount <= s.minted
    && s.treasury >= 0 && s.fund >= 0 && s.treasury + s.fund + amount <= s.minted
  }

  lemma CashOutFits(s: State, rd: Round, user: Address, p: UserPosition)
    requires ValidConfig(s.cfg) && s.cfg.cashoutBps.Some? && s.minted < MAX_POT
    requires s.active == Some(rd) && Key(rd.id, user) in s.book.positions && p == s.book.positions[Key(rd.id, user)]
    requires HoldsBack(s, rd, user, p.amount)
    ensures NeverOverflows(CashOutEarly(s, user))
  {
    var bps := s.cfg.cashoutBps.value;
    PenaltyFits(p.amount, bps);
    var cashout, forfeit := p.amount - Bps(p.amount, bps), Bps(p.amount, bps);
    FeeFits(s, forfeit);
    CashOutMoves(s, user, cashout, forfeit);
    var pool := (if p.side.Up? then rd.poolUp else rd.poolDown) - p.amount;
    ExitSafe(s, rd, user, p, cashout, forfeit, pool);
    CashOutReaches(s, rd, user, p, bps, forfeit, pool);
  }

  lemma PenaltyFits(amount: int, bps: nat)
    requires 0 < amount < MAX_POT && bps <= BPS_DENOMINATOR
    ensures InI128(amount * bps) && 0 <= Bps(amount, bps) <= amount && InI128(amount - Bps(amount, bps))
  {
    MulBound(amount, bps, MAX_POT, BPS_DENOMINATOR);
    BpsBounds(amount, bps);
  }

  /** With its sums in range, a cash-out that passes its guards is the exit of the round. */
  lemma CashOutReaches(s: State, rd: Round, user: Address, p: UserPosition, bps: nat, forfeit: int, pool: int)
    requires s.active == Some(rd) && Key(rd.id, user) in s.book.positions && p == s.book.positions[Key(rd.id, user)]
    requires s.cfg.cashoutBps == Some(bps) && InI128(p.amount * bps) && forfeit == Quot(p.amount * bps, BPS_DENOMINATOR) && InI128(p.amount - forfeit)
    requires pool == (if p.side.Up? then rd.poolUp else rd.poolDown) - p.amount && InI128(pool)
    requires NeverOverflows(ExitRound(s, rd, user, p, p.amount - forfeit, forfeit, pool))
    ensures NeverOverflows(CashOutEarly(s, user))
  {
  }

  lemma ExitSafe(s: State, rd: Round, user: Address, p: UserPosition, cashout: int, forfeit: int, pool: int)
    requires NeverOverflows(MoveCashOut(s, user, cashout, forfeit))
    ensures NeverOverflows(ExitRound(s, rd, user, p, cashout, forfeit, pool))
  {
  }

  lemma PositionFits(s: State, rd: Round, user: Address)
    requires Inv(s) && s.minted < MAX_POT && s.active == Some(rd) && rd.mode.UpDown? && Key(rd.id, user) in s.book.positions
    ensures var amount := s.book.positions[Key(rd.id, user)].amount;
            HoldsBack(s, rd, user, amount)
  {
    var k := Key(rd.id, user);
    PoolsFit(s, rd);
    PartsBelowMinted(s);
    forall j | j in Recorded(s.book) ensures Recorded(s.book)[j] >= 0 { }
    SumMapNonNegative(Recorded(s.book));
    assert StakeAt(s.book, k) == Recorded(s.book)[k];
    assert PendingOf(s.purse, user) <= SumMap(s.purse.amounts);
  }

  /** Fee withdrawals, top-ups and fund withdrawals never overflow an account. */
  lemma MoneyMovesSafe(s: State, who: Address, amount: int)
    requires Inv(s) && s.minted <= I128_MAX
    ensures NeverOverflows(WithdrawFee(s, who, amount))
    ensures NeverOverflows(TopUpInsurance(s, amount))
    ensures NeverOverflows(WithdrawInsurance(s, who, amount))
  {
    AccountsFit(s, who);
    AccountsFit(s, s.cfg.admin);
    WithdrawFits(s, who, amount);
    TopUpFits(s, amount);
  }

  lemma AccountsFit(s: State, who: Address)
    requires Inv(s)
    ensures 0 <= BalanceOf(s, who) && 0 <= s.treasury && 0 <= s.fund
    ensures BalanceOf(s, who) + s.treasury + s.fund <= s.minted
  {
    PartsBelowMinted(s);
    assert BalanceOf(s, who) <= SumMap(s.balances);
  }

  lemma WithdrawFits(s: State, who: Address, amount: int)
    requires 0 <= BalanceOf(s, who) && 0 <= s.treasury && 0 <= s.fund
    requires BalanceOf(s, who) + s.treasury + s.fund <= I128_MAX
    ensures NeverOverflows(WithdrawFee(s, who, amount)) && NeverOverflows(WithdrawInsurance(s, who, amount))
  {
  }

  lemma TopUpFits(s: State, amount: int)
    requires 0 <= BalanceOf(s, s.cfg.admin) && 0 <= s.fund && BalanceOf(s, s.cfg.admin) + s.fund <= I128_MAX
    ensures NeverOverflows(TopUpInsurance(s, amount))
  {
  }
}
