/** The payout preview (`simulate_payout`, contracts/src/queries.rs): a read-only query that
    must foretell what settling the active round would record. */
module Preview {
  import opened Types
  import opened Arith
  import opened Sums
  import opened Fees
  import opened Engine
  import opened Ledger
  import opened Books
  import opened Invariants
  import opened Steps
  import opened Streaming
  import opened Loops
  import opened Market
  import opened Records

  datatype Simulation = Simulation(
    mode: RoundMode, poolUp: int, poolDown: int, precisionStake: int, fee: int, feeModel: FeeModel,
    outcomes: seq<UserRoundOutcome>)

  /** The same result; when there is none, the error code may differ. */
  ghost predicate Foretells(r: Result<Settlement>, spec: Result<Settlement>) {
    (r.Ok? <==> spec.Ok?) && (r.Ok? ==> r == spec)
  }

  // ----- Up/Down -----

  method PreviewReturns(m: Market, round: nat, users: seq<Address>) returns (outcomes: seq<UserRoundOutcome>)
    requires forall u :: u in users ==> Key(round, u) in m.positions
    ensures outcomes == UpDownReturns(UpDownEntries(m.View().book, round, users), Refund)
  {
    ghost var es := UpDownEntries(m.View().book, round, users);
    EntriesAligned(m.View().book, round, users);
    outcomes := [];
    for i := 0 to |users|
      invariant outcomes == UpDownReturns(es, Refund)[..i]
    {
      assert users[i] in users;
      var position := m.positions[Key(round, users[i])];
      assert es[i] == UpDownStake(users[i], position.amount, position.side);
      outcomes := outcomes + [UserRoundOutcome(users[i], UpDown, Some(position.side), 0, position.amount, position.amount, Refund)];
    }
  }

  method PreviewCompetition(m: Market, round: nat, users: seq<Address>, side: BetSide, winning: int, distributable: int)
    returns (r: Result<seq<UserRoundOutcome>>)
    requires winning != 0 && forall u :: u in users ==> Key(round, u) in m.positions
    ensures var es := UpDownEntries(m.View().book, round, users);
            r == if UpDownPayable(es, side, winning, distributable) then Ok(Competition(es, side, winning, distributable))
                 else Err(PayoutOverflow)
  {
    ghost var es := UpDownEntries(m.View().book, round, users);
    EntriesAligned(m.View().book, round, users);
    ghost var list := Provisional(es, side, winning, distributable);
    if UpDownPayable(es, side, winning, distributable) { ProvisionalIs(es, side, winning, distributable); }
    var outcomes: seq<UserRoundOutcome> := [];
    for i := 0 to |users|
      invariant forall j :: 0 <= j < i && es[j].side == side ==> WinnerPayout(es[j].amount, winning, distributable).Ok?
      invariant outcomes == list[..i]
    {
      assert users[i] in users;
      var o := m.Compete(round, users[i], side, winning, distributable);
      if o.Err? {
        return Err(PayoutOverflow);
      }
      assert o.value == list[i];
      outcomes := outcomes + [o.value];
    }
    assert list[..|users|] == list;
    return Ok(outcomes);
  }

  method PreviewUpDown(m: Market, rd: Round, users: seq<Address>, price: nat) returns (r: Result<Settlement>)
    requires forall u :: u in users ==> Key(rd.id, u) in m.positions
    requires UpDownBooked(UpDownEntries(m.View().book, rd.id, users), rd.poolUp, rd.poolDown)
    ensures Foretells(r, SettleUpDown(UpDownEntries(m.View().book, rd.id, users), rd.priceStart, price, rd.poolUp, rd.poolDown, Terms(m.cfg)))
  {
    ghost var es := UpDownEntries(m.View().book, rd.id, users);
    assert |es| == |users| by { EntriesAligned(m.View().book, rd.id, users); }
    BookedPools(es, rd.poolUp, rd.poolDown);
    if price == rd.priceStart || OneSided(rd.poolUp, rd.poolDown) {
      var outcomes := PreviewReturns(m, rd.id, users);
      return Ok(Settlement(0, outcomes));
    }
    if price > rd.priceStart {
      r := PreviewSides(m, rd, users, Up, rd.poolUp, rd.poolDown);
    } else {
      r := PreviewSides(m, rd, users, Down, rd.poolDown, rd.poolUp);
    }
  }

  /** A competitive round: one side wins the pot, less the fee. */
  method PreviewSides(m: Market, rd: Round, users: seq<Address>, side: BetSide, winning: int, losing: int) returns (r: Result<Settlement>)
    requires forall u :: u in users ==> Key(rd.id, u) in m.positions
    requires UpDownBooked(UpDownEntries(m.View().book, rd.id, users), rd.poolUp, rd.poolDown) && !OneSided(rd.poolUp, rd.poolDown)
    requires winning + losing == rd.poolUp + rd.poolDown && (winning == rd.poolUp || winning == rd.poolDown)
    ensures var es := UpDownEntries(m.View().book, rd.id, users);
            Foretells(r, if es == [] then Ok(Settlement(0, [])) else SettleCompetition(es, side, winning, losing, Terms(m.cfg)))
  {
    ghost var es := UpDownEntries(m.View().book, rd.id, users);
    assert |es| == |users| by { EntriesAligned(m.View().book, rd.id, users); }
    NoPotNoFee(es, rd.poolUp, rd.poolDown, winning, losing, Terms(m.cfg));
    var split :- UpDownFee(Terms(m.cfg), winning, losing);
    var distributable :- Checked(split.winning + split.losing, PayoutOverflow);
    if users == [] {
      return Ok(Settlement(split.fee, []));
    }
    r := PreviewWinners(m, rd, users, side, winning, losing, split);
  }

  method PreviewWinners(m: Market, rd: Round, users: seq<Address>, side: BetSide, winning: int, losing: int, split: PoolSplit)
    returns (r: Result<Settlement>)
    requires winning != 0 && forall u :: u in users ==> Key(rd.id, u) in m.positions
    requires UpDownFee(Terms(m.cfg), winning, losing) == Ok(split) && InI128(split.winning + split.losing)
    ensures Foretells(r, SettleCompetition(UpDownEntries(m.View().book, rd.id, users), side, winning, losing, Terms(m.cfg)))
  {
    var outcomes := PreviewCompetition(m, rd.id, users, side, winning, split.winning + split.losing);
    CompetitionIs(UpDownEntries(m.View().book, rd.id, users), side, winning, losing, Terms(m.cfg), split);
    r := if outcomes.Ok? then Ok(Settlement(split.fee, outcomes.value)) else Err(outcomes.error);
  }

  lemma CompetitionIs(es: seq<UpDownStake>, side: BetSide, winning: int, losing: int, terms: FeeTerms, split: PoolSplit)
    requires winning != 0 && UpDownFee(terms, winning, losing) == Ok(split) && InI128(split.winning + split.losing)
    ensures SettleCompetition(es, side, winning, losing, terms)
         == if UpDownPayable(es, side, winning, split.winning + split.losing)
            then Ok(Settlement(split.fee, Competition(es, side, winning, split.winning + split.losing)))
            else Err(PayoutOverflow)
  {
  }

  /** A round without stakes has no pot and pays no fee. */
  lemma NoPotNoFee(es: seq<UpDownStake>, poolUp: int, poolDown: int, winning: int, losing: int, terms: FeeTerms)
    requires UpDownBooked(es, poolUp, poolDown) && !OneSided(poolUp, poolDown)
    requires winning + losing == poolUp + poolDown && (winning == poolUp || winning == poolDown)
    ensures es == [] ==> UpDownFee(terms, winning, losing) == Ok(PoolSplit(0, 0, 0))
    ensures es != [] ==> winning > 0
  {
    BookedPools(es, poolUp, poolDown);
    if es == [] {
      assert SideAmounts(es, Up) == [] && SideAmounts(es, Down) == [];
      assert winning == 0 && losing == 0;
    }
  }

  // ----- Precision -----

  /** As the settlement's scan, except for the error code. */
  method PreviewScan(m: Market, round: nat, users: seq<Address>, price: nat)
    returns (r: Result<int>, es: seq<PrecisionStake>, mask: seq<bool>, winners: seq<PrecisionStake>)
    ensures var all := PrecisionEntries(m.View().book, round, users);
            && (r.Ok? <==> CheckedSum(PrecisionAmounts(all)).Ok?)
            && (r.Ok? ==> r == CheckedSum(PrecisionAmounts(all)) && es == all
                          && MarksWinners(es, price, mask, winners)
                          && PrecisionAmounts(winners) == AmountsAt(es, Winners(es, price)))
  {
    ghost var all := PrecisionEntries(m.View().book, round, users);
    ghost var amounts := PrecisionAmounts(all);
    es, mask, winners := [], [], [];
    var pot := 0;
    var least: Option<nat> := None;
    for i := 0 to |users|
      invariant es == all[..i] && |mask| == i
      invariant CheckedSum(amounts[..i]) == Ok(pot)
      invariant Scanned(all, price, least, mask, winners)
    {
      var e := m.ReadEntry(round, users[i]);
      SumNext(amounts, i, pot);
      var sum := Checked(pot + e.amount, Overflow);
      if sum.Err? {
        return sum, es, mask, winners;
      }
      pot, es := sum.value, es + [e];
      least, mask, winners := KeepClosest(all, price, e, least, mask, winners);
    }
    assert all[..|users|] == all && amounts[..|users|] == amounts;
    ScanFindsWinners(all, price, least, mask, winners);
    r := Ok(pot);
  }

  /** The winners' stakes, where an addition that overflows is left out. */
  method WinnerStakes(winners: seq<PrecisionStake>) returns (total: int)
    ensures total == StakeTotal(PrecisionAmounts(winners))
  {
    ghost var amounts := PrecisionAmounts(winners);
    total := 0;
    for i := 0 to |winners|
      invariant total == StakeTotal(amounts[..i])
    {
      assert amounts[..i + 1][..i] == amounts[..i];
      total := AddOrKeep(total, winners[i].amount);
    }
    assert amounts[..|winners|] == amounts;
  }

  /** Winners take the payouts in the order they come up. */
  method Award(es: seq<PrecisionStake>, price: nat, mask: seq<bool>, ghost winners: seq<PrecisionStake>, payouts: seq<int>)
    returns (outcomes: seq<UserRoundOutcome>)
    requires MarksWinners(es, price, mask, winners) && |payouts| == |winners|
    ensures outcomes == Prizes(es, price, payouts)
  {
    outcomes := [];
    var next := 0;
    for i := 0 to |es|
      invariant outcomes == Prizes(es, price, payouts)[..i]
      invariant next == |WinnersBelow(es, price, i)|
    {
      if mask[i] {
        RankOf(es, price, i);
        outcomes := outcomes + [PrecisionOutcome(es[i], payouts[next], Win)];
        next := next + 1;
      } else {
        outcomes := outcomes + [PrecisionOutcome(es[i], 0, Loss)];
      }
    }
  }

  method RefundAll(es: seq<PrecisionStake>) returns (outcomes: seq<UserRoundOutcome>)
    requires forall i :: 0 <= i < |es| ==> es[i].price == 0
    ensures outcomes == PrecisionReturns(es, Refund, false)
  {
    outcomes := [];
    for i := 0 to |es|
      invariant outcomes == PrecisionReturns(es, Refund, false)[..i]
    {
      outcomes := outcomes + [PrecisionOutcome(es[i], es[i].amount, Refund)];
    }
  }

  /** The part of the preview that shares out the pot. */
  method PreviewPrizes(m: Market, es: seq<PrecisionStake>, price: nat, mask: seq<bool>, winners: seq<PrecisionStake>, pot: int)
    returns (r: Result<Settlement>)
    requires MarksWinners(es, price, mask, winners) && winners != [] && PositivePrecision(es)
    requires PrecisionAmounts(winners) == AmountsAt(es, Winners(es, price))
    requires CheckedSum(PrecisionAmounts(es)) == Ok(pot) && 0 < pot <= I128_MAX
    ensures Foretells(r, SettlePrecision(es, price, Terms(m.cfg), m.cfg.policy))
  {
    var stakes := WinnerStakes(winners);
    WinnerStakesFit(es, price, pot);
    assert CheckedSum(AmountsAt(es, Winners(es, price))) == Ok(stakes);
    var split := PrecisionFee(Terms(m.cfg), pot, stakes);
    if split.Err? {
      return Err(split.error);
    }
    ClosestSettles(es, price, Terms(m.cfg), m.cfg.policy, pot, stakes, split.value);
    var payouts := m.CalculatePrecisionPayouts(winners, split.value.distributable);
    if payouts.Err? {
      return Err(payouts.error);
    }
    var outcomes := Award(es, price, mask, winners, payouts.value);
    return Ok(Settlement(split.value.fee, outcomes));
  }

  lemma WinnerStakesFit(es: seq<PrecisionStake>, price: nat, pot: int)
    requires PositivePrecision(es) && CheckedSum(PrecisionAmounts(es)) == Ok(pot) && pot <= I128_MAX
    ensures var w := Winners(es, price);
            && (forall j :: 0 <= j < |w| ==> w[j] < |es|)
            && CheckedSum(AmountsAt(es, w)) == Ok(StakeTotal(AmountsAt(es, w)))
  {
    CheckedSumIs(PrecisionAmounts(es));
    WinnerStakesBelowPot(es, price);
    var stakes := AmountsAt(es, Winners(es, price));
    CheckedSumIs(stakes);
    StakeTotalIs(stakes);
  }

  method PreviewPrecision(m: Market, rd: Round, users: seq<Address>, price: nat) returns (r: Result<Settlement>, pot: int)
    requires PositivePrecision(PrecisionEntries(m.View().book, rd.id, users))
    ensures var es := PrecisionEntries(m.View().book, rd.id, users);
            && Foretells(r, SettlePrecision(es, price, Terms(m.cfg), m.cfg.policy))
            && (r.Ok? ==> pot == Sum(PrecisionAmounts(es)))
  {
    var sum, es, mask, winners := PreviewScan(m, rd.id, users, price);
    if sum.Err? {
      return Err(sum.error), 0;
    }
    pot := sum.value;
    CheckedSumIs(PrecisionAmounts(es));
    if winners != [] {
      StakesArePot(es);
      r := PreviewPrizes(m, es, price, mask, winners, pot);
    } else {
      ClosestExists(es, price);
      NobodyWins(es, price, Terms(m.cfg), m.cfg.policy);
      HiddenGuessesHaveNoPrice(m.View().book, rd.id, users);
      var outcomes := RefundAll(es);
      r := Ok(Settlement(0, outcomes));
    }
  }

  lemma StakesArePot(es: seq<PrecisionStake>)
    requires PositivePrecision(es) && es != []
    ensures Sum(PrecisionAmounts(es)) > 0
  {
    SumNonNegative(PrecisionAmounts(es));
    assert PrecisionAmounts(es)[0] > 0;
  }

  lemma NobodyWins(es: seq<PrecisionStake>, price: nat, terms: FeeTerms, policy: PayoutPolicy)
    requires PositivePrecision(es) && Winners(es, price) == [] && CheckedSum(PrecisionAmounts(es)).Ok?
    ensures SettlePrecision(es, price, terms, policy) == Ok(Settlement(0, PrecisionReturns(es, Refund, false)))
  {
    CheckedSumIs(PrecisionAmounts(es));
    if es == [] {
      assert PrecisionReturns(es, Refund, false) == [];
    } else {
      StakesArePot(es);
    }
  }

  lemma HiddenGuessesHaveNoPrice(b: Book, round: nat, users: seq<Address>)
    ensures var es := PrecisionEntries(b, round, users);
            (forall i :: 0 <= i < |es| ==> !es[i].revealed) ==> forall i :: 0 <= i < |es| ==> es[i].price == 0
  {
  }

  // ----- the query -----

  function PrecisionPot(b: Book, rd: Round, users: seq<Address>): int {
    if rd.mode.Precision? then Sum(PrecisionAmounts(PrecisionEntries(b, rd.id, users))) else 0
  }

  /** `simulate_payout` reads the active round and changes nothing. It succeeds exactly when
      the payouts of settling at `price` can be computed, with the same fee and the same
      outcome for every participant. */
  method SimulatePayout(m: Market, price: nat) returns (r: Result<Simulation>)
    requires m.Valid()
    ensures m.active.None? ==> r == Err(NoActiveRound)
    ensures m.active.Some? ==>
              var rd := m.active.value;
              var users := Sort(m.Participants(rd.id));
              var spec := SettleRound(m.View().book, rd, users, price, m.cfg);
              && (r.Ok? <==> spec.Ok?)
              && (r.Ok? ==> r.value == Simulation(rd.mode, rd.poolUp, rd.poolDown, PrecisionPot(m.View().book, rd, users),
                                                  spec.value.fee, m.cfg.feeModel, spec.value.outcomes))
  {
    if m.active.None? {
      return Err(NoActiveRound);
    }
    var rd := m.active.value;
    LiveIsReadable(m.View(), rd);
    var users := Sort(m.Participants(rd.id));
    SortKeepsMembers(m.Participants(rd.id));
    var st: Result<Settlement>;
    var pot := 0;
    if rd.mode.UpDown? {
      ActiveIsBooked(m.View(), rd);
      st := PreviewUpDown(m, rd, users, price);
    } else {
      st, pot := PreviewPrecision(m, rd, users, price);
    }
    if st.Err? {
      return Err(st.error);
    }
    return Ok(Simulation(rd.mode, rd.poolUp, rd.poolDown, pot, st.value.fee, m.cfg.feeModel, st.value.outcomes));
  }

  lemma ActiveIsBooked(s: State, rd: Round)
    requires Inv(s) && s.active == Some(rd) && rd.mode.UpDown?
    ensures UpDownBooked(UpDownEntries(s.book, rd.id, Sort(ParticipantsOf(s, rd.id))), rd.poolUp, rd.poolDown)
  {
    ParticipantsAre(s, rd.id);
    MembersSorted(s.book, rd.id, ParticipantsOf(s, rd.id));
    PotIsRecorded(s.book, s.startLedgers, s.lastRoundId, rd, Sort(ParticipantsOf(s, rd.id)));
  }

  /** What the preview shows is what settling at that price records for every participant. */
  lemma PreviewIsRecorded(s: State, rd: Round, price: nat, i: nat)
    requires Inv(s) && s.active == Some(rd) && CompleteSettlement(s, rd, price).Ok?
    requires i < |Sort(ParticipantsOf(s, rd.id))|
    ensures var st := SettleRound(s.book, rd, Sort(ParticipantsOf(s, rd.id)), price, s.cfg).value;
            var k := Key(rd.id, Sort(ParticipantsOf(s, rd.id))[i]);
            var t := CompleteSettlement(s, rd, price).value;
            && i < |st.outcomes| && k in t.outcomes && t.outcomes[k] == st.outcomes[i]
            && t.treasury + t.fund == s.treasury + s.fund + st.fee
  {
    SettlementFits(s, rd, price);
    SettlementIsFresh(s, rd, price);
    FeeIsCharged(s, rd, price);
    RecordedAt(s, rd, price, i);
  }

  lemma FeeIsCharged(s: State, rd: Round, price: nat)
    requires Inv(s) && IsLive(s, rd)
    requires SettleRound(s.book, rd, Sort(ParticipantsOf(s, rd.id)), price, s.cfg).Ok?
    ensures SettleRound(s.book, rd, Sort(ParticipantsOf(s, rd.id)), price, s.cfg).value.fee >= 0
  {
    ParticipantsAre(s, rd.id);
    MembersSorted(s.book, rd.id, ParticipantsOf(s, rd.id));
    SettlementSums(s.book, s.startLedgers, s.lastRoundId, rd, Sort(ParticipantsOf(s, rd.id)), price, s.cfg);
  }
}
