/** Who wins a round and what everybody gets, read off prices and stakes alone: the settled
    results against a definition that shares no function with the settlement. */
module Verdicts {
  import opened Types
  import opened Arith
  import opened Sums
  import opened Fees
  import opened Engine
  import opened Ledger
  import opened Books
  import opened Invariants
  import opened Runs
  import opened Records
  import opened SettlementMath

  /** |p - final| <= |q - final|: `p` lies between `q` and the mirror image of `q`. */
  predicate AsClose(p: int, q: int, final: int) {
    if q >= final then 2 * final - q <= p <= q else q <= p <= 2 * final - q
  }

  // ----- Precision: who wins -----

  /** A guess that was revealed, and that no revealed guess beats. */
  ghost predicate Unbeaten(es: seq<PrecisionStake>, final: nat, i: nat)
    requires i < |es|
  {
    es[i].revealed && forall j :: 0 <= j < |es| && es[j].revealed ==> AsClose(es[i].price, es[j].price, final)
  }

  lemma WinsIsUnbeaten(es: seq<PrecisionStake>, final: nat, i: nat)
    requires i < |es|
    ensures Wins(es, i, final) <==> Unbeaten(es, final, i)
  {
    forall j | 0 <= j < |es|
      ensures Distance(es[i].price, final) <= Distance(es[j].price, final) <==> AsClose(es[i].price, es[j].price, final)
    {
    }
  }

  /** A settled Precision round records a win for exactly the unbeaten guesses; when nobody
      revealed it records no win and no loss. */
  lemma PrecisionVerdict(es: seq<PrecisionStake>, final: nat, terms: FeeTerms, policy: PayoutPolicy, i: nat)
    requires PositivePrecision(es) && ValidFeeBps(terms.bps) && SettlePrecision(es, final, terms, policy).Ok? && i < |es|
    ensures var outcomes := SettlePrecision(es, final, terms, policy).value.outcomes;
            && |outcomes| == |es|
            && (outcomes[i].kind == Win <==> Unbeaten(es, final, i))
            && (outcomes[i].kind == Loss <==> !Unbeaten(es, final, i) && exists j :: 0 <= j < |es| && es[j].revealed)
  {
    ClosestExists(es, final);
    WinsIsUnbeaten(es, final, i);
    WinnersBelowFacts(es, final, |es|);
    if Winners(es, final) != [] {
      var pool, base, pays := PotDivided(es, final, terms, policy);
    } else {
      NobodyClosestConserves(es, final, terms, policy);
      assert !Wins(es, i, final) by { assert i !in Winners(es, final); }
    }
  }

  // ----- Precision: what they get -----

  /** The stake behind a win, nothing otherwise. */
  function StakeWon(o: UserRoundOutcome): int {
    if o.kind == Win then o.stake else 0
  }

  function StakesWon(outcomes: seq<UserRoundOutcome>): seq<int> {
    seq(|outcomes|, i requires 0 <= i < |outcomes| => StakeWon(outcomes[i]))
  }

  lemma {:induction false} WonBelow(es: seq<PrecisionStake>, final: nat, pays: seq<int>, won: seq<int>, n: nat)
    requires n <= |es| == |won| && won == StakesWon(Prizes(es, final, pays))
    ensures var w := WinnersBelow(es, final, n);
            && (forall j :: 0 <= j < |w| ==> w[j] < |es|)
            && Sum(won[..n]) == Sum(AmountsAt(es, w))
  {
    WinnersBelowFacts(es, final, n);
    if n > 0 {
      WonBelow(es, final, pays, won, n - 1);
      OneMore(won, n);
      WonStep(es, final, pays, n, WinnersBelow(es, final, n - 1));
    }
  }

  lemma WonStep(es: seq<PrecisionStake>, final: nat, pays: seq<int>, n: nat, front: seq<nat>)
    requires 0 < n <= |es| && front == WinnersBelow(es, final, n - 1) && forall j :: 0 <= j < |front| ==> front[j] < |es|
    ensures var w := WinnersBelow(es, final, n);
            && (forall j :: 0 <= j < |w| ==> w[j] < |es|)
            && Sum(AmountsAt(es, w)) == Sum(AmountsAt(es, front)) + StakesWon(Prizes(es, final, pays))[n - 1]
  {
    if Wins(es, n - 1, final) {
      WonNext(es, front, n - 1);
    } else {
      assert WinnersBelow(es, final, n) == front;
    }
  }

  lemma OneMore(s: seq<int>, n: nat)
    requires 0 < n <= |s|
    ensures Sum(s[..n]) == Sum(s[..n - 1]) + s[n - 1]
  {
    assert s[..n] == s[..n - 1] + [s[n - 1]];
    SumSnoc(s[..n - 1], s[n - 1]);
  }

  lemma WonNext(es: seq<PrecisionStake>, front: seq<nat>, i: nat)
    requires i < |es| && forall j :: 0 <= j < |front| ==> front[j] < |es|
    ensures Sum(AmountsAt(es, front + [i])) == Sum(AmountsAt(es, front)) + es[i].amount
  {
    assert AmountsAt(es, front + [i]) == AmountsAt(es, front) + [es[i].amount];
    SumSnoc(AmountsAt(es, front), es[i].amount);
  }

  lemma {:induction false} WinsBelow(es: seq<PrecisionStake>, final: nat, pays: seq<int>, n: nat)
    requires n <= |es|
    ensures CountWins(Prizes(es, final, pays)[..n]) == |WinnersBelow(es, final, n)|
  {
    if n > 0 {
      WinsBelow(es, final, pays, n - 1);
      var prizes := Prizes(es, final, pays);
      assert prizes[..n][..n - 1] == prizes[..n - 1];
    }
  }

  lemma AllWon(es: seq<PrecisionStake>, final: nat, pays: seq<int>)
    ensures var w := Winners(es, final);
            && (forall j :: 0 <= j < |w| ==> w[j] < |es|)
            && Sum(StakesWon(Prizes(es, final, pays))) == Sum(AmountsAt(es, w))
            && CountWins(Prizes(es, final, pays)) == |w|
  {
    WonBelow(es, final, pays, StakesWon(Prizes(es, final, pays)), |es|);
    WinsBelow(es, final, pays, |es|);
    assert Prizes(es, final, pays)[..|es|] == Prizes(es, final, pays);
    assert StakesWon(Prizes(es, final, pays))[..|es|] == StakesWon(Prizes(es, final, pays));
  }

  /** The fee is the configured rate of the pot, or of the part of it that was lost. */
  predicate IsFee(terms: FeeTerms, pot: int, won: int, fee: int) {
    match terms.bps
    case None => fee == 0
    case Some(bps) => IsFloor(fee, (if terms.model.FeeOnPot? then pot else pot - won) * bps, 10_000)
  }

  lemma PrecisionFeeIs(terms: FeeTerms, pot: int, won: int)
    requires ValidFeeBps(terms.bps) && 0 <= won <= pot && 0 < pot && PrecisionFee(terms, pot, won).Ok?
    ensures IsFee(terms, pot, won, PrecisionFee(terms, pot, won).value.fee)
  {
    if terms.bps.Some? {
      var base := if terms.model.FeeOnPot? then pot else pot - won;
      MulBound(base, terms.bps.value, base, terms.bps.value);
      QuotIsFloor(base * terms.bps.value, BPS_DENOMINATOR);
    }
  }

  /** A share of `pool`: an equal one of `winners`, or in proportion to the own stake. */
  predicate IsShare(policy: PayoutPolicy, share: int, stake: int, pool: int, winners: nat, won: int) {
    match policy
    case Equal => IsFloor(share, pool, winners)
    case StakeWeighted => IsFloor(share, stake * pool, won)
  }

  lemma BaseIsShare(amounts: seq<int>, pool: int, policy: PayoutPolicy, j: nat)
    requires j < |amounts| && pool >= 0 && (forall i :: 0 <= i < |amounts| ==> amounts[i] > 0)
    requires BasePayouts(amounts, pool, policy).Ok?
    ensures var base := BasePayouts(amounts, pool, policy).value;
            |base| == |amounts| && IsShare(policy, base[j], amounts[j], pool, |amounts|, Sum(amounts))
  {
    CheckedSumIs(amounts);
    SumNonNegative(amounts);
    assert amounts[0] > 0;
    if policy.Equal? {
      QuotIsFloor(pool, |amounts|);
    } else {
      MulBound(amounts[j], pool, amounts[j], pool);
      QuotIsFloor(amounts[j] * pool, Sum(amounts));
    }
  }

  /** What a winner gets: at least the share, and no more than it behind another winner. */
  ghost predicate Awarded(policy: PayoutPolicy, outcomes: seq<UserRoundOutcome>, i: nat, pool: int)
    requires i < |outcomes|
  {
    exists share ::
      && IsShare(policy, share, outcomes[i].stake, pool, CountWins(outcomes), Sum(StakesWon(outcomes)))
      && outcomes[i].payout >= share
      && ((exists j :: 0 <= j < i && outcomes[j].kind == Win) ==> outcomes[i].payout == share)
  }

  /** Fee and payouts of a Precision round somebody wins, with stakes by ascending address:
      every winner but the one with the lowest address gets the rounded-down share of the pot
      less the fee, that one gets at least it, and a loser gets nothing. */
  lemma PrecisionAwards(es: seq<PrecisionStake>, final: nat, terms: FeeTerms, policy: PayoutPolicy, i: nat)
    requires PositivePrecision(es) && ValidFeeBps(terms.bps) && SettlePrecision(es, final, terms, policy).Ok?
    requires i < |es| && exists j :: 0 <= j < |es| && es[j].revealed
    ensures var st := SettlePrecision(es, final, terms, policy).value;
            var pot := Sum(PrecisionAmounts(es));
            && |st.outcomes| == |es| && st.outcomes[i].stake == es[i].amount
            && IsFee(terms, pot, Sum(StakesWon(st.outcomes)), st.fee)
            && (if st.outcomes[i].kind == Win then Awarded(policy, st.outcomes, i, pot - st.fee) else st.outcomes[i].payout == 0)
  {
    ClosestExists(es, final);
    var pool, base, pays := PotDivided(es, final, terms, policy);
    FeeOfWins(es, final, terms, policy, pays);
    if Wins(es, i, final) { WinnerAwarded(es, final, policy, pool, base, pays, i); }
  }

  lemma FeeOfWins(es: seq<PrecisionStake>, final: nat, terms: FeeTerms, policy: PayoutPolicy, pays: seq<int>)
    requires PositivePrecision(es) && ValidFeeBps(terms.bps) && SettlePrecision(es, final, terms, policy).Ok?
    requires Winners(es, final) != []
    ensures IsFee(terms, Sum(PrecisionAmounts(es)), Sum(StakesWon(Prizes(es, final, pays))), SettlePrecision(es, final, terms, policy).value.fee)
  {
    AllWon(es, final, pays);
    FeeWithheld(es, final, terms, policy);
  }

  lemma WinnerAwarded(es: seq<PrecisionStake>, final: nat, policy: PayoutPolicy, pool: int, base: seq<int>, pays: seq<int>, i: nat)
    requires PositivePrecision(es) && i < |es| && Wins(es, i, final) && pool >= 0
    requires forall j :: 0 <= j < |Winners(es, final)| ==> Winners(es, final)[j] < |es|
    requires BasePayouts(AmountsAt(es, Winners(es, final)), pool, policy) == Ok(base) && |base| == |Winners(es, final)|
    requires base != [] && pool - Sum(base) >= 0 && pays == base[0 := base[0] + (pool - Sum(base))]
    ensures Awarded(policy, Prizes(es, final, pays), i, pool)
  {
    var outcomes, rank := Prizes(es, final, pays), |WinnersBelow(es, final, i)|;
    RankOf(es, final, i);
    OwnShare(es, final, policy, pool, base, pays, i);
    EarlierWin(es, final, pays, i);
    assert outcomes[i].payout == pays[rank];
  }

  lemma OwnShare(es: seq<PrecisionStake>, final: nat, policy: PayoutPolicy, pool: int, base: seq<int>, pays: seq<int>, i: nat)
    requires PositivePrecision(es) && i < |es| && Wins(es, i, final) && pool >= 0
    requires forall j :: 0 <= j < |Winners(es, final)| ==> Winners(es, final)[j] < |es|
    requires BasePayouts(AmountsAt(es, Winners(es, final)), pool, policy) == Ok(base) && |base| == |Winners(es, final)|
    ensures var outcomes, rank := Prizes(es, final, pays), |WinnersBelow(es, final, i)|;
            rank < |base| && IsShare(policy, base[rank], outcomes[i].stake, pool, CountWins(outcomes), Sum(StakesWon(outcomes)))
  {
    RankOf(es, final, i);
    AllWon(es, final, pays);
    BaseIsShare(AmountsAt(es, Winners(es, final)), pool, policy, |WinnersBelow(es, final, i)|);
  }

  lemma EarlierWin(es: seq<PrecisionStake>, final: nat, pays: seq<int>, i: nat)
    requires i < |es| && Wins(es, i, final)
    ensures (exists j :: 0 <= j < i && Prizes(es, final, pays)[j].kind == Win) ==> |WinnersBelow(es, final, i)| != 0
  {
    RankOf(es, final, i);
  }

  lemma FeeWithheld(es: seq<PrecisionStake>, final: nat, terms: FeeTerms, policy: PayoutPolicy)
    requires PositivePrecision(es) && ValidFeeBps(terms.bps) && SettlePrecision(es, final, terms, policy).Ok?
    requires Winners(es, final) != []
    ensures var w := Winners(es, final);
            && (forall j :: 0 <= j < |w| ==> w[j] < |es|)
            && IsFee(terms, Sum(PrecisionAmounts(es)), Sum(AmountsAt(es, w)), SettlePrecision(es, final, terms, policy).value.fee)
  {
    var amounts := PrecisionAmounts(es);
    WinnerStakesBelowPot(es, final);
    CheckedSumIs(amounts);
    SumNonNegative(amounts);
    assert amounts[Winners(es, final)[0]] > 0;
    CheckedSumIs(AmountsAt(es, Winners(es, final)));
    PrecisionFeeIs(terms, Sum(amounts), Sum(AmountsAt(es, Winners(es, final))));
  }

  // ----- Up/Down -----

  /** One result of an Up/Down round with these pools, of which the house keeps `fee`. */
  predicate UpDownResult(o: UserRoundOutcome, stake: int, side: BetSide, start: nat, final: nat, poolUp: int, poolDown: int, fee: int) {
    if final == start || poolUp == 0 || poolDown == 0 then o.kind == Refund && o.payout == stake
    else if (final > start && side == Up) || (final < start && side == Down) then
      o.kind == Win && IsFloor(o.payout, stake * (poolUp + poolDown - fee), if final > start then poolUp else poolDown)
    else o.kind == Loss && o.payout == 0
  }

  predicate IsUpDownFee(terms: FeeTerms, start: nat, final: nat, poolUp: int, poolDown: int, fee: int) {
    if final == start || poolUp == 0 || poolDown == 0 then fee == 0
    else IsFee(terms, poolUp + poolDown, if final > start then poolUp else poolDown, fee)
  }

  lemma UpDownFeeIs(terms: FeeTerms, winning: int, losing: int)
    requires ValidFeeBps(terms.bps) && winning >= 0 && losing >= 0 && UpDownFee(terms, winning, losing).Ok?
    ensures IsFee(terms, winning + losing, winning, UpDownFee(terms, winning, losing).value.fee)
  {
    if terms.bps.Some? {
      var base := if terms.model.FeeOnPot? then winning + losing else losing;
      MulBound(base, terms.bps.value, base, terms.bps.value);
      QuotIsFloor(base * terms.bps.value, BPS_DENOMINATOR);
    }
  }

  /** A settled Up/Down round: nobody wins when the price stayed or one side is empty; otherwise
      the side the price moved to shares the pot less the fee, everybody rounded down. */
  lemma UpDownVerdict(es: seq<UpDownStake>, start: nat, final: nat, poolUp: int, poolDown: int, terms: FeeTerms, i: nat)
    requires UpDownBooked(es, poolUp, poolDown) && ValidFeeBps(terms.bps) && i < |es|
    requires SettleUpDown(es, start, final, poolUp, poolDown, terms).Ok?
    ensures var st := SettleUpDown(es, start, final, poolUp, poolDown, terms).value;
            && |st.outcomes| == |es|
            && IsUpDownFee(terms, start, final, poolUp, poolDown, st.fee)
            && UpDownResult(st.outcomes[i], es[i].amount, es[i].side, start, final, poolUp, poolDown, st.fee)
  {
    BookedPools(es, poolUp, poolDown);
    if !(final == start || poolUp == 0 || poolDown == 0) {
      if final > start {
        CompetitionVerdict(es, Up, poolUp, poolDown, terms, i);
      } else {
        CompetitionVerdict(es, Down, poolDown, poolUp, terms, i);
      }
    }
  }

  lemma CompetitionVerdict(es: seq<UpDownStake>, side: BetSide, winning: int, losing: int, terms: FeeTerms, i: nat)
    requires PositiveUpDown(es) && ValidFeeBps(terms.bps) && winning > 0 && losing > 0 && i < |es|
    requires SettleCompetition(es, side, winning, losing, terms).Ok?
    ensures var st := SettleCompetition(es, side, winning, losing, terms).value;
            && |st.outcomes| == |es|
            && IsFee(terms, winning + losing, winning, st.fee)
            && (if es[i].side == side
                then st.outcomes[i].kind == Win && IsFloor(st.outcomes[i].payout, es[i].amount * (winning + losing - st.fee), winning)
                else st.outcomes[i].kind == Loss && st.outcomes[i].payout == 0)
  {
    UpDownFeeIs(terms, winning, losing);
    UpDownFeeConserves(terms, winning, losing);
    var split := UpDownFee(terms, winning, losing).value;
    MulBound(es[i].amount, split.winning + split.losing, es[i].amount, split.winning + split.losing);
    QuotIsFloor(es[i].amount * (split.winning + split.losing), winning);
  }

  // ----- in the ledger -----

  /** No open prediction of the round is nearer to the price than the one of `u`. */
  ghost predicate NearestOpen(b: Book, round: nat, price: nat, u: Address) {
    && Key(round, u) in b.predictions
    && forall v: Address :: Key(round, v) in b.predictions ==>
         AsClose(b.predictions[Key(round, u)].price, b.predictions[Key(round, v)].price, price)
  }

  /** The result of `u` in a settled round: in a Precision round it is a win exactly for the
      nearest open predictions, in an Up/Down round it is what pools, price and fee determine. */
  ghost predicate IsVerdict(b: Book, rd: Round, price: nat, terms: FeeTerms, u: Address, o: UserRoundOutcome, fee: int) {
    match rd.mode
    case Precision => o.kind == Win <==> NearestOpen(b, rd.id, price, u)
    case UpDown =>
      var k := Key(rd.id, u);
      && k in b.positions
      && IsUpDownFee(terms, rd.priceStart, price, rd.poolUp, rd.poolDown, fee)
      && UpDownResult(o, b.positions[k].amount, b.positions[k].side, rd.priceStart, price, rd.poolUp, rd.poolDown, fee)
  }

  ghost predicate VerdictRecorded(s: State, t: State, rd: Round, price: nat, u: Address) {
    var k := Key(rd.id, u);
    && k in t.outcomes && t.outcomes[k].stake == StakeAt(s.book, k)
    && IsVerdict(s.book, rd, price, FeeTerms(s.cfg.feeBps, s.cfg.feeModel), u, t.outcomes[k], t.treasury + t.fund - s.treasury - s.fund)
  }

  /** What a settlement records for each participant is the verdict, with the fee that treasury
      and fund gain. */
  lemma SettlementVerdict(s: State, rd: Round, price: nat, u: Address)
    requires Inv(s) && IsLive(s, rd) && CompleteSettlement(s, rd, price).Ok? && u in ParticipantsOf(s, rd.id)
    ensures VerdictRecorded(s, CompleteSettlement(s, rd, price).value, rd, price, u)
  {
    var st, i := SettledRecord(s, rd, price, u);
    RoundVerdict(s.book, s.startLedgers, s.lastRoundId, rd, Sort(ParticipantsOf(s, rd.id)), price, s.cfg, i);
    RecordIsVerdict(s, CompleteSettlement(s, rd, price).value, rd, price, u, st.outcomes[i], st.fee);
  }

  /** A round that leaves on a reported price: every participant's record is the verdict on it. */
  lemma ResolveVerdict(s: State, price: nat, start: nat, pass: bool, u: Address)
    requires Inv(s) && ResolveRound(s, price, start, pass).Ok? && u in ParticipantsOf(s, s.active.value.id)
    requires ResolveRound(s, price, start, pass).value.exits == s.exits + [Exit(s.active.value.id, Resolved)]
    ensures VerdictRecorded(s, ResolveRound(s, price, start, pass).value, s.active.value, price, u)
  {
    ResolveIs(s, price, start, pass);
    PricedVerdict(s, s.active.value, price, u);
  }

  lemma ResolveIs(s: State, price: nat, start: nat, pass: bool)
    requires ResolveRound(s, price, start, pass).Ok?
    ensures s.active.Some? && ResolveRound(s, price, start, pass) == SettleWithPrice(s, s.active.value, price)
  {
  }

  lemma PricedVerdict(s: State, rd: Round, price: nat, u: Address)
    requires Inv(s) && s.active == Some(rd) && SettleWithPrice(s, rd, price).Ok? && u in ParticipantsOf(s, rd.id)
    requires SettleWithPrice(s, rd, price).value.exits == s.exits + [Exit(rd.id, Resolved)]
    ensures VerdictRecorded(s, SettleWithPrice(s, rd, price).value, rd, price, u)
  {
    if s.cfg.minParticipants.Some? && |ParticipantsOf(s, rd.id)| < s.cfg.minParticipants.value {
      FallbackLeaves(s, rd, price);
      assert false by { OneExit(s.exits, Exit(rd.id, Resolved), Exit(rd.id, FallbackRefund)); }
    } else if s.cfg.disputeLedgers > 0 {
      assert false;
    } else {
      SettlementVerdict(s, rd, price, u);
    }
  }

  lemma OneExit(exits: seq<Exit>, e: Exit, f: Exit)
    requires exits + [e] == exits + [f]
    ensures e == f
  {
    assert (exits + [e])[|exits|] == (exits + [f])[|exits|];
  }

  /** A round that leaves after its dispute window: the verdict on the price staged for it. */
  lemma FinalizeVerdict(s: State, id: nat, u: Address)
    requires Inv(s) && FinalizeRound(s, id).Ok? && u in ParticipantsOf(s, id)
    ensures id in s.disputes
         && VerdictRecorded(s, FinalizeRound(s, id).value, s.disputes[id].round, s.disputes[id].price, u)
  {
    var d := s.disputes[id];
    FinalizeIs(s, id);
    SettlementVerdict(s, d.round, d.price, u);
    SameRecords(s, CompleteSettlement(s, d.round, d.price).value, FinalizeRound(s, id).value, d.round, d.price, u);
  }

  lemma FinalizeIs(s: State, id: nat)
    requires FinalizeRound(s, id).Ok?
    ensures id in s.disputes && CompleteSettlement(s, s.disputes[id].round, s.disputes[id].price).Ok?
    ensures var t, r := CompleteSettlement(s, s.disputes[id].round, s.disputes[id].price).value, FinalizeRound(s, id).value;
            r.outcomes == t.outcomes && r.treasury == t.treasury && r.fund == t.fund
  {
  }

  lemma SameRecords(s: State, t: State, r: State, rd: Round, price: nat, u: Address)
    requires VerdictRecorded(s, t, rd, price, u)
    requires r.outcomes == t.outcomes && r.treasury == t.treasury && r.fund == t.fund
    ensures VerdictRecorded(s, r, rd, price, u)
  {
  }

  lemma RecordIsVerdict(s: State, t: State, rd: Round, price: nat, u: Address, o: UserRoundOutcome, fee: int)
    requires Key(rd.id, u) in t.outcomes && t.outcomes[Key(rd.id, u)] == o && o.stake == StakeAt(s.book, Key(rd.id, u))
    requires t.treasury + t.fund == s.treasury + s.fund + fee
    requires IsVerdict(s.book, rd, price, FeeTerms(s.cfg.feeBps, s.cfg.feeModel), u, o, fee)
    ensures VerdictRecorded(s, t, rd, price, u)
  {
    assert fee == t.treasury + t.fund - s.treasury - s.fund;
  }

  /** The record of a participant is the entry of the settlement at the participant's place. */
  lemma SettledRecord(s: State, rd: Round, price: nat, u: Address) returns (st: Settlement, i: nat)
    requires Inv(s) && IsLive(s, rd) && CompleteSettlement(s, rd, price).Ok? && u in ParticipantsOf(s, rd.id)
    ensures var users := Sort(ParticipantsOf(s, rd.id));
            && SettleRound(s.book, rd, users, price, s.cfg) == Ok(st)
            && i < |users| == |st.outcomes| && users[i] == u && Members(s.book, rd.id, users)
    ensures var t, k := CompleteSettlement(s, rd, price).value, Key(rd.id, u);
            && k in t.outcomes && t.outcomes[k] == st.outcomes[i] && st.outcomes[i].stake == StakeAt(s.book, k)
            && t.treasury + t.fund == s.treasury + s.fund + st.fee
    ensures StakesOk(s.book) && RoundOk(s.book, s.startLedgers, s.lastRoundId, rd) && ValidConfig(s.cfg)
  {
    SettlementFits(s, rd, price);
    SettlementIsFresh(s, rd, price);
    var users := Sort(ParticipantsOf(s, rd.id));
    SortKeepsMembers(ParticipantsOf(s, rd.id));
    i :| 0 <= i < |users| && users[i] == u;
    st := SettleRound(s.book, rd, users, price, s.cfg).value;
    FeeIsPositive(s, rd, users, price);
    RecordedAt(s, rd, price, i);
  }

  lemma FeeIsPositive(s: State, rd: Round, users: seq<Address>, price: nat)
    requires Inv(s) && IsLive(s, rd) && Members(s.book, rd.id, users) && SettleRound(s.book, rd, users, price, s.cfg).Ok?
    ensures SettleRound(s.book, rd, users, price, s.cfg).value.fee >= 0
  {
    SettlementSums(s.book, s.startLedgers, s.lastRoundId, rd, users, price, s.cfg);
  }

  lemma RoundVerdict(b: Book, startLedgers: map<nat, nat>, last: nat, rd: Round, users: seq<Address>, price: nat, cfg: Config, i: nat)
    requires StakesOk(b) && RoundOk(b, startLedgers, last, rd) && Members(b, rd.id, users) && ValidConfig(cfg) && i < |users|
    requires SettleRound(b, rd, users, price, cfg).Ok?
    ensures var st := SettleRound(b, rd, users, price, cfg).value;
            && |st.outcomes| == |users| && st.fee >= 0
            && IsVerdict(b, rd, price, FeeTerms(cfg.feeBps, cfg.feeModel), users[i], st.outcomes[i], st.fee)
  {
    PotIsRecorded(b, startLedgers, last, rd, users);
    if rd.mode.UpDown? {
      EntriesAligned(b, rd.id, users);
      UpDownConserves(UpDownEntries(b, rd.id, users), rd.priceStart, price, rd.poolUp, rd.poolDown, Terms(cfg));
      UpDownVerdict(UpDownEntries(b, rd.id, users), rd.priceStart, price, rd.poolUp, rd.poolDown, Terms(cfg), i);
    } else {
      PrecisionConserves(PrecisionEntries(b, rd.id, users), price, Terms(cfg), cfg.policy);
      PrecisionVerdict(PrecisionEntries(b, rd.id, users), price, Terms(cfg), cfg.policy, i);
      UnbeatenIsNearest(b, rd.id, users, price, i);
    }
  }

  lemma UnbeatenIsNearest(b: Book, round: nat, users: seq<Address>, price: nat, i: nat)
    requires Members(b, round, users) && i < |users|
    ensures Unbeaten(PrecisionEntries(b, round, users), price, i) <==> NearestOpen(b, round, price, users[i])
  {
    var es := PrecisionEntries(b, round, users);
    if Unbeaten(es, price, i) {
      forall v: Address | Key(round, v) in b.predictions
        ensures AsClose(b.predictions[Key(round, users[i])].price, b.predictions[Key(round, v)].price, price)
      {
        assert InBook(b, Key(round, v));
        var j :| 0 <= j < |users| && users[j] == v;
        assert es[j].revealed;
      }
    }
    if NearestOpen(b, round, price, users[i]) {
      forall j | 0 <= j < |es| && es[j].revealed ensures AsClose(es[i].price, es[j].price, price) {
        assert Key(round, users[j]) in b.predictions;
      }
    }
  }

  // ----- the pure module's scores -----

  /** The absolute score of a guess is its distance, the relative one its distance in basis points
      of the final price, rounded down and computed from a distance product capped at the integer
      width; a final price of 0 leaves the distance. */
  predicate IsScore(mode: ScoringMode, price: int, final: int, score: int) {
    var d := if price >= final then price - final else final - price;
    if mode.AbsoluteDistance? || final == 0 then score == d
    else IsFloor(score, if d * 10_000 > U128_MAX then U128_MAX else d * 10_000, final)
  }

  lemma ScoreIsScore(mode: ScoringMode, price: nat, final: nat)
    ensures IsScore(mode, price, final, SettlementMath.Score(mode, price, final))
  {
    if mode.RelativeDistance? && final > 0 {
      var d := if price >= final then price - final else final - price;
      QuotIsFloor(CapU128(d * 10_000), final);
    }
  }

  lemma OneScore(mode: ScoringMode, price: int, final: int, a: int, b: int)
    requires final >= 0 && IsScore(mode, price, final, a) && IsScore(mode, price, final, b)
    ensures a == b
  {
    if mode.RelativeDistance? && final > 0 { SameFloor(a, b, if price >= final then price - final else final - price, final); }
  }

  lemma SameFloor(a: int, b: int, d: int, final: int)
    requires final > 0
    requires var c := if d * 10_000 > U128_MAX then U128_MAX else d * 10_000; IsFloor(a, c, final) && IsFloor(b, c, final)
    ensures a == b
  {
    if a < b { MulMono(a + 1, b, final); } else if b < a { MulMono(b + 1, a, final); }
  }

  /** The pure module picks exactly the revealed entries whose score is within the band, or within
      the band above every other score; without a band, the revealed entries with the least score. */
  lemma ScoringVerdict(entries: seq<PrecisionEntry>, final: nat, scoring: ScoringPolicy, scores: seq<int>, i: nat)
    requires |scores| == |entries| && i < |entries|
    requires forall j :: 0 <= j < |entries| ==> IsScore(scoring.mode, entries[j].price, final, scores[j])
    ensures ScoreWins(entries, i, final, scoring) <==>
              entries[i].revealed &&
              match scoring.band
              case None => forall j :: 0 <= j < |entries| && entries[j].revealed ==> scores[i] <= scores[j]
              case Some(band) =>
                || scores[i] <= band
                || forall j :: 0 <= j < |entries| && entries[j].revealed ==>
                     scores[i] <= if scores[j] + band > U128_MAX then U128_MAX else scores[j] + band
  {
    forall j | 0 <= j < |entries| ensures scores[j] == SettlementMath.Score(scoring.mode, entries[j].price, final) {
      ScoreIsScore(scoring.mode, entries[j].price, final);
      OneScore(scoring.mode, entries[j].price, final, scores[j], SettlementMath.Score(scoring.mode, entries[j].price, final));
    }
    BestIsLeast(entries, final, scoring.mode);
    var best := BestOf(entries, final, scoring.mode);
    if best.Some? {
      var j :| 0 <= j < |entries| && entries[j].revealed && SettlementMath.Score(scoring.mode, entries[j].price, final) == best.value;
      assert scores[j] == best.value;
    }
  }

  /** Under the default rule, absolute distance without a band, the pure module's winners are the
      unbeaten guesses too. */
  lemma PureVerdict(entries: seq<PrecisionEntry>, final: nat, i: nat)
    requires i < |entries|
    ensures ScoreWins(entries, i, final, DEFAULT_SCORING) <==>
              entries[i].revealed && forall j :: 0 <= j < |entries| && entries[j].revealed ==> AsClose(entries[i].price, entries[j].price, final)
  {
    var scores := seq(|entries|, j requires 0 <= j < |entries| =>
      if entries[j].price >= final then entries[j].price - final else final - entries[j].price);
    ScoringVerdict(entries, final, DEFAULT_SCORING, scores, i);
    forall j | 0 <= j < |entries|
      ensures scores[i] <= scores[j] <==> AsClose(entries[i].price, entries[j].price, final)
    {
    }
  }
}
