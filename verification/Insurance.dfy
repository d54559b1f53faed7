/** What the insurance fund pays when a round is cancelled, worked out from the recorded stakes,
    the configured rate and the fund alone. */
module Insurance {
  import opened Types
  import opened Arith
  import opened Sums
  import opened Shares
  import opened Engine
  import opened Ledger
  import opened Books
  import opened Invariants
  import opened Steps
  import opened Records

  /** The configured rate of each participant's stake, rounded down. */
  function Rates(b: Book, round: nat, users: seq<Address>, bps: nat): seq<int> {
    seq(|users|, i requires 0 <= i < |users| => StakeAt(b, Key(round, users[i])) * bps / 10_000)
  }

  /** What the fund owes for a cancellation: nothing unless the reason is an insured event. */
  function Owed(s: State, round: nat, reason: nat): int {
    if 1 <= reason <= 3 && reason - 1 in s.cfg.insuredEvents
    then Sum(Rates(s.book, round, ParticipantsOf(s, round), s.cfg.insuranceCoverageBps))
    else 0
  }

  /** The fund pays what it owes, or all it has. */
  function FundPays(s: State, round: nat, reason: nat): int {
    if Owed(s, round, reason) <= s.fund then Owed(s, round, reason) else s.fund
  }

  lemma {:induction false} CoverageTotalIs(stakes: seq<int>, bps: nat, rates: seq<int>)
    requires CoverageTotal(stakes, bps).Ok? && |rates| == |stakes|
    requires forall i :: 0 <= i < |stakes| ==> stakes[i] > 0 && rates[i] == stakes[i] * bps / 10_000
    ensures CoverageTotal(stakes, bps).value == Sum(rates)
  {
    if stakes != [] {
      var n := |stakes| - 1;
      CoverageTotalIs(stakes[..n], bps, rates[..n]);
      RateIs(stakes[n], bps);
    }
  }

  lemma RateIs(stake: int, bps: nat)
    requires stake > 0 && CoverageAmount(stake, bps).Ok?
    ensures CoverageAmount(stake, bps).value == stake * bps / 10_000
  {
    if bps == 0 { assert stake * bps == 0; } else { MulBound(stake, bps, stake, bps); }
  }

  lemma RatesNonNegative(b: Book, round: nat, users: seq<Address>, bps: nat)
    requires forall u :: u in users ==> StakeAt(b, Key(round, u)) > 0
    ensures AllNonNegative(Rates(b, round, users, bps)) && Sum(Rates(b, round, users, bps)) >= 0
  {
    forall i | 0 <= i < |users| ensures StakeAt(b, Key(round, users[i])) * bps / 10_000 >= 0 {
      MulBound(StakeAt(b, Key(round, users[i])), bps, StakeAt(b, Key(round, users[i])), bps);
    }
    SumNonNegative(Rates(b, round, users, bps));
  }

  lemma CoverageSplits(users: seq<Address>, stakes: seq<int>, bps: nat, fund: int, i: nat)
    requires |users| == |stakes| && i < |users| && Distinct(users) && fund >= 0 && bps <= BPS_DENOMINATOR
    requires (forall j :: 0 <= j < |stakes| ==> stakes[j] > 0) && Sum(stakes) <= I128_MAX
    requires Coverage(users, stakes, bps, fund).Ok?
    ensures CoverageTotal(stakes, bps).Ok? && Sum(stakes) > 0
    ensures var total, cover := CoverageTotal(stakes, bps).value, Coverage(users, stakes, bps, fund).value;
            && cover.spent == (if total <= fund then total else fund)
            && IsFloor(CreditedTo(cover.credits, users[i]), cover.spent * stakes[i], Sum(stakes))
  {
    SumNonNegative(stakes);
    CoverageTotalBound(stakes, bps);
    StakeTotalIs(stakes);
    var total, spent := Sum(stakes), Coverage(users, stakes, bps, fund).value.spent;
    if spent > 0 {
      OwnCover(users, stakes, total, spent, i);
      ShareIsFloor(stakes[i], total, spent);
    }
  }

  lemma ShareIsFloor(stake: int, total: int, pool: int)
    requires stake > 0 && total > 0 && pool >= 0
    ensures IsFloor(Share(stake, total, pool), pool * stake, total)
  {
    MulBound(stake, pool, stake, pool);
    assert pool * stake == stake * pool;
    QuotIsFloor(stake * pool, total);
  }

  lemma NoRates(b: Book, round: nat, users: seq<Address>)
    ensures Sum(Rates(b, round, users, 0)) == 0
  {
    forall i | 0 <= i < |users| ensures StakeAt(b, Key(round, users[i])) * 0 / 10_000 == 0 { }
    SumConstant(Rates(b, round, users, 0), 0);
  }

  /** What the fund pays, and how it is divided among the participants. */
  lemma CoverIs(s: State, round: nat, users: seq<Address>, outcomes: seq<UserRoundOutcome>, reason: nat, i: nat)
    requires ValidConfig(s.cfg) && s.fund >= 0 && Distinct(users) && users == ParticipantsOf(s, round) && i < |users|
    requires AlignedReturns(s.book, round, users, Void, outcomes) && Paid(outcomes) <= I128_MAX
    requires CancelCover(s, users, StakesOf(outcomes), reason).Ok?
    ensures var cover := CancelCover(s, users, StakesOf(outcomes), reason).value;
            && cover.spent == FundPays(s, round, reason)
            && Sum(StakesOf(outcomes)) > 0
            && IsFloor(CreditedTo(cover.credits, users[i]), cover.spent * StakeAt(s.book, Key(round, users[i])), Sum(StakesOf(outcomes)))
  {
    var bps, stakes := s.cfg.insuranceCoverageBps, StakesOf(outcomes);
    assert stakes == Payouts(outcomes);
    SumNonNegative(stakes);
    assert stakes[i] > 0;
    if Insured(s.cfg, reason) {
      CoverageSplits(users, stakes, bps, s.fund, i);
      CoverageTotalIs(stakes, bps, Rates(s.book, round, users, bps));
    } else {
      NoRates(s.book, round, users);
    }
  }

  /** The fund falls by what it pays; the participant's pending winnings grow by the own stake and
      by the part of the payment in proportion to it, rounded down. */
  ghost predicate CoverPaid(s: State, t: State, id: nat, reason: nat, u: Address) {
    var stake, all := StakeAt(s.book, Key(id, u)), SumMap(RoundRecorded(s.book, id));
    && t.fund == s.fund - FundPays(s, id, reason)
    && all > 0
    && IsFloor(PendingOf(t.purse, u) - PendingOf(s.purse, u) - stake, FundPays(s, id, reason) * stake, all)
  }

  /** An insured cancellation pays out of the fund exactly the rates of all recorded stakes, each
      rounded down, or all the fund holds if that is less, and every participant gets on top of
      the own stake the part of it in proportion to that stake, rounded down. A cancellation for
      any other reason leaves the fund alone and pays nothing on top. */
  lemma CancellationCover(s: State, reason: nat, u: Address)
    requires Inv(s) && s.minted <= I128_MAX && CancelRound(s, reason).Ok? && u in ParticipantsOf(s, s.active.value.id)
    ensures CoverPaid(s, CancelRound(s, reason).value, s.active.value.id, reason, u)
  {
    var rd := s.active.value;
    var users := ParticipantsOf(s, rd.id);
    var outcomes := Returns(s.book, rd, users, Void, false);
    var cover := CancelParts(s, reason, u);
    var i :| 0 <= i < |users| && users[i] == u;
    CoverIs(s, rd.id, users, outcomes, reason, i);
    PaidAsCover(s, CancelRound(s, reason).value, rd.id, reason, u, cover.spent, CreditedTo(cover.credits, u), Sum(StakesOf(outcomes)));
  }

  lemma PaidAsCover(s: State, t: State, id: nat, reason: nat, u: Address, spent: int, extra: int, all: int)
    requires t.fund == s.fund - spent && spent == FundPays(s, id, reason)
    requires PendingOf(t.purse, u) == PendingOf(s.purse, u) + StakeAt(s.book, Key(id, u)) + extra
    requires all == SumMap(RoundRecorded(s.book, id)) > 0 && IsFloor(extra, spent * StakeAt(s.book, Key(id, u)), all)
    ensures CoverPaid(s, t, id, reason, u)
  {
    assert extra == PendingOf(t.purse, u) - PendingOf(s.purse, u) - StakeAt(s.book, Key(id, u));
  }

  /** Where the pending winnings of a cancelled round come from. */
  lemma CancelParts(s: State, reason: nat, u: Address) returns (cover: Cover)
    requires Inv(s) && s.minted <= I128_MAX && CancelRound(s, reason).Ok? && u in ParticipantsOf(s, s.active.value.id)
    ensures var rd := s.active.value;
            var users := ParticipantsOf(s, rd.id);
            var outcomes := Returns(s.book, rd, users, Void, false);
            && Distinct(users) && AlignedReturns(s.book, rd.id, users, Void, outcomes)
            && Paid(outcomes) == Sum(StakesOf(outcomes)) == SumMap(RoundRecorded(s.book, rd.id)) <= I128_MAX
            && CancelCover(s, users, StakesOf(outcomes), reason) == Ok(cover)
    ensures var t := CancelRound(s, reason).value;
            && t.fund == s.fund - cover.spent
            && PendingOf(t.purse, u) == PendingOf(s.purse, u) + StakeAt(s.book, Key(s.active.value.id, u)) + CreditedTo(cover.credits, u)
  {
    var rd := s.active.value;
    ReturnedStakes(s, rd);
    cover := CancelPurse(s, rd, reason, u);
    PaidBack(s, rd, Void, false, u);
  }

  lemma ReturnedStakes(s: State, rd: Round)
    requires Inv(s) && s.minted <= I128_MAX && IsLive(s, rd)
    ensures var users := ParticipantsOf(s, rd.id);
            var outcomes := Returns(s.book, rd, users, Void, false);
            && Distinct(users) && AlignedReturns(s.book, rd.id, users, Void, outcomes)
            && Paid(outcomes) == Sum(StakesOf(outcomes)) == SumMap(RoundRecorded(s.book, rd.id)) <= I128_MAX
  {
    ParticipantsAre(s, rd.id);
    ReturnsAreStakes(s.book, s.startLedgers, s.lastRoundId, rd, ParticipantsOf(s, rd.id));
    RoundBelowMinted(s, rd.id);
  }

  lemma ReturnsAreStakes(b: Book, startLedgers: map<nat, nat>, last: nat, rd: Round, users: seq<Address>)
    requires StakesOk(b) && RoundOk(b, startLedgers, last, rd) && Members(b, rd.id, users)
    ensures var outcomes := Returns(b, rd, users, Void, false);
            && AlignedReturns(b, rd.id, users, Void, outcomes)
            && Paid(outcomes) == Sum(StakesOf(outcomes)) == SumMap(RoundRecorded(b, rd.id))
  {
    ReturnsAligned(b, startLedgers, last, rd, users, Void, false);
    PotIsRecorded(b, startLedgers, last, rd, users);
    assert StakesOf(Returns(b, rd, users, Void, false)) == Payouts(Returns(b, rd, users, Void, false));
  }

  lemma RoundBelowMinted(s: State, id: nat)
    requires Inv(s)
    ensures SumMap(RoundRecorded(s.book, id)) <= s.minted
  {
    PartsBelowMinted(s);
  }

  lemma CancelPurse(s: State, rd: Round, reason: nat, u: Address) returns (cover: Cover)
    requires s.active == Some(rd) && CancelRound(s, reason).Ok?
    ensures var users := ParticipantsOf(s, rd.id);
            var outcomes := Returns(s.book, rd, users, Void, false);
            var t := CancelRound(s, reason).value;
            && CancelCover(s, users, StakesOf(outcomes), reason) == Ok(cover) && PayOut(s, rd.id, outcomes).Ok?
            && t.fund == s.fund - cover.spent
            && PendingOf(t.purse, u) == PendingOf(PayOut(s, rd.id, outcomes).value.purse, u) + CreditedTo(cover.credits, u)
  {
    var outcomes := Returns(s.book, rd, ParticipantsOf(s, rd.id), Void, false);
    cover := CancelCover(s, ParticipantsOf(s, rd.id), StakesOf(outcomes), reason).value;
    EachIsCredited(PayOut(s, rd.id, outcomes).value.purse, s.cfg.maxPending, s.now, cover.credits, u);
  }
}
