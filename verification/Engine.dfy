/** What settling one round pays: the results of the live settlement loops in
    contracts/src/settlement.rs, as a function of the round's stakes in address order. */
module Engine {
  import opened Types
  import opened Arith
  import opened Sums
  import opened Shares
  import opened Fees

  datatype UpDownStake = UpDownStake(user: Address, amount: int, side: BetSide)

  /** `price` is 0 for a commitment that was never revealed. */
  datatype PrecisionStake = PrecisionStake(user: Address, amount: int, price: nat, revealed: bool)

  datatype Settlement = Settlement(fee: int, outcomes: seq<UserRoundOutcome>)

  function Payouts(outcomes: seq<UserRoundOutcome>): seq<int> {
    seq(|outcomes|, i requires 0 <= i < |outcomes| => outcomes[i].payout)
  }

  function Paid(outcomes: seq<UserRoundOutcome>): int {
    Sum(Payouts(outcomes))
  }

  /** Wins, refunds and voids are credited to the user; losses are not. */
  function Credits(outcomes: seq<UserRoundOutcome>): seq<Credit> {
    if outcomes == [] then []
    else
      var o := outcomes[|outcomes| - 1];
      Credits(outcomes[..|outcomes| - 1]) + if o.kind.Loss? then [] else [Credit(o.user, o.payout)]
  }

  // ----- Up/Down rounds -----

  /** Exactly one pool is empty. */
  predicate OneSided(poolUp: int, poolDown: int) {
    (poolUp == 0) != (poolDown == 0)
  }

  /** `compute_updown_winner_payout` */
  function WinnerPayout(stake: int, winningPool: int, distributable: int): Result<int> {
    if winningPool == 0 then Ok(0)
    else
      var product :- Checked(stake * distributable, PayoutOverflow);
      Ok(Quot(product, winningPool))
  }

  function UpDownOutcome(e: UpDownStake, payout: int, kind: OutcomeKind): UserRoundOutcome {
    UserRoundOutcome(e.user, UpDown, Some(e.side), 0, e.amount, payout, kind)
  }

  /** Everybody gets exactly the recorded stake back. */
  function UpDownReturns(es: seq<UpDownStake>, kind: OutcomeKind): seq<UserRoundOutcome> {
    seq(|es|, i requires 0 <= i < |es| => UpDownOutcome(es[i], es[i].amount, kind))
  }

  predicate UpDownPayable(es: seq<UpDownStake>, side: BetSide, pool: int, distributable: int) {
    forall i | 0 <= i < |es| && es[i].side == side :: WinnerPayout(es[i].amount, pool, distributable).Ok?
  }

  function WinOrLose(e: UpDownStake, side: BetSide, pool: int, distributable: int): UserRoundOutcome
    requires e.side == side ==> WinnerPayout(e.amount, pool, distributable).Ok?
  {
    if e.side == side then UpDownOutcome(e, WinnerPayout(e.amount, pool, distributable).value, Win)
    else UpDownOutcome(e, 0, Loss)
  }

  function Competition(es: seq<UpDownStake>, side: BetSide, pool: int, distributable: int): seq<UserRoundOutcome>
    requires UpDownPayable(es, side, pool, distributable)
  {
    seq(|es|, i requires 0 <= i < |es| => WinOrLose(es[i], side, pool, distributable))
  }

  /** `_record_winnings_indexed`: winners share all that is left after the fee. */
  function SettleCompetition(
    es: seq<UpDownStake>, side: BetSide, winning: int, losing: int, terms: FeeTerms): Result<Settlement>
  {
    if winning == 0 then Ok(Settlement(0, []))
    else
      var split :- UpDownFee(terms, winning, losing);
      var distributable :- Checked(split.winning + split.losing, PayoutOverflow);
      if UpDownPayable(es, side, winning, distributable)
      then Ok(Settlement(split.fee, Competition(es, side, winning, distributable)))
      else Err(PayoutOverflow)
  }

  /** `_resolve_updown_mode` */
  function SettleUpDown(
    es: seq<UpDownStake>, start: nat, final: nat, poolUp: int, poolDown: int, terms: FeeTerms): Result<Settlement>
  {
    if es == [] then Ok(Settlement(0, []))
    else if OneSided(poolUp, poolDown) || final == start then Ok(Settlement(0, UpDownReturns(es, Refund)))
    else if final > start then SettleCompetition(es, Up, poolUp, poolDown, terms)
    else SettleCompetition(es, Down, poolDown, poolUp, terms)
  }

  function SideAmount(e: UpDownStake, side: BetSide): int {
    if e.side == side then e.amount else 0
  }

  function SideAmounts(es: seq<UpDownStake>, side: BetSide): seq<int> {
    seq(|es|, i requires 0 <= i < |es| => SideAmount(es[i], side))
  }

  function SideTotal(es: seq<UpDownStake>, side: BetSide): int {
    Sum(SideAmounts(es, side))
  }

  function UpDownAmounts(es: seq<UpDownStake>): seq<int> {
    seq(|es|, i requires 0 <= i < |es| => es[i].amount)
  }

  ghost predicate PositiveUpDown(es: seq<UpDownStake>) {
    forall i :: 0 <= i < |es| ==> es[i].amount > 0
  }

  function CountWins(outcomes: seq<UserRoundOutcome>): nat {
    if outcomes == [] then 0
    else CountWins(outcomes[..|outcomes| - 1]) + if outcomes[|outcomes| - 1].kind.Win? then 1 else 0
  }

  lemma {:induction false} SidesAddUp(es: seq<UpDownStake>)
    ensures SideTotal(es, Up) + SideTotal(es, Down) == Sum(UpDownAmounts(es))
  {
    if es != [] {
      var p := es[..|es| - 1];
      SidesAddUp(p);
      assert SideAmounts(es, Up)[..|p|] == SideAmounts(p, Up);
      assert SideAmounts(es, Down)[..|p|] == SideAmounts(p, Down);
      assert UpDownAmounts(es)[..|p|] == UpDownAmounts(p);
    }
  }

  lemma {:induction false} WinsAreWinningStakes(
    es: seq<UpDownStake>, side: BetSide, pool: int, distributable: int)
    requires PositiveUpDown(es) && UpDownPayable(es, side, pool, distributable)
    ensures CountWins(Competition(es, side, pool, distributable)) == Positive(SideAmounts(es, side))
  {
    if es != [] {
      var p := es[..|es| - 1];
      WinsAreWinningStakes(p, side, pool, distributable);
      assert Competition(es, side, pool, distributable)[..|p|] == Competition(p, side, pool, distributable);
      assert SideAmounts(es, side)[..|p|] == SideAmounts(p, side);
    }
  }

  /** Settling a competitive round pays at most the pot minus the fee, and keeps back less
      than one unit per winner. */
  lemma CompetitionConserves(
    es: seq<UpDownStake>, side: BetSide, winning: int, losing: int, terms: FeeTerms)
    requires PositiveUpDown(es) && ValidFeeBps(terms.bps)
    requires winning == SideTotal(es, side) > 0 && losing >= 0
    requires SettleCompetition(es, side, winning, losing, terms).Ok?
    ensures var st := SettleCompetition(es, side, winning, losing, terms).value;
            && st.fee >= 0
            && |st.outcomes| == |es|
            && AllNonNegative(Payouts(st.outcomes))
            && 0 <= winning + losing - st.fee - Paid(st.outcomes) < CountWins(st.outcomes)
  {
    UpDownFeeConserves(terms, winning, losing);
    var split := UpDownFee(terms, winning, losing).value;
    var d := split.winning + split.losing;
    CompetitionPays(es, side, winning, d);
  }

  lemma CompetitionPays(es: seq<UpDownStake>, side: BetSide, pool: int, distributable: int)
    requires PositiveUpDown(es) && pool == SideTotal(es, side) > 0 && distributable >= 0
    requires UpDownPayable(es, side, pool, distributable)
    ensures var outcomes := Competition(es, side, pool, distributable);
            && AllNonNegative(Payouts(outcomes))
            && 0 <= distributable - Paid(outcomes) < CountWins(outcomes)
  {
    SharesOfWhole(SideAmounts(es, side), pool, distributable);
    WinsAreWinningStakes(es, side, pool, distributable);
    forall i | 0 <= i < |es|
      ensures Payouts(Competition(es, side, pool, distributable))[i]
           == SharesOf(SideAmounts(es, side), pool, distributable)[i]
    {
      assert 0 * distributable == 0;
    }
    assert Payouts(Competition(es, side, pool, distributable)) == SharesOf(SideAmounts(es, side), pool, distributable);
  }

  /** The stake list of an Up/Down round agrees with the round's cached pools. */
  ghost predicate UpDownBooked(es: seq<UpDownStake>, poolUp: int, poolDown: int) {
    && PositiveUpDown(es)
    && poolUp == SideTotal(es, Up)
    && poolDown == SideTotal(es, Down)
  }

  lemma BookedPools(es: seq<UpDownStake>, poolUp: int, poolDown: int)
    requires UpDownBooked(es, poolUp, poolDown)
    ensures poolUp >= 0 && poolDown >= 0
    ensures es != [] ==> poolUp + poolDown > 0
    ensures poolUp + poolDown == Sum(UpDownAmounts(es))
    ensures AllNonNegative(UpDownAmounts(es))
  {
    SumNonNegative(SideAmounts(es, Up));
    SumNonNegative(SideAmounts(es, Down));
    SumNonNegative(UpDownAmounts(es));
    SidesAddUp(es);
    if es != [] { assert UpDownAmounts(es)[0] > 0; }
  }

  /** Rounding over a whole Up/Down settlement: the fee, the payouts and less than one unit
      per winner make up the pot; a refund is exact and free. */
  lemma UpDownConserves(
    es: seq<UpDownStake>, start: nat, final: nat, poolUp: int, poolDown: int, terms: FeeTerms)
    requires UpDownBooked(es, poolUp, poolDown) && ValidFeeBps(terms.bps)
    requires SettleUpDown(es, start, final, poolUp, poolDown, terms).Ok?
    ensures var st := SettleUpDown(es, start, final, poolUp, poolDown, terms).value;
            && st.fee >= 0
            && |st.outcomes| == |es|
            && (forall i :: 0 <= i < |es| ==> st.outcomes[i].user == es[i].user && st.outcomes[i].stake == es[i].amount)
            && AllNonNegative(Payouts(st.outcomes))
            && (forall i :: 0 <= i < |es| && st.outcomes[i].kind.Loss? ==> st.outcomes[i].payout == 0)
            && (if es == [] || OneSided(poolUp, poolDown) || final == start
                then poolUp + poolDown - st.fee == Paid(st.outcomes) && st.fee == 0
                else 0 <= poolUp + poolDown - st.fee - Paid(st.outcomes) < CountWins(st.outcomes))
  {
    BookedPools(es, poolUp, poolDown);
    if es == [] || OneSided(poolUp, poolDown) || final == start {
      assert Payouts(UpDownReturns(es, Refund)) == UpDownAmounts(es);
    } else if final > start {
      CompetitionConserves(es, Up, poolUp, poolDown, terms);
    } else {
      CompetitionConserves(es, Down, poolDown, poolUp, terms);
    }
  }

  /** Under FeeOnWinnings a winner never gets less than the stake; under either model at
      least nine tenths of it. */
  lemma UpDownWinnerFloor(
    es: seq<UpDownStake>, side: BetSide, winning: int, losing: int, terms: FeeTerms, i: nat)
    requires PositiveUpDown(es) && ValidFeeBps(terms.bps)
    requires winning == SideTotal(es, side) > 0 && losing >= 0
    requires SettleCompetition(es, side, winning, losing, terms).Ok?
    requires i < |es| && es[i].side == side
    ensures var o := SettleCompetition(es, side, winning, losing, terms).value.outcomes[i];
            && o.kind == Win
            && o.payout >= (9 * es[i].amount) / 10
            && (terms.model.FeeOnWinnings? ==> o.payout >= es[i].amount)
  {
    UpDownFeeConserves(terms, winning, losing);
    var split := UpDownFee(terms, winning, losing).value;
    ShareFloor(es[i].amount, winning, split.winning + split.losing, 9, 10);
    if terms.model.FeeOnWinnings? {
      ShareFloor(es[i].amount, winning, split.winning + split.losing, 1, 1);
    }
  }

  // ----- Precision rounds -----

  /** A revealed prediction at minimal distance wins. */
  predicate Wins(es: seq<PrecisionStake>, i: nat, final: nat)
    requires i < |es|
  {
    && es[i].revealed
    && forall j | 0 <= j < |es| && es[j].revealed ::
         Distance(es[i].price, final) <= Distance(es[j].price, final)
  }

  /** The winning positions below `n`, in ascending order. */
  function WinnersBelow(es: seq<PrecisionStake>, final: nat, n: nat): seq<nat>
    requires n <= |es|
  {
    if n == 0 then []
    else WinnersBelow(es, final, n - 1) + if Wins(es, n - 1, final) then [n - 1] else []
  }

  function Winners(es: seq<PrecisionStake>, final: nat): seq<nat> {
    WinnersBelow(es, final, |es|)
  }

  function PrecisionAmounts(es: seq<PrecisionStake>): seq<int> {
    seq(|es|, i requires 0 <= i < |es| => es[i].amount)
  }

  function AmountsAt(es: seq<PrecisionStake>, idx: seq<nat>): seq<int>
    requires forall j :: 0 <= j < |idx| ==> idx[j] < |es|
  {
    seq(|idx|, i requires 0 <= i < |idx| => es[idx[i]].amount)
  }

  /** Accumulation with `payout_add`. */
  function CheckedSum(s: seq<int>): Result<int> {
    if s == [] then Ok(0)
    else
      var partial :- CheckedSum(s[..|s| - 1]);
      Checked(partial + s[|s| - 1], PayoutOverflow)
  }

  /** The payouts before the remainder is assigned. */
  function BasePayouts(amounts: seq<int>, pool: int, policy: PayoutPolicy): Result<seq<int>> {
    match policy
    case Equal => Ok(seq(|amounts|, i requires 0 <= i < |amounts| => Quot(pool, |amounts|)))
    case StakeWeighted =>
      var total :- CheckedSum(amounts);
      if total <= 0 then Ok(seq(|amounts|, _ => 0))
      else if forall i | 0 <= i < |amounts| :: InI128(amounts[i] * pool) then Ok(SharesOf(amounts, total, pool))
      else Err(PayoutOverflow)
  }

  function WithRemainder(base: seq<int>, pool: int): (r: Result<seq<int>>)
    ensures r.Ok? ==> |r.value| == |base|
  {
    var paid :- CheckedSum(base);
    var remainder :- Checked(pool - paid, PayoutOverflow);
    if base == [] then Ok([])
    else
      var first :- Checked(base[0] + remainder, PayoutOverflow);
      Ok(base[0 := first])
  }

  /** `_calculate_precision_payouts`: the first winner takes the remainder. */
  function PrecisionPayouts(amounts: seq<int>, pool: int, policy: PayoutPolicy): (r: Result<seq<int>>)
    ensures r.Ok? ==> |r.value| == |amounts|
  {
    var base :- BasePayouts(amounts, pool, policy);
    WithRemainder(base, pool)
  }

  function PrecisionOutcome(e: PrecisionStake, payout: int, kind: OutcomeKind): UserRoundOutcome {
    UserRoundOutcome(e.user, Precision, None, e.price, e.amount, payout, kind)
  }

  function PrecisionReturns(es: seq<PrecisionStake>, kind: OutcomeKind, showPrice: bool): seq<UserRoundOutcome> {
    seq(|es|, i requires 0 <= i < |es| =>
      PrecisionOutcome(if showPrice then es[i] else es[i].(price := 0), es[i].amount, kind))
  }

  /** What position `i` gets: winners are paid in the order they appear. */
  function PrizeAt(es: seq<PrecisionStake>, final: nat, pays: seq<int>, i: nat): UserRoundOutcome
    requires i < |es|
  {
    if Wins(es, i, final) then
      var rank := |WinnersBelow(es, final, i)|;
      PrecisionOutcome(es[i], if rank < |pays| then pays[rank] else 0, Win)
    else PrecisionOutcome(es[i], 0, Loss)
  }

  function Prizes(es: seq<PrecisionStake>, final: nat, pays: seq<int>): seq<UserRoundOutcome> {
    seq(|es|, i requires 0 <= i < |es| => PrizeAt(es, final, pays, i))
  }

  lemma {:induction false} WinnersBelowFacts(es: seq<PrecisionStake>, final: nat, n: nat)
    requires n <= |es|
    ensures var w := WinnersBelow(es, final, n);
            && (forall k: nat :: k in w <==> k < n && Wins(es, k, final))
            && (forall j :: 0 <= j < |w| ==> w[j] < n)
            && Ascending(w) && Distinct(w)
    ensures |WinnersBelow(es, final, n)| <= n
  {
    if n > 0 { WinnersBelowFacts(es, final, n - 1); }
  }

  lemma WinnersInRange(es: seq<PrecisionStake>, final: nat)
    ensures var w := Winners(es, final); forall j :: 0 <= j < |w| ==> w[j] < |es|
  {
    WinnersBelowFacts(es, final, |es|);
  }

  /** `_resolve_precision_mode` */
  function SettlePrecision(
    es: seq<PrecisionStake>, final: nat, terms: FeeTerms, policy: PayoutPolicy): Result<Settlement>
  {
    var pot :- CheckedSum(PrecisionAmounts(es));
    var winners := Winners(es, final);
    WinnersInRange(es, final);
    if winners != [] && pot > 0 then
      var stakes := AmountsAt(es, winners);
      var winnerStakes :- CheckedSum(stakes);
      var split :- PrecisionFee(terms, pot, winnerStakes);
      var pays :- PrecisionPayouts(stakes, split.distributable, policy);
      Ok(Settlement(split.fee, Prizes(es, final, pays)))
    else if pot > 0 then Ok(Settlement(0, PrecisionReturns(es, Refund, false)))
    else Ok(Settlement(0, []))
  }

  ghost predicate PositivePrecision(es: seq<PrecisionStake>) {
    forall i :: 0 <= i < |es| ==> es[i].amount > 0
  }

  lemma {:induction false} CheckedSumIs(s: seq<int>)
    ensures CheckedSum(s).Ok? ==> CheckedSum(s).value == Sum(s)
    ensures CheckedSum(s).Err? ==> CheckedSum(s).error == PayoutOverflow
    ensures AllNonNegative(s) ==> (CheckedSum(s).Ok? <==> Sum(s) <= I128_MAX)
  {
    if s != [] {
      CheckedSumIs(s[..|s| - 1]);
      if AllNonNegative(s) { SumNonNegative(s[..|s| - 1]); }
    }
  }

  /** Some revealed prediction is closest, so somebody wins exactly when somebody revealed. */
  lemma {:induction false} ClosestExists(es: seq<PrecisionStake>, final: nat)
    ensures Winners(es, final) != [] <==> exists i :: 0 <= i < |es| && es[i].revealed
  {
    WinnersBelowFacts(es, final, |es|);
    if exists i :: 0 <= i < |es| && es[i].revealed {
      var best := ClosestBelow(es, final, |es|);
      assert best in Winners(es, final);
    } else if Winners(es, final) != [] {
      assert Winners(es, final)[0] in Winners(es, final);
    }
  }

  lemma {:induction false} ClosestBelow(es: seq<PrecisionStake>, final: nat, n: nat) returns (best: nat)
    requires n <= |es| && exists i :: 0 <= i < n && es[i].revealed
    ensures best < n && es[best].revealed
    ensures forall j :: 0 <= j < n && es[j].revealed ==> Distance(es[best].price, final) <= Distance(es[j].price, final)
  {
    if exists i :: 0 <= i < n - 1 && es[i].revealed {
      best := ClosestBelow(es, final, n - 1);
      if es[n - 1].revealed && Distance(es[n - 1].price, final) < Distance(es[best].price, final) {
        best := n - 1;
      }
    } else {
      best := n - 1;
    }
  }

  /** The remainder the first winner takes is smaller than the number of winners, and with it
      the payouts add up to the pool. */
  lemma PrecisionPayoutsExact(amounts: seq<int>, pool: int, policy: PayoutPolicy)
    requires amounts != [] && pool >= 0
    requires forall i :: 0 <= i < |amounts| ==> amounts[i] > 0
    requires PrecisionPayouts(amounts, pool, policy).Ok?
    ensures var base := BasePayouts(amounts, pool, policy).value;
            var pays := PrecisionPayouts(amounts, pool, policy).value;
            && |base| == |amounts|
            && 0 <= pool - Sum(base) < |amounts|
            && pays == base[0 := base[0] + (pool - Sum(base))]
            && AllNonNegative(base)
            && Sum(pays) == pool
  {
    var base := BasePayouts(amounts, pool, policy).value;
    CheckedSumIs(base);
    CheckedSumIs(amounts);
    SumNonNegative(amounts);
    assert amounts[0] > 0;
    if policy.Equal? {
      FloorBounds(pool, |amounts|);
      SumConstant(base, Quot(pool, |amounts|));
    } else {
      SharesOfWhole(amounts, Sum(amounts), pool);
      PositiveSome(amounts);
    }
    SumChangeFirst(base, base[0] + (pool - Sum(base)));
  }

  lemma {:induction false} SumConstant(s: seq<int>, c: int)
    requires forall i :: 0 <= i < |s| ==> s[i] == c
    ensures Sum(s) == |s| * c
  {
    if s != [] {
      SumConstant(s[..|s| - 1], c);
      assert |s| * c == (|s| - 1) * c + c;
    }
  }

  lemma SumChangeFirst(s: seq<int>, x: int)
    requires s != []
    ensures Sum(s[0 := x]) == Sum(s) + x - s[0]
  {
    SumConcat([s[0]], s[1..]);
    SumConcat([x], s[1..]);
    assert s == [s[0]] + s[1..];
    assert s[0 := x] == [x] + s[1..];
    assert [x][..0] == [] && [s[0]][..0] == [];
  }

  /** The payouts handed out along the participant list add up to the payouts computed. */
  lemma {:induction false} PrizesPaid(es: seq<PrecisionStake>, final: nat, pays: seq<int>, n: nat)
    requires n <= |es| && |pays| == |Winners(es, final)|
    ensures |WinnersBelow(es, final, n)| <= |pays|
    ensures Sum(Payouts(Prizes(es, final, pays))[..n]) == Sum(pays[..|WinnersBelow(es, final, n)|])
  {
    WinnersGrow(es, final, n);
    if n > 0 {
      PrizesPaid(es, final, pays, n - 1);
      WinnersGrow(es, final, n - 1);
      var p := Payouts(Prizes(es, final, pays));
      assert p[..n] == p[..n - 1] + [p[n - 1]];
      SumSnoc(p[..n - 1], p[n - 1]);
      var r := |WinnersBelow(es, final, n - 1)|;
      if Wins(es, n - 1, final) {
        assert pays[..r + 1] == pays[..r] + [pays[r]];
        SumSnoc(pays[..r], pays[r]);
      }
    }
  }

  lemma {:induction false} WinnersGrow(es: seq<PrecisionStake>, final: nat, n: nat)
    requires n <= |es|
    ensures WinnersBelow(es, final, n) <= Winners(es, final)
    decreases |es| - n
  {
    if n < |es| { WinnersGrow(es, final, n + 1); }
  }

  /** Some of the stakes are no more than all of them. */
  lemma {:induction false} PartBelowWhole(es: seq<PrecisionStake>, idx: seq<nat>, n: nat)
    requires n <= |es| && PositivePrecision(es) && Ascending(idx) && Distinct(idx)
    requires forall j :: 0 <= j < |idx| ==> idx[j] < n
    ensures 0 <= Sum(AmountsAt(es, idx)) <= Sum(PrecisionAmounts(es)[..n])
  {
    var a := PrecisionAmounts(es);
    if n > 0 {
      assert a[..n] == a[..n - 1] + [a[n - 1]];
      SumSnoc(a[..n - 1], a[n - 1]);
      if idx != [] && idx[|idx| - 1] == n - 1 {
        var front := idx[..|idx| - 1];
        PartBelowWhole(es, front, n - 1);
        assert AmountsAt(es, idx) == AmountsAt(es, front) + [a[n - 1]];
        SumSnoc(AmountsAt(es, front), a[n - 1]);
      } else {
        PartBelowWhole(es, idx, n - 1);
      }
    }
  }

  lemma WinnerStakesBelowPot(es: seq<PrecisionStake>, final: nat)
    requires PositivePrecision(es)
    ensures var w := Winners(es, final);
            && (forall j :: 0 <= j < |w| ==> w[j] < |es|)
            && 0 <= Sum(AmountsAt(es, w)) <= Sum(PrecisionAmounts(es))
  {
    WinnersBelowFacts(es, final, |es|);
    PartBelowWhole(es, Winners(es, final), |es|);
    assert PrecisionAmounts(es)[..|es|] == PrecisionAmounts(es);
  }

  /** How the pot of a round with a winner is divided. */
  lemma PotDivided(es: seq<PrecisionStake>, final: nat, terms: FeeTerms, policy: PayoutPolicy)
    returns (pool: int, base: seq<int>, pays: seq<int>)
    requires PositivePrecision(es) && ValidFeeBps(terms.bps)
    requires SettlePrecision(es, final, terms, policy).Ok? && Winners(es, final) != []
    ensures var w := Winners(es, final);
            && (forall j :: 0 <= j < |w| ==> w[j] < |es|)
            && BasePayouts(AmountsAt(es, w), pool, policy) == Ok(base)
            && |base| == |pays| == |w|
            && (policy.StakeWeighted? && terms.model.FeeOnWinnings? ==>
                  forall j :: 0 <= j < |w| ==> base[j] >= es[w[j]].amount)
    ensures 0 <= pool <= Sum(PrecisionAmounts(es))
    ensures SettlePrecision(es, final, terms, policy).value
         == Settlement(Sum(PrecisionAmounts(es)) - pool, Prizes(es, final, pays))
    ensures AllNonNegative(base) && 0 <= pool - Sum(base) < |base|
    ensures pays == base[0 := base[0] + (pool - Sum(base))] && Sum(pays) == pool
  {
    var amounts := PrecisionAmounts(es);
    CheckedSumIs(amounts);
    SumNonNegative(amounts);
    WinnersInRange(es, final);
    var winners := Winners(es, final);
    assert amounts[winners[0]] > 0;
    var stakes := AmountsAt(es, winners);
    CheckedSumIs(stakes);
    WinnerStakesBelowPot(es, final);
    PrecisionFeeConserves(terms, Sum(amounts), Sum(stakes));
    pool := PrecisionFee(terms, Sum(amounts), Sum(stakes)).value.distributable;
    PrecisionPayoutsExact(stakes, pool, policy);
    base := BasePayouts(stakes, pool, policy).value;
    pays := PrecisionPayouts(stakes, pool, policy).value;
    if policy.StakeWeighted? && terms.model.FeeOnWinnings? {
      WeightedFloor(stakes, pool);
    }
  }

  lemma WeightedFloor(amounts: seq<int>, pool: int)
    requires amounts != [] && (forall i :: 0 <= i < |amounts| ==> amounts[i] > 0)
    requires BasePayouts(amounts, pool, StakeWeighted).Ok? && pool >= Sum(amounts)
    ensures var base := BasePayouts(amounts, pool, StakeWeighted).value;
            |base| == |amounts| && forall i :: 0 <= i < |amounts| ==> base[i] >= amounts[i]
  {
    CheckedSumIs(amounts);
    SumNonNegative(amounts);
    assert amounts[0] > 0;
    var base := BasePayouts(amounts, pool, StakeWeighted).value;
    forall i | 0 <= i < |amounts| ensures base[i] >= amounts[i] {
      ShareFloor(amounts[i], Sum(amounts), pool, 1, 1);
    }
  }

  /** A Precision settlement is exact under both policies and both fee models: the payouts
      and the fee are the stakes, to the unit. If nobody revealed, every stake is returned
      and there is no fee. */
  lemma PrecisionConserves(es: seq<PrecisionStake>, final: nat, terms: FeeTerms, policy: PayoutPolicy)
    requires PositivePrecision(es) && ValidFeeBps(terms.bps)
    requires SettlePrecision(es, final, terms, policy).Ok?
    ensures var st := SettlePrecision(es, final, terms, policy).value;
            && st.fee >= 0
            && |st.outcomes| == |es|
            && (forall i :: 0 <= i < |es| ==> st.outcomes[i].user == es[i].user && st.outcomes[i].stake == es[i].amount)
            && AllNonNegative(Payouts(st.outcomes))
            && (forall i :: 0 <= i < |es| && st.outcomes[i].kind.Loss? ==> st.outcomes[i].payout == 0)
            && Paid(st.outcomes) + st.fee == Sum(PrecisionAmounts(es))
            && (!(exists i :: 0 <= i < |es| && es[i].revealed) ==>
                  && st.fee == 0
                  && forall i :: 0 <= i < |es| ==> st.outcomes[i].payout == es[i].amount && st.outcomes[i].kind == Refund)
  {
    ClosestExists(es, final);
    if Winners(es, final) != [] {
      var pool, base, pays := PotDivided(es, final, terms, policy);
      PrizesConserve(es, final, pays, pool);
    } else {
      NobodyClosestConserves(es, final, terms, policy);
    }
  }

  lemma PrizesConserve(es: seq<PrecisionStake>, final: nat, pays: seq<int>, pool: int)
    requires |pays| == |Winners(es, final)| && Sum(pays) == pool && AllNonNegative(pays)
    ensures Paid(Prizes(es, final, pays)) == pool && AllNonNegative(Payouts(Prizes(es, final, pays)))
  {
    PrizesPaid(es, final, pays, |es|);
    var p := Payouts(Prizes(es, final, pays));
    assert p[..|es|] == p && pays[..|pays|] == pays;
  }

  lemma NobodyClosestConserves(es: seq<PrecisionStake>, final: nat, terms: FeeTerms, policy: PayoutPolicy)
    requires PositivePrecision(es) && Winners(es, final) == [] && SettlePrecision(es, final, terms, policy).Ok?
    ensures SettlePrecision(es, final, terms, policy).value == Settlement(0, PrecisionReturns(es, Refund, false))
    ensures Payouts(PrecisionReturns(es, Refund, false)) == PrecisionAmounts(es)
    ensures AllNonNegative(PrecisionAmounts(es))
  {
    var amounts := PrecisionAmounts(es);
    CheckedSumIs(amounts);
    SumNonNegative(amounts);
    assert Payouts(PrecisionReturns(es, Refund, false)) == amounts;
    if es != [] {
      assert amounts[0] > 0;
    } else {
      assert PrecisionReturns(es, Refund, false) == [];
    }
  }

  /** Where a winner stands among the winners. */
  lemma RankOf(es: seq<PrecisionStake>, final: nat, i: nat)
    requires i < |es| && Wins(es, i, final)
    ensures var rank := |WinnersBelow(es, final, i)|;
            && rank < |Winners(es, final)| && Winners(es, final)[rank] == i
            && (rank == 0 <==> forall j :: 0 <= j < i ==> !Wins(es, j, final))
  {
    var rank := |WinnersBelow(es, final, i)|;
    WinnersGrow(es, final, i + 1);
    assert WinnersBelow(es, final, i + 1)[rank] == i;
    WinnersBelowFacts(es, final, i);
    if rank == 0 {
      forall j | 0 <= j < i ensures !Wins(es, j, final) { assert j !in WinnersBelow(es, final, i); }
    } else {
      assert WinnersBelow(es, final, i)[0] in WinnersBelow(es, final, i);
    }
  }

  /** With stakes listed by ascending address, the remainder goes to the winner with the
      lowest address, every other winner gets the rounded-down share, and a stake-weighted
      winner under FeeOnWinnings never gets less than the stake. */
  lemma PrecisionPrizes(es: seq<PrecisionStake>, final: nat, terms: FeeTerms, policy: PayoutPolicy, i: nat)
    returns (base: seq<int>, remainder: int, rank: nat)
    requires PositivePrecision(es) && ValidFeeBps(terms.bps)
    requires forall a, b :: 0 <= a < b < |es| ==> es[a].user < es[b].user
    requires SettlePrecision(es, final, terms, policy).Ok?
    requires i < |es| && Wins(es, i, final)
    ensures |base| == |Winners(es, final)| && rank < |base| && Winners(es, final)[rank] == i
    ensures rank == 0 <==> forall j :: 0 <= j < |es| && Wins(es, j, final) ==> es[i].user <= es[j].user
    ensures 0 <= remainder < |base|
    ensures var st := SettlePrecision(es, final, terms, policy).value;
            && Sum(base) + remainder + st.fee == Sum(PrecisionAmounts(es))
            && |st.outcomes| == |es| && st.outcomes[i].kind == Win
            && st.outcomes[i].payout == base[rank] + (if rank == 0 then remainder else 0)
            && (policy.Equal? ==> base[rank] == base[0])
            && (policy.StakeWeighted? && terms.model.FeeOnWinnings? ==> st.outcomes[i].payout >= es[i].amount)
  {
    RankOf(es, final, i);
    var pool, shares, pays := PotDivided(es, final, terms, policy);
    base, remainder, rank := shares, pool - Sum(shares), |WinnersBelow(es, final, i)|;
    if rank > 0 {
      var first :| 0 <= first < i && Wins(es, first, final);
      assert es[first].user < es[i].user;
    }
  }

  // ----- no overflow -----

  const MAX_POT: int := 0x8000_0000_0000_0000

  lemma ProductFits(a: int, b: int)
    requires 0 <= a < MAX_POT && 0 <= b < MAX_POT
    ensures InI128(a * b)
  {
    MulBound(a, b, MAX_POT, MAX_POT);
  }

  /** Stakes that add up to less than 2^63 settle without overflow. */
  lemma UpDownFits(
    es: seq<UpDownStake>, start: nat, final: nat, poolUp: int, poolDown: int, terms: FeeTerms)
    requires UpDownBooked(es, poolUp, poolDown) && ValidFeeBps(terms.bps)
    requires poolUp + poolDown < MAX_POT
    ensures SettleUpDown(es, start, final, poolUp, poolDown, terms).Ok?
  {
    BookedPools(es, poolUp, poolDown);
    if es != [] && !OneSided(poolUp, poolDown) && final != start {
      if final > start {
        CompetitionFits(es, Up, poolUp, poolDown, terms);
      } else {
        CompetitionFits(es, Down, poolDown, poolUp, terms);
      }
    }
  }

  lemma CompetitionFits(es: seq<UpDownStake>, side: BetSide, winning: int, losing: int, terms: FeeTerms)
    requires PositiveUpDown(es) && ValidFeeBps(terms.bps) && winning > 0 && losing >= 0
    requires winning + losing == Sum(UpDownAmounts(es)) < MAX_POT
    ensures SettleCompetition(es, side, winning, losing, terms).Ok?
  {
    FeesFit(terms, winning, losing);
    UpDownFeeConserves(terms, winning, losing);
    var split := UpDownFee(terms, winning, losing).value;
    PayableFits(es, side, winning, split.winning + split.losing);
  }

  lemma PayableFits(es: seq<UpDownStake>, side: BetSide, pool: int, distributable: int)
    requires PositiveUpDown(es) && Sum(UpDownAmounts(es)) < MAX_POT && 0 <= distributable < MAX_POT
    ensures UpDownPayable(es, side, pool, distributable)
  {
    SumNonNegative(UpDownAmounts(es));
    forall i | 0 <= i < |es| && es[i].side == side
      ensures WinnerPayout(es[i].amount, pool, distributable).Ok?
    {
      assert UpDownAmounts(es)[i] < MAX_POT;
      ProductFits(es[i].amount, distributable);
    }
  }

  lemma PrecisionFits(es: seq<PrecisionStake>, final: nat, terms: FeeTerms, policy: PayoutPolicy)
    requires PositivePrecision(es) && ValidFeeBps(terms.bps)
    requires Sum(PrecisionAmounts(es)) < MAX_POT
    ensures SettlePrecision(es, final, terms, policy).Ok?
  {
    var amounts := PrecisionAmounts(es);
    CheckedSumIs(amounts);
    WinnersBelowFacts(es, final, |es|);
    var winners := Winners(es, final);
    if winners != [] && Sum(amounts) > 0 {
      var stakes := AmountsAt(es, winners);
      CheckedSumIs(stakes);
      WinnerStakesBelowPot(es, final);
      FeesFit(terms, Sum(stakes), Sum(amounts) - Sum(stakes));
      PrecisionFeeConserves(terms, Sum(amounts), Sum(stakes));
      PayoutsFit(stakes, PrecisionFee(terms, Sum(amounts), Sum(stakes)).value.distributable, policy);
    }
  }

  lemma PayoutsFit(amounts: seq<int>, pool: int, policy: PayoutPolicy)
    requires amounts != [] && 0 <= pool < MAX_POT && Sum(amounts) < MAX_POT
    requires forall i :: 0 <= i < |amounts| ==> amounts[i] > 0
    ensures PrecisionPayouts(amounts, pool, policy).Ok?
  {
    CheckedSumIs(amounts);
    SumNonNegative(amounts);
    assert amounts[0] > 0;
    var base: seq<int>;
    if policy.Equal? {
      base := BasePayouts(amounts, pool, policy).value;
      FloorBounds(pool, |amounts|);
      SumConstant(base, Quot(pool, |amounts|));
      assert AllNonNegative(base) && Sum(base) <= pool;
    } else {
      forall i | 0 <= i < |amounts| ensures InI128(amounts[i] * pool) {
        ProductFits(amounts[i], pool);
      }
      base := BasePayouts(amounts, pool, policy).value;
      SharesOfWhole(amounts, Sum(amounts), pool);
    }
    CheckedSumIs(base);
    SumNonNegative(base);
  }
}
