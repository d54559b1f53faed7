/** The pure settlement module (contracts/src/settlement_math.rs): payout vectors from plain
    data, in two passes, as the offline replay engine and the golden vectors use it. */
module SettlementMath {
  import opened Types
  import opened Arith
  import opened Sums
  import opened Shares
  import opened Fees
  import opened Engine
  import opened Loops

  // ----- inputs and results -----

  datatype ScoringMode = AbsoluteDistance | RelativeDistance

  datatype ScoringPolicy = ScoringPolicy(mode: ScoringMode, band: Option<nat>)

  const DEFAULT_SCORING := ScoringPolicy(AbsoluteDistance, None)

  datatype PrecisionEntry = PrecisionEntry(index: nat, price: nat, amount: int, revealed: bool)

  datatype UpDownPosition = UpDownPosition(index: nat, amount: int, sideUp: bool)

  datatype UpDownPayoutEntry = UpDownPayoutEntry(index: nat, stake: int, payout: int, isWinner: bool, isRefund: bool)

  datatype PrecisionPayoutEntry = PrecisionPayoutEntry(
    index: nat, stake: int, price: nat, payout: int, isWinner: bool, isRefund: bool)

  datatype PrecisionWinners = PrecisionWinners(winners: seq<nat>, totalPot: int, losers: seq<nat>)

  /** Every entry names its own position. */
  ghost predicate Indexed(entries: seq<PrecisionEntry>) {
    forall i :: 0 <= i < |entries| ==> entries[i].index == i
  }

  /** Prices are u128. */
  ghost predicate Representable(entries: seq<PrecisionEntry>, final: nat) {
    final <= U128_MAX && forall i :: 0 <= i < |entries| ==> entries[i].price <= U128_MAX
  }

  function EntryAmounts(entries: seq<PrecisionEntry>): seq<int> {
    seq(|entries|, i requires 0 <= i < |entries| => entries[i].amount)
  }

  // ----- who wins a Precision round -----

  function SaturatingTotal(amounts: seq<int>): int {
    if amounts == [] then 0
    else SaturatingAdd(SaturatingTotal(amounts[..|amounts| - 1]), amounts[|amounts| - 1])
  }

  function CapU128(x: nat): nat {
    if x > U128_MAX then U128_MAX else x
  }

  function Score(mode: ScoringMode, price: nat, final: nat): nat {
    var d := Distance(price, final);
    match mode
    case AbsoluteDistance => d
    case RelativeDistance => if final > 0 then CapU128(d * 10_000) / final else d
  }

  /** Within the band of the best score, or within the band outright. */
  predicate InBand(score: nat, best: nat, band: Option<nat>) {
    match band
    case None => score == best
    case Some(b) => score <= b || score <= CapU128(best + b)
  }

  /** `best` is the least score among the revealed entries, if there is any. */
  ghost predicate IsBest(entries: seq<PrecisionEntry>, final: nat, mode: ScoringMode, best: Option<nat>) {
    && (best.None? <==> forall i :: 0 <= i < |entries| ==> !entries[i].revealed)
    && (best.Some? ==>
          && (exists i :: 0 <= i < |entries| && entries[i].revealed && Score(mode, entries[i].price, final) == best.value)
          && (forall i :: 0 <= i < |entries| && entries[i].revealed ==> best.value <= Score(mode, entries[i].price, final)))
  }

  function BestOf(entries: seq<PrecisionEntry>, final: nat, mode: ScoringMode): Option<nat> {
    if entries == [] then None
    else
      var n := |entries| - 1;
      var front := BestOf(entries[..n], final, mode);
      if !entries[n].revealed then front
      else
        var score := Score(mode, entries[n].price, final);
        if front.Some? && front.value <= score then front else Some(score)
  }

  lemma {:induction false} BestIsLeast(entries: seq<PrecisionEntry>, final: nat, mode: ScoringMode)
    ensures IsBest(entries, final, mode, BestOf(entries, final, mode))
  {
    if entries != [] {
      var n := |entries| - 1;
      BestIsLeast(entries[..n], final, mode);
      var front := BestOf(entries[..n], final, mode);
      if front.Some? {
        var i :| 0 <= i < n && entries[..n][i].revealed && Score(mode, entries[..n][i].price, final) == front.value;
        assert entries[i].revealed;
      }
      forall i | 0 <= i < n && entries[i].revealed ensures front.Some? && front.value <= Score(mode, entries[i].price, final) {
        assert entries[..n][i].revealed;
      }
    }
  }

  /** The entry is revealed and close enough. */
  predicate ScoreWins(entries: seq<PrecisionEntry>, i: nat, final: nat, scoring: ScoringPolicy)
    requires i < |entries|
  {
    var best := BestOf(entries, final, scoring.mode);
    entries[i].revealed && best.Some? && InBand(Score(scoring.mode, entries[i].price, final), best.value, scoring.band)
  }

  function ScoreWinnersBelow(entries: seq<PrecisionEntry>, final: nat, scoring: ScoringPolicy, n: nat): seq<nat>
    requires n <= |entries|
  {
    if n == 0 then []
    else ScoreWinnersBelow(entries, final, scoring, n - 1) + if ScoreWins(entries, n - 1, final, scoring) then [n - 1] else []
  }

  function ScoreWinners(entries: seq<PrecisionEntry>, final: nat, scoring: ScoringPolicy): seq<nat> {
    ScoreWinnersBelow(entries, final, scoring, |entries|)
  }

  lemma {:induction false} ScoreWinnersFacts(entries: seq<PrecisionEntry>, final: nat, scoring: ScoringPolicy, n: nat)
    requires n <= |entries|
    ensures var w := ScoreWinnersBelow(entries, final, scoring, n);
            && |w| <= n
            && (forall j :: 0 <= j < |w| ==> w[j] < n)
            && (forall i: nat :: i in w <==> i < n && ScoreWins(entries, i, final, scoring))
            && Ascending(w) && Distinct(w)
  {
    if n > 0 { ScoreWinnersFacts(entries, final, scoring, n - 1); }
  }

  // ----- what each scoring rule guarantees -----

  lemma ScoreFits(mode: ScoringMode, price: nat, final: nat)
    requires price <= U128_MAX && final <= U128_MAX
    ensures Score(mode, price, final) <= U128_MAX
  {
    if mode.RelativeDistance? && final > 0 { FloorBounds(CapU128(Distance(price, final) * 10_000), final); }
  }

  /** Somebody wins exactly when somebody revealed, whatever the scoring rule. */
  lemma SomebodyScores(entries: seq<PrecisionEntry>, final: nat, scoring: ScoringPolicy)
    requires Representable(entries, final)
    ensures ScoreWinners(entries, final, scoring) != [] <==> exists i :: 0 <= i < |entries| && entries[i].revealed
  {
    var w := ScoreWinners(entries, final, scoring);
    ScoreWinnersFacts(entries, final, scoring, |entries|);
    BestIsLeast(entries, final, scoring.mode);
    var best := BestOf(entries, final, scoring.mode);
    if best.Some? {
      var i :| 0 <= i < |entries| && entries[i].revealed && Score(scoring.mode, entries[i].price, final) == best.value;
      ScoreFits(scoring.mode, entries[i].price, final);
      assert InBand(best.value, best.value, scoring.band);
      assert ScoreWins(entries, i, final, scoring);
      assert i in w;
    } else {
      NobodyScores(entries, final, scoring, |entries|);
    }
  }

  /** A wider band never takes a win away. */
  lemma WiderBandKeepsWinners(entries: seq<PrecisionEntry>, final: nat, mode: ScoringMode, narrow: Option<nat>, wide: nat, i: nat)
    requires i < |entries| && ScoreWins(entries, i, final, ScoringPolicy(mode, narrow))
    requires Representable(entries, final) && (narrow.Some? ==> narrow.value <= wide)
    ensures ScoreWins(entries, i, final, ScoringPolicy(mode, Some(wide)))
  {
    ScoreFits(mode, entries[i].price, final);
  }

  /** Nearer in price is never worse in relative score. */
  lemma RelativeIsMonotone(p: nat, q: nat, final: nat)
    requires Distance(p, final) <= Distance(q, final)
    ensures Score(RelativeDistance, p, final) <= Score(RelativeDistance, q, final)
  {
    if final > 0 {
      FloorMono(CapU128(Distance(p, final) * 10_000), CapU128(Distance(q, final) * 10_000), final);
    }
  }

  /** The closest guesses also win under relative scoring, with or without a band. */
  lemma ClosestWinsRelatively(entries: seq<PrecisionEntry>, final: nat, band: Option<nat>, i: nat)
    requires i < |entries| && ScoreWins(entries, i, final, DEFAULT_SCORING)
    requires Representable(entries, final)
    ensures ScoreWins(entries, i, final, ScoringPolicy(RelativeDistance, band))
  {
    BestIsLeast(entries, final, AbsoluteDistance);
    BestIsLeast(entries, final, RelativeDistance);
    var best := BestOf(entries, final, RelativeDistance);
    var j :| 0 <= j < |entries| && entries[j].revealed && Score(RelativeDistance, entries[j].price, final) == best.value;
    RelativeIsMonotone(entries[i].price, entries[j].price, final);
    ScoreFits(RelativeDistance, entries[i].price, final);
  }

  // ----- finding the winners, in two passes -----

  /** Index and score of every revealed entry below `n`. */
  function ScoresBelow(entries: seq<PrecisionEntry>, final: nat, mode: ScoringMode, n: nat): seq<(nat, nat)>
    requires n <= |entries|
  {
    if n == 0 then []
    else
      var e := entries[n - 1];
      ScoresBelow(entries, final, mode, n - 1) + if e.revealed then [(e.index, Score(mode, e.price, final))] else []
  }

  function Pick(scores: seq<(nat, nat)>, best: nat, band: Option<nat>): seq<nat> {
    if scores == [] then []
    else
      var last := scores[|scores| - 1];
      Pick(scores[..|scores| - 1], best, band) + if InBand(last.1, best, band) then [last.0] else []
  }

  function IndicesAt(entries: seq<PrecisionEntry>, at: seq<nat>): seq<nat>
    requires forall j :: 0 <= j < |at| ==> at[j] < |entries|
  {
    seq(|at|, j requires 0 <= j < |at| => entries[at[j]].index)
  }

  /** The indices below position `n` that are not in `winners`. */
  function OthersBelow(entries: seq<PrecisionEntry>, winners: seq<nat>, n: nat): seq<nat>
    requires n <= |entries|
  {
    if n == 0 then []
    else OthersBelow(entries, winners, n - 1) + if entries[n - 1].index in winners then [] else [entries[n - 1].index]
  }

  lemma {:induction false} PickedWin(entries: seq<PrecisionEntry>, final: nat, scoring: ScoringPolicy, n: nat)
    requires n <= |entries| && BestOf(entries, final, scoring.mode).Some?
    ensures var w := ScoreWinnersBelow(entries, final, scoring, n);
            && (forall j :: 0 <= j < |w| ==> w[j] < |entries|)
            && Pick(ScoresBelow(entries, final, scoring.mode, n), BestOf(entries, final, scoring.mode).value, scoring.band)
            == IndicesAt(entries, w)
  {
    if n > 0 {
      PickedWin(entries, final, scoring, n - 1);
      var e := entries[n - 1];
      var front := ScoresBelow(entries, final, scoring.mode, n - 1);
      var item := (e.index, Score(scoring.mode, e.price, final));
      assert (front + [item])[..|front|] == front;
      assert front + [] == front;
    }
  }

  lemma {:induction false} NobodyScores(entries: seq<PrecisionEntry>, final: nat, scoring: ScoringPolicy, n: nat)
    requires n <= |entries| && BestOf(entries, final, scoring.mode).None?
    ensures ScoreWinnersBelow(entries, final, scoring, n) == []
  {
    if n > 0 { NobodyScores(entries, final, scoring, n - 1); }
  }

  /** `find_precision_winners_with_policy`: the winners are exactly the entries the scoring
      rule accepts, in order, and everybody else loses. */
  method FindPrecisionWinners(entries: seq<PrecisionEntry>, final: nat, scoring: ScoringPolicy) returns (r: PrecisionWinners)
    ensures var w := ScoreWinners(entries, final, scoring);
            && (forall j :: 0 <= j < |w| ==> w[j] < |entries|)
            && r.winners == IndicesAt(entries, w)
            && r.losers == OthersBelow(entries, r.winners, |entries|)
            && r.totalPot == SaturatingTotal(EntryAmounts(entries))
  {
    var totalPot, scores := 0, [];
    var minScore: Option<nat> := None;
    for i := 0 to |entries|
      invariant totalPot == SaturatingTotal(EntryAmounts(entries)[..i])
      invariant scores == ScoresBelow(entries, final, scoring.mode, i)
      invariant minScore == BestOf(entries[..i], final, scoring.mode)
    {
      assert EntryAmounts(entries)[..i + 1][..i] == EntryAmounts(entries)[..i];
      assert entries[..i + 1][..i] == entries[..i];
      totalPot := SaturatingAdd(totalPot, entries[i].amount);
      if entries[i].revealed {
        var score := Score(scoring.mode, entries[i].price, final);
        scores := scores + [(entries[i].index, score)];
        if minScore.None? || score < minScore.value {
          minScore := Some(score);
        }
      }
    }
    assert entries[..|entries|] == entries && EntryAmounts(entries)[..|entries|] == EntryAmounts(entries);
    var winners: seq<nat> := [];
    if minScore.Some? {
      for k := 0 to |scores|
        invariant winners == Pick(scores[..k], minScore.value, scoring.band)
      {
        assert scores[..k + 1][..k] == scores[..k];
        if InBand(scores[k].1, minScore.value, scoring.band) {
          winners := winners + [scores[k].0];
        }
      }
      assert scores[..|scores|] == scores;
      PickedWin(entries, final, scoring, |entries|);
    } else {
      NobodyScores(entries, final, scoring, |entries|);
    }
    var losers: seq<nat> := [];
    for i := 0 to |entries|
      invariant losers == OthersBelow(entries, winners, i)
    {
      if entries[i].index !in winners {
        losers := losers + [entries[i].index];
      }
    }
    return PrecisionWinners(winners, totalPot, losers);
  }

  // ----- dividing the pot -----

  /** Equal parts, the first with the remainder. */
  function EqualSplit(pool: int, count: nat): seq<int> {
    if count == 0 || pool <= 0 then []
    else seq(count, i => if i == 0 then pool / count + pool % count else pool / count)
  }

  /** Parts in proportion to the stakes, the first with what rounding leaves. */
  function WeightedSplit(pool: int, stakes: seq<int>): Result<seq<int>> {
    if stakes == [] || pool <= 0 then Ok([])
    else
      var total :- CheckedSum(stakes);
      if total == 0 then Ok(EqualSplit(pool, |stakes|))
      else if exists i | 0 <= i < |stakes| :: !InI128(stakes[i] * pool) then Err(PayoutOverflow)
      else
        TopUpFirst(SharesOf(stakes, total, pool), pool)
  }

  /** The first part takes what is left, if anything is. */
  function TopUpFirst(base: seq<int>, pool: int): Result<seq<int>>
    requires base != []
  {
    var paid :- CheckedSum(base);
    var remainder :- Checked(pool - paid, PayoutOverflow);
    if remainder > 0 then
      var first :- Checked(base[0] + remainder, PayoutOverflow);
      Ok(base[0 := first])
    else Ok(base)
  }

  function Split(policy: PayoutPolicy, pool: int, stakes: seq<int>): Result<seq<int>> {
    match policy
    case Equal => Ok(EqualSplit(pool, |stakes|))
    case StakeWeighted => WeightedSplit(pool, stakes)
  }

  /** `split_pot_among_winners` */
  method SplitPotAmongWinners(pool: int, count: nat) returns (r: Result<seq<int>>)
    requires InI128(pool)
    ensures r == Ok(EqualSplit(pool, count))
    ensures r.Ok? && count > 0 && pool > 0 ==> Sum(r.value) == pool
  {
    if count == 0 || pool <= 0 {
      return Ok([]);
    }
    var each, remainder := pool / count, pool % count;
    ghost var whole := EqualSplit(pool, count);
    EqualSplitExact(pool, count);
    var first := Checked(each + remainder, PayoutOverflow);
    assert first.Ok?;
    var payouts: seq<int> := [];
    for i := 0 to count
      invariant payouts == whole[..i]
    {
      payouts := payouts + [if i == 0 then first.value else each];
    }
    assert whole[..count] == whole;
    return Ok(payouts);
  }

  lemma EqualSplitExact(pool: int, count: nat)
    requires count > 0 && pool > 0
    ensures var s := EqualSplit(pool, count);
            && |s| == count && Sum(s) == pool && s[0] == pool / count + pool % count
            && forall i :: 1 <= i < count ==> s[i] == pool / count
    ensures 0 <= pool / count + pool % count <= pool
  {
    FloorBounds(pool, count);
    MulMono(1, count, pool / count);
    var each := pool / count;
    var base := seq(count, _ => each);
    SumConstant(base, each);
    SumChangeFirst(base, each + pool % count);
    assert EqualSplit(pool, count) == base[0 := each + pool % count];
  }

  /** `split_pot_stake_weighted` */
  method SplitPotStakeWeighted(pool: int, stakes: seq<int>) returns (r: Result<seq<int>>)
    requires InI128(pool)
    ensures r == WeightedSplit(pool, stakes)
  {
    if stakes == [] || pool <= 0 {
      return Ok([]);
    }
    var total := 0;
    for i := 0 to |stakes|
      invariant CheckedSum(stakes[..i]) == Ok(total)
    {
      SumNext(stakes, i, total);
      total :- Checked(total + stakes[i], PayoutOverflow);
    }
    assert stakes[..|stakes|] == stakes;
    if total == 0 {
      r := SplitPotAmongWinners(pool, |stakes|);
      return;
    }
    var shared := SharesAndTotal(pool, stakes, total);
    CheckedSumIs(SharesOf(stakes, total, pool));
    if shared.Err? {
      return Err(shared.error);
    }
    var payouts, given := shared.value.0, shared.value.1;
    var remainder :- Checked(pool - given, PayoutOverflow);
    if remainder > 0 {
      var first :- Checked(payouts[0] + remainder, PayoutOverflow);
      payouts := payouts[0 := first];
    }
    return Ok(payouts);
  }

  method SharesAndTotal(pool: int, stakes: seq<int>, total: int) returns (r: Result<(seq<int>, int)>)
    requires total != 0
    ensures var base, fits := SharesOf(stakes, total, pool), ProductsFit(stakes, pool, |stakes|);
            if fits && CheckedSum(base).Ok? then r == Ok((base, CheckedSum(base).value)) else r == Err(PayoutOverflow)
  {
    ghost var base := SharesOf(stakes, total, pool);
    var payouts: seq<int> := [];
    var given := 0;
    for i := 0 to |stakes|
      invariant ProductsFit(stakes, pool, i)
      invariant payouts == base[..i] && CheckedSum(base[..i]) == Ok(given)
    {
      SumNext(base, i, given);
      var product :- Checked(stakes[i] * pool, PayoutOverflow);
      payouts := payouts + [Quot(product, total)];
      assert Quot(product, total) == base[i];
      given :- Checked(given + payouts[i], PayoutOverflow);
    }
    assert base[..|stakes|] == base;
    return Ok((payouts, given));
  }

  // ----- whole payout vectors -----

  /** `compute_precision_fee` */
  function PurePrecisionFee(pot: int, bps: Option<nat>): Result<PotSplit> {
    if bps.None? || pot <= 0 then Ok(PotSplit(pot, 0))
    else
      var scaled :- Checked(pot * bps.value, PayoutOverflow);
      var distributable :- Checked(pot - Quot(scaled, BPS_DENOMINATOR), PayoutOverflow);
      Ok(PotSplit(distributable, Quot(scaled, BPS_DENOMINATOR)))
  }

  function Refunded(p: UpDownPosition): UpDownPayoutEntry {
    UpDownPayoutEntry(p.index, p.amount, p.amount, false, true)
  }

  function Competed(p: UpDownPosition, up: bool, winning: int, distributable: int): UpDownPayoutEntry
    requires p.sideUp == up ==> WinnerPayout(p.amount, winning, distributable).Ok?
  {
    UpDownPayoutEntry(p.index, p.amount,
      if p.sideUp == up then WinnerPayout(p.amount, winning, distributable).value else 0, p.sideUp == up, false)
  }

  predicate AllPayable(ps: seq<UpDownPosition>, up: bool, winning: int, distributable: int) {
    forall i | 0 <= i < |ps| && ps[i].sideUp == up :: WinnerPayout(ps[i].amount, winning, distributable).Ok?
  }

  function CompeteAll(ps: seq<UpDownPosition>, up: bool, winning: int, distributable: int): seq<UpDownPayoutEntry>
    requires AllPayable(ps, up, winning, distributable)
  {
    seq(|ps|, i requires 0 <= i < |ps| => Competed(ps[i], up, winning, distributable))
  }

  function RefundAll(ps: seq<UpDownPosition>): seq<UpDownPayoutEntry> {
    seq(|ps|, i requires 0 <= i < |ps| => Refunded(ps[i]))
  }

  function PureCompetition(ps: seq<UpDownPosition>, up: bool, winning: int, losing: int, bps: Option<nat>)
    : Result<seq<UpDownPayoutEntry>>
  {
    var split :- UpDownFee(FeeTerms(bps, FeeOnPot), winning, losing);
    var distributable :- Checked(split.winning + split.losing, PayoutOverflow);
    if AllPayable(ps, up, winning, distributable) then Ok(CompeteAll(ps, up, winning, distributable))
    else Err(PayoutOverflow)
  }

  /** What `compute_updown_payouts` returns. */
  function PureUpDown(ps: seq<UpDownPosition>, start: nat, final: nat, poolUp: int, poolDown: int, bps: Option<nat>)
    : Result<seq<UpDownPayoutEntry>>
  {
    var up := final > start;
    var winning, losing := if up then poolUp else poolDown, if up then poolDown else poolUp;
    if final == start || OneSided(poolUp, poolDown) || winning == 0 then Ok(RefundAll(ps))
    else PureCompetition(ps, up, winning, losing, bps)
  }

  /** `compute_updown_payouts` */
  method ComputeUpDownPayouts(ps: seq<UpDownPosition>, start: nat, final: nat, poolUp: int, poolDown: int, bps: Option<nat>)
    returns (r: Result<seq<UpDownPayoutEntry>>)
    ensures r == PureUpDown(ps, start, final, poolUp, poolDown, bps)
  {
    var up := final > start;
    var winning, losing := if up then poolUp else poolDown, if up then poolDown else poolUp;
    if final == start || OneSided(poolUp, poolDown) || winning == 0 {
      var refunds := RefundEach(ps);
      return Ok(refunds);
    }
    var split :- UpDownFee(FeeTerms(bps, FeeOnPot), winning, losing);
    var distributable :- Checked(split.winning + split.losing, PayoutOverflow);
    r := PayEach(ps, up, winning, distributable);
  }

  method RefundEach(ps: seq<UpDownPosition>) returns (results: seq<UpDownPayoutEntry>)
    ensures results == RefundAll(ps)
  {
    results := [];
    for i := 0 to |ps|
      invariant results == RefundAll(ps)[..i]
    {
      results := results + [Refunded(ps[i])];
    }
  }

  method PayEach(ps: seq<UpDownPosition>, up: bool, winning: int, distributable: int) returns (r: Result<seq<UpDownPayoutEntry>>)
    ensures r == if AllPayable(ps, up, winning, distributable) then Ok(CompeteAll(ps, up, winning, distributable)) else Err(PayoutOverflow)
  {
    var results: seq<UpDownPayoutEntry> := [];
    for i := 0 to |ps|
      invariant |results| == i && AllPayable(ps[..i], up, winning, distributable)
      invariant results == CompeteAll(ps[..i], up, winning, distributable)
    {
      var payout := 0;
      if ps[i].sideUp == up {
        var share := WinnerPayout(ps[i].amount, winning, distributable);
        if share.Err? {
          return Err(share.error);
        }
        payout := share.value;
      }
      CompeteNext(ps, up, winning, distributable, i);
      results := results + [UpDownPayoutEntry(ps[i].index, ps[i].amount, payout, ps[i].sideUp == up, false)];
    }
    assert ps[..|ps|] == ps;
    return Ok(results);
  }

  lemma CompeteNext(ps: seq<UpDownPosition>, up: bool, winning: int, distributable: int, i: nat)
    requires i < |ps| && AllPayable(ps[..i], up, winning, distributable)
    requires ps[i].sideUp == up ==> WinnerPayout(ps[i].amount, winning, distributable).Ok?
    ensures AllPayable(ps[..i + 1], up, winning, distributable)
    ensures CompeteAll(ps[..i + 1], up, winning, distributable)
         == CompeteAll(ps[..i], up, winning, distributable) + [Competed(ps[i], up, winning, distributable)]
  {
    var more := ps[..i + 1];
    forall j | 0 <= j < |more| && more[j].sideUp == up
      ensures WinnerPayout(more[j].amount, winning, distributable).Ok?
    {
      if j < i { assert ps[..i][j] == more[j]; }
    }
  }

  function Lost(e: PrecisionEntry): PrecisionPayoutEntry {
    PrecisionPayoutEntry(e.index, e.amount, e.price, 0, false, false)
  }

  function ReturnAll(entries: seq<PrecisionEntry>): seq<PrecisionPayoutEntry> {
    seq(|entries|, i requires 0 <= i < |entries| =>
      PrecisionPayoutEntry(entries[i].index, entries[i].amount, entries[i].price, entries[i].amount, false, true))
  }

  function LoseAll(entries: seq<PrecisionEntry>): seq<PrecisionPayoutEntry> {
    seq(|entries|, i requires 0 <= i < |entries| => Lost(entries[i]))
  }

  function AmountsOf(entries: seq<PrecisionEntry>, at: seq<nat>): seq<int>
    requires forall j :: 0 <= j < |at| ==> at[j] < |entries|
  {
    seq(|at|, j requires 0 <= j < |at| => entries[at[j]].amount)
  }

  /** The first position of `x`, if there is one. */
  function PlaceOf(list: seq<nat>, x: nat): (at: Option<nat>)
    ensures at.Some? <==> x in list
    ensures at.Some? ==> at.value < |list| && list[at.value] == x && forall j :: 0 <= j < at.value ==> list[j] != x
  {
    if list == [] then None
    else if list[0] == x then Some(0)
    else
      var rest := PlaceOf(list[1..], x);
      if rest.Some? then Some(rest.value + 1) else None
  }

  /** What entry `i` gets: its index is looked up among the winning indices, and the payout at
      that place is taken. */
  function PureAward(entries: seq<PrecisionEntry>, winners: seq<nat>, pays: seq<int>, i: nat): PrecisionPayoutEntry
    requires i < |entries|
  {
    var e := entries[i];
    var at := PlaceOf(winners, e.index);
    if at.Some? then PrecisionPayoutEntry(e.index, e.amount, e.price, if at.value < |pays| then pays[at.value] else 0, true, false)
    else Lost(e)
  }

  /** Stakes are looked up by winning index, for the weighted split only; an index that is no
      position aborts the program. */
  function PureSplit(entries: seq<PrecisionEntry>, winners: seq<nat>, policy: PayoutPolicy, pool: int): Result<seq<int>> {
    match policy
    case Equal => Ok(EqualSplit(pool, |winners|))
    case StakeWeighted =>
      if exists j | 0 <= j < |winners| :: winners[j] >= |entries| then Err(Panicked)
      else WeightedSplit(pool, AmountsOf(entries, winners))
  }

  /** The indices that the winning entries carry. */
  function WinningIndices(entries: seq<PrecisionEntry>, final: nat, scoring: ScoringPolicy): seq<nat> {
    ScoreWinnersFacts(entries, final, scoring, |entries|);
    IndicesAt(entries, ScoreWinners(entries, final, scoring))
  }

  /** What `compute_precision_payouts_with_policy` returns, whatever indices the entries carry.
      If the fee takes the whole pot there are fewer payouts than winners, and the program
      aborts. */
  function PurePrecision(entries: seq<PrecisionEntry>, final: nat, bps: Option<nat>, scoring: ScoringPolicy, policy: PayoutPolicy)
    : Result<seq<PrecisionPayoutEntry>>
  {
    var w := WinningIndices(entries, final, scoring);
    var pot := SaturatingTotal(EntryAmounts(entries));
    if w == [] && pot > 0 then Ok(ReturnAll(entries))
    else if w == [] || pot <= 0 then Ok(LoseAll(entries))
    else
      var split :- PurePrecisionFee(pot, bps);
      var pays :- PureSplit(entries, w, policy, split.distributable);
      if |pays| < |w| then Err(Panicked)
      else Ok(seq(|entries|, i requires 0 <= i < |entries| => PureAward(entries, w, pays, i)))
  }

  /** `compute_precision_payouts_with_policy` */
  method ComputePrecisionPayouts(entries: seq<PrecisionEntry>, final: nat, bps: Option<nat>, scoring: ScoringPolicy, policy: PayoutPolicy)
    returns (r: Result<seq<PrecisionPayoutEntry>>)
    ensures r == PurePrecision(entries, final, bps, scoring, policy)
  {
    var found := FindPrecisionWinners(entries, final, scoring);
    assert found.winners == WinningIndices(entries, final, scoring);
    if found.winners == [] {
      var unpaid := ReturnOrLose(entries, found.totalPot > 0);
      return Ok(unpaid);
    }
    if found.totalPot <= 0 {
      var unpaid := ReturnOrLose(entries, false);
      return Ok(unpaid);
    }
    var split :- PurePrecisionFee(found.totalPot, bps);
    PureFeeFits(found.totalPot, bps);
    var payouts;
    if policy.Equal? {
      payouts := SplitPotAmongWinners(split.distributable, |found.winners|);
    } else {
      payouts := SplitByStake(entries, found.winners, split.distributable);
    }
    if payouts.Err? {
      return Err(payouts.error);
    }
    if |payouts.value| < |found.winners| {
      return Err(Panicked);
    }
    var awards := AwardEach(entries, found.winners, payouts.value);
    return Ok(awards);
  }

  /** The stake of each winning index, then the weighted split. */
  method SplitByStake(entries: seq<PrecisionEntry>, winners: seq<nat>, pool: int) returns (r: Result<seq<int>>)
    requires InI128(pool)
    ensures r == PureSplit(entries, winners, StakeWeighted, pool)
  {
    var stakes: seq<int> := [];
    for i := 0 to |winners|
      invariant forall j :: 0 <= j < i ==> winners[j] < |entries|
      invariant stakes == AmountsOf(entries, winners[..i])
    {
      if winners[i] >= |entries| {
        return Err(Panicked);
      }
      stakes := stakes + [entries[winners[i]].amount];
    }
    assert winners[..|winners|] == winners;
    r := SplitPotStakeWeighted(pool, stakes);
  }

  lemma PureFeeFits(pot: int, bps: Option<nat>)
    requires InI128(pot) && PurePrecisionFee(pot, bps).Ok?
    ensures InI128(PurePrecisionFee(pot, bps).value.distributable)
  {
  }

  method ReturnOrLose(entries: seq<PrecisionEntry>, refund: bool) returns (results: seq<PrecisionPayoutEntry>)
    ensures results == if refund then ReturnAll(entries) else LoseAll(entries)
  {
    results := [];
    for i := 0 to |entries|
      invariant results == (if refund then ReturnAll(entries) else LoseAll(entries))[..i]
    {
      var e := entries[i];
      results := results + [PrecisionPayoutEntry(e.index, e.amount, e.price, if refund then e.amount else 0, false, refund)];
    }
  }

  /** Each entry looks its index up in the winner list. */
  method AwardEach(entries: seq<PrecisionEntry>, winners: seq<nat>, payouts: seq<int>) returns (results: seq<PrecisionPayoutEntry>)
    requires |winners| <= |payouts|
    ensures results == seq(|entries|, i requires 0 <= i < |entries| => PureAward(entries, winners, payouts, i))
  {
    results := [];
    for i := 0 to |entries|
      invariant |results| == i
      invariant forall j :: 0 <= j < i ==> results[j] == PureAward(entries, winners, payouts, j)
    {
      var e := entries[i];
      var at := PositionOf(winners, e.index);
      if at.Some? {
        results := results + [PrecisionPayoutEntry(e.index, e.amount, e.price, payouts[at.value], true, false)];
      } else {
        results := results + [Lost(e)];
      }
    }
  }

  method PositionOf(list: seq<nat>, x: nat) returns (at: Option<nat>)
    ensures at == PlaceOf(list, x)
  {
    for i := 0 to |list|
      invariant x !in list[..i]
    {
      if list[i] == x {
        return Some(i);
      }
    }
    return None;
  }

  lemma {:induction false} ScoreWinnersGrow(entries: seq<PrecisionEntry>, final: nat, scoring: ScoringPolicy, n: nat)
    requires n <= |entries|
    ensures ScoreWinnersBelow(entries, final, scoring, n) <= ScoreWinners(entries, final, scoring)
    decreases |entries| - n
  {
    if n < |entries| { ScoreWinnersGrow(entries, final, scoring, n + 1); }
  }

  /** When every entry carries its own position, the winning indices are the winning positions,
      and a winner's place among them is its rank. */
  lemma WinnerPosition(entries: seq<PrecisionEntry>, final: nat, scoring: ScoringPolicy, i: nat)
    requires Indexed(entries) && i < |entries|
    ensures WinningIndices(entries, final, scoring) == ScoreWinners(entries, final, scoring)
    ensures var at := PlaceOf(WinningIndices(entries, final, scoring), i);
            && (at.Some? <==> ScoreWins(entries, i, final, scoring))
            && (at.Some? ==> at.value == |ScoreWinnersBelow(entries, final, scoring, i)|)
  {
    var w := ScoreWinners(entries, final, scoring);
    ScoreWinnersFacts(entries, final, scoring, |entries|);
    assert WinningIndices(entries, final, scoring) == w;
    if i in w {
      ScoreWinnersGrow(entries, final, scoring, i + 1);
      var rank := |ScoreWinnersBelow(entries, final, scoring, i)|;
      assert ScoreWinnersBelow(entries, final, scoring, i + 1)[rank] == i;
      assert w[rank] == i;
    }
  }
}
