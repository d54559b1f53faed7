/** The pieces of the contract's loops that touch no storage, and what each loop has done
    when it stops: fully, or at the first error. */
module Loops {
  import opened Types
  import opened Arith
  import opened Sums
  import opened Shares
  import opened Fees
  import opened Engine
  import opened Ledger
  import opened Streaming
  import opened Claims

  /** The call returned what the specification says and left the state it says. */
  ghost predicate Commits(spec: Result<State>, r: Result<()>, before: State, after: State) {
    match spec
    case Ok(t) => r == Ok(()) && after == t
    case Err(e) => r == Err(e) && after == before
  }

  /** As above, except that the error code may differ when `sure` does not hold: the code
      then meets two errors in another order. */
  ghost predicate CommitsOrFails(spec: Result<State>, sure: bool, r: Result<()>, before: State, after: State) {
    if spec.Ok? || sure then Commits(spec, r, before, after)
    else r.Err? && after == before
  }

  /** The payouts of a round at `price` can be computed without overflow. */
  ghost predicate PayableAt(s: State, rd: Option<Round>, price: nat) {
    rd.Some? ==> SettleRound(s.book, rd.value, Sort(ParticipantsOf(s, rd.value.id)), price, s.cfg).Ok?
  }

  /** What paying a list of outcomes leaves in the purse and the records. */
  ghost predicate PaysOut(p: Purse, m: map<Key, UserRoundOutcome>, cap: Option<int>, now: nat, round: nat,
                          outcomes: seq<UserRoundOutcome>, r: Result<()>, q: Purse, n: map<Key, UserRoundOutcome>)
  {
    match AccumulateAll(p, cap, now, Credits(outcomes))
    case Ok(paid) => r == Ok(()) && q == paid && n == PersistAll(m, round, outcomes)
    case Err(e) => r == Err(e)
  }

  /** The purse and the records once the first `i` outcomes of a list are paid. */
  ghost predicate PaidSoFar(p: Purse, m: map<Key, UserRoundOutcome>, cap: Option<int>, now: nat, round: nat,
                            list: seq<UserRoundOutcome>, i: nat, q: Purse, n: map<Key, UserRoundOutcome>)
    requires i <= |list|
  {
    AccumulateAll(p, cap, now, Credits(list[..i])) == Ok(q) && n == PersistAll(m, round, list[..i])
  }

  /** What settling a round by `spec` leaves, with the fee as the result. */
  ghost predicate Resolves(spec: Result<Settlement>, round: nat, r: Result<int>, before: State, after: State) {
    match spec
    case Ok(st) =>
      (match ChargeAndPay(before, round, st)
       case Ok(t) => r == Ok(st.fee) && after == t
       case Err(e) => r == Err(e))
    case Err(e) => r.Err?
  }

  // ----- dividing a Precision pot -----

  /** The payouts before the remainder, and what they add up to. */
  ghost predicate Divides(amounts: seq<int>, pool: int, policy: PayoutPolicy, r: Result<(seq<int>, int)>) {
    match BasePayouts(amounts, pool, policy)
    case Ok(base) =>
      (match CheckedSum(base)
       case Ok(paid) => r == Ok((base, paid))
       case Err(e) => r == Err(e))
    case Err(e) => r == Err(e)
  }

  /** The running total after one more amount. */
  method AddNext(ghost amounts: seq<int>, ghost i: nat, total: int, amount: int) returns (r: Result<int>)
    requires i < |amounts| && amounts[i] == amount && CheckedSum(amounts[..i]) == Ok(total)
    ensures if r.Ok? then CheckedSum(amounts[..i + 1]) == r else r == CheckedSum(amounts)
  {
    SumNext(amounts, i, total);
    r := Checked(total + amount, PayoutOverflow);
  }

  /** The guess of one participant against the best so far. A better one empties the winner
      list and resets the mask behind it. */
  method KeepClosest(ghost all: seq<PrecisionStake>, price: nat, e: PrecisionStake,
                     least: Option<nat>, mask: seq<bool>, winners: seq<PrecisionStake>)
    returns (least': Option<nat>, mask': seq<bool>, winners': seq<PrecisionStake>)
    requires |mask| < |all| && e == all[|mask|] && Scanned(all, price, least, mask, winners)
    ensures |mask'| == |mask| + 1 && Scanned(all, price, least', mask', winners')
  {
    least', mask', winners' := least, mask + [false], winners;
    if !e.revealed {
      ScanSkips(all, price, least, mask, winners);
      return;
    }
    var distance := Distance(e.price, price);
    if least.None? || distance < least.value {
      least', winners' := Some(distance), [e];
      for j := 0 to |mask|
        invariant |mask'| == |mask| + 1 && forall x :: 0 <= x < j ==> !mask'[x]
      {
        mask' := mask'[j := false];
      }
      mask' := mask'[|mask| := true];
      assert mask' == AllFalse(|mask|) + [true];
      ScanImproves(all, price, least, mask, winners);
    } else if distance == least.value {
      winners', mask' := winners + [e], mask'[|mask| := true];
      assert mask' == mask + [true];
      ScanTies(all, price, least, mask, winners);
    } else {
      ScanSkips(all, price, least, mask, winners);
    }
  }

  method DivideEqually(winners: seq<PrecisionStake>, pool: int) returns (r: Result<(seq<int>, int)>)
    requires winners != []
    ensures Divides(PrecisionAmounts(winners), pool, Equal, r)
  {
    ghost var base := BasePayouts(PrecisionAmounts(winners), pool, Equal).value;
    var each := Quot(pool, |winners|);
    var payouts, paid := [], 0;
    for i := 0 to |winners|
      invariant payouts == base[..i] && CheckedSum(base[..i]) == Ok(paid)
    {
      SumNext(base, i, paid);
      payouts := payouts + [each];
      paid :- Checked(paid + each, PayoutOverflow);
    }
    assert base[..|winners|] == base;
    return Ok((payouts, paid));
  }

  method DivideByStake(winners: seq<PrecisionStake>, pool: int) returns (r: Result<(seq<int>, int)>)
    ensures Divides(PrecisionAmounts(winners), pool, StakeWeighted, r)
  {
    ghost var amounts := PrecisionAmounts(winners);
    var total := SumStakes(winners);
    if total.Err? {
      return Err(total.error);
    }
    if total.value <= 0 {
      ghost var zeros: seq<int> := seq(|winners|, _ => 0);
      ZeroSum(zeros);
      return Ok((seq(|winners|, _ => 0), 0));
    }
    r := DivideShares(winners, total.value, pool);
  }

  /** The rounded-down share of every winner. */
  method DivideShares(winners: seq<PrecisionStake>, total: int, pool: int) returns (r: Result<(seq<int>, int)>)
    requires CheckedSum(PrecisionAmounts(winners)) == Ok(total) && total > 0
    ensures Divides(PrecisionAmounts(winners), pool, StakeWeighted, r)
  {
    ghost var amounts := PrecisionAmounts(winners);
    ghost var base := SharesOf(amounts, total, pool);
    var payouts, paid := [], 0;
    for i := 0 to |winners|
      invariant ProductsFit(amounts, pool, i)
      invariant payouts == base[..i] && CheckedSum(base[..i]) == Ok(paid)
    {
      SumNext(base, i, paid);
      var share := WinnerPayout(winners[i].amount, total, pool);
      if share.Err? {
        WeightedFails(amounts, pool, total, i);
        return Err(share.error);
      }
      payouts := payouts + [share.value];
      assert share.value == base[i];
      var sum := Checked(paid + share.value, PayoutOverflow);
      if sum.Err? {
        WeightedFails(amounts, pool, total, i);
        return Err(sum.error);
      }
      paid := sum.value;
    }
    assert base[..|winners|] == base;
    WeightedDone(amounts, pool, total, paid);
    return Ok((payouts, paid));
  }

  /** The sum of the winners' stakes. */
  method SumStakes(winners: seq<PrecisionStake>) returns (r: Result<int>)
    ensures r == CheckedSum(PrecisionAmounts(winners))
  {
    ghost var amounts := PrecisionAmounts(winners);
    var total := 0;
    for i := 0 to |winners|
      invariant CheckedSum(amounts[..i]) == Ok(total)
    {
      SumNext(amounts, i, total);
      total :- Checked(total + winners[i].amount, PayoutOverflow);
    }
    assert amounts[..|winners|] == amounts;
    return Ok(total);
  }

  // ----- claiming in a batch -----

  /** Duplicates of a sorted list are neighbours. */
  method FindEqualNeighbours(sorted: seq<Address>) returns (found: bool)
    ensures found == HasEqualNeighbours(sorted)
  {
    if sorted == [] {
      return false;
    }
    for i := 1 to |sorted|
      invariant forall j :: 1 <= j < i ==> sorted[j] != sorted[j - 1]
    {
      if sorted[i] == sorted[i - 1] {
        return true;
      }
    }
    return false;
  }

  lemma ClaimsNext(s: State, users: seq<Address>, i: nat)
    requires i < |users| && ClaimAll(s, users[..i]).Ok?
    ensures ClaimAll(s, users[..i + 1])
         == var front := ClaimAll(s, users[..i]).value;
            var last := ClaimOne(front.0, users[i]);
            if last.Err? then Err(last.error) else Ok((last.value.0, front.1 + [last.value.1]))
    ensures ClaimAll(s, users[..i + 1]).Err? ==> ClaimAll(s, users) == Err(ClaimAll(s, users[..i + 1]).error)
  {
    assert users[..i + 1][..i] == users[..i];
    if ClaimAll(s, users[..i + 1]).Err? { ClaimsStop(s, users, i + 1); }
  }

  lemma {:induction false} ClaimsStop(s: State, users: seq<Address>, n: nat)
    requires n <= |users| && ClaimAll(s, users[..n]).Err?
    ensures ClaimAll(s, users) == ClaimAll(s, users[..n])
    decreases |users| - n
  {
    if n == |users| {
      assert users[..n] == users;
    } else {
      assert users[..n + 1][..n] == users[..n];
      ClaimsStop(s, users, n + 1);
    }
  }

  // ----- covering the stakes of a cancelled round -----

  /** The total stake, where an addition that overflows is left out. */
  method TotalStake(stakes: seq<int>) returns (total: int)
    ensures total == StakeTotal(stakes)
  {
    total := 0;
    for i := 0 to |stakes|
      invariant total == StakeTotal(stakes[..i])
    {
      assert stakes[..i + 1][..i] == stakes[..i];
      total := AddOrKeep(total, stakes[i]);
    }
    assert stakes[..|stakes|] == stakes;
  }

  /** Crediting the coverage of `users` from the purse `p` left `q`, or failed. */
  ghost predicate CoveragePaid(p: Purse, cap: Option<int>, now: nat, users: seq<Address>, stakes: seq<int>,
                               total: int, spent: int, r: Result<()>, q: Purse)
    requires total != 0
  {
    match CoverageCredits(users, stakes, total, spent)
    case Err(_) => r.Err?
    case Ok(credits) =>
      match AccumulateAll(p, cap, now, credits)
      case Ok(paid) => r == Ok(()) && q == paid
      case Err(e) => r == Err(e)
  }

  lemma CoverageTotalNext(stakes: seq<int>, bps: nat, i: nat)
    requires i < |stakes| && CoverageTotal(stakes[..i], bps).Ok?
    ensures CoverageTotal(stakes[..i + 1], bps)
         == var amount := CoverageAmount(stakes[i], bps);
            if amount.Err? then Err(amount.error) else Checked(CoverageTotal(stakes[..i], bps).value + amount.value, PayoutOverflow)
    ensures CoverageTotal(stakes[..i + 1], bps).Err? ==> CoverageTotal(stakes, bps) == CoverageTotal(stakes[..i + 1], bps)
  {
    assert stakes[..i + 1][..i] == stakes[..i];
    if CoverageTotal(stakes[..i + 1], bps).Err? { CoverageTotalStops(stakes, bps, i + 1); }
  }

  lemma {:induction false} CoverageTotalStops(stakes: seq<int>, bps: nat, n: nat)
    requires n <= |stakes| && CoverageTotal(stakes[..n], bps).Err?
    ensures CoverageTotal(stakes, bps) == CoverageTotal(stakes[..n], bps)
    decreases |stakes| - n
  {
    if n == |stakes| {
      assert stakes[..n] == stakes;
    } else {
      assert stakes[..n + 1][..n] == stakes[..n];
      CoverageTotalStops(stakes, bps, n + 1);
    }
  }

  lemma {:induction false} CoverageGrows(users: seq<Address>, stakes: seq<int>, total: int, spent: int, n: nat)
    requires n <= |users| && total != 0
    ensures CoverageCredits(users, stakes, total, spent).Ok? ==>
              && CoverageCredits(users[..n], stakes, total, spent).Ok?
              && CoverageCredits(users[..n], stakes, total, spent).value <= CoverageCredits(users, stakes, total, spent).value
    decreases |users| - n
  {
    if n == |users| {
      assert users[..n] == users;
    } else {
      assert users[..n + 1][..n] == users[..n];
      CoverageGrows(users, stakes, total, spent, n + 1);
    }
  }

  /** One more participant: the share is credited, or the whole distribution fails. */
  lemma CoverageNext(p: Purse, cap: Option<int>, now: nat, users: seq<Address>, stakes: seq<int>, total: int, spent: int,
                     i: nat, q: Purse)
    requires i < |users| && total != 0
    requires CoveragePaid(p, cap, now, users[..i], stakes, total, spent, Ok(()), q)
    ensures var share := CoverageShare(if i < |stakes| then stakes[i] else 0, total, spent);
            if share.Err? then CoverageCredits(users, stakes, total, spent).Err?
            else if share.value <= 0 then CoveragePaid(p, cap, now, users[..i + 1], stakes, total, spent, Ok(()), q)
            else
              match Accumulate(q, cap, now, Credit(users[i], share.value))
              case Ok(t) => CoveragePaid(p, cap, now, users[..i + 1], stakes, total, spent, Ok(()), t)
              case Err(e) => forall t :: CoveragePaid(p, cap, now, users, stakes, total, spent, Err(e), t)
  {
    assert users[..i + 1][..i] == users[..i];
    CoverageGrows(users, stakes, total, spent, i + 1);
    var front := CoverageCredits(users[..i], stakes, total, spent).value;
    var share := CoverageShare(if i < |stakes| then stakes[i] else 0, total, spent);
    if share.Ok? && share.value > 0 {
      AccumulateSnoc(p, cap, now, front, Credit(users[i], share.value));
      var more := front + [Credit(users[i], share.value)];
      var all := CoverageCredits(users, stakes, total, spent);
      if AccumulateAll(p, cap, now, more).Err? && all.Ok? {
        assert all.value[..|more|] == more;
        FailureStays(p, cap, now, all.value, |more|);
      }
    } else if share.Ok? {
      assert front + [] == front;
    }
  }

  /** The coverage of the active round can be computed without overflow. */
  ghost predicate Coverable(s: State, reason: nat) {
    s.active.Some? ==>
      var users := ParticipantsOf(s, s.active.value.id);
      CancelCover(s, users, StakesOf(Returns(s.book, s.active.value, users, Void, false)), reason).Ok?
  }

  /** The insurance fund has covered the stakes of a cancelled round, or failed to. */
  ghost predicate CoverPaid(before: State, after: State, users: seq<Address>, stakes: seq<int>, reason: nat,
                            r: Result<()>, cover: Cover)
  {
    && after == before.(purse := after.purse, fund := after.fund)
    && match CancelCover(before, users, stakes, reason)
       case Err(_) => r.Err?
       case Ok(c) =>
         && c == cover
         && match AccumulateAll(before.purse, before.cfg.maxPending, before.now, c.credits)
            case Ok(purse) => r == Ok(()) && after.purse == purse && after.fund == before.fund - c.spent
            case Err(e) => r == Err(e)
  }

  /** Everybody in the cancelled round is paid, or the cancellation fails. */
  ghost predicate CancelPaid(before: State, covered: State, rd: Round, reason: nat, r: Result<()>, cover: Cover) {
    match CancelRound(before, reason)
    case Ok(t) =>
      && r == Ok(())
      && t == CloseRound(covered, rd.id, Cancelled).(
                active := None, dust := covered.dust + cover.spent - Sum(Amounts(cover.credits)))
    case Err(e) => r.Err? && (Coverable(before, reason) ==> r == Err(e))
  }

  lemma Cancels(before: State, refunded: State, covered: State, rd: Round, stakes: seq<int>, reason: nat, r: Result<()>, cover: Cover)
    requires before.active == Some(rd)
    requires var users := ParticipantsOf(before, rd.id);
             match PayOut(before, rd.id, Returns(before.book, rd, users, Void, false))
             case Ok(t) => refunded == t && stakes == StakesOf(Returns(before.book, rd, users, Void, false))
                           && CoverPaid(refunded, covered, users, stakes, reason, r, cover)
             case Err(e) => r == Err(e)
    ensures CancelPaid(before, covered, rd, reason, r, cover)
  {
  }

  // ----- facts about the loops -----

  lemma ClearNone(b: Book, round: nat)
    ensures ClearUsers(b, round, []) == b
  {
    assert b.positions - {} == b.positions && b.predictions - {} == b.predictions && b.commitments - {} == b.commitments;
  }

  lemma ClearNext(b: Book, round: nat, users: seq<Address>, i: nat)
    requires i < |users|
    ensures var c, k := ClearUsers(b, round, users[..i]), {Key(round, users[i])};
            ClearUsers(b, round, users[..i + 1]) == Book(c.positions - k, c.predictions - k, c.commitments - k)
  {
    var gone := set u | u in users[..i] :: Key(round, u);
    var more := set u | u in users[..i + 1] :: Key(round, u);
    assert more == gone + {Key(round, users[i])};
    assert b.positions - more == (b.positions - gone) - {Key(round, users[i])};
    assert b.predictions - more == (b.predictions - gone) - {Key(round, users[i])};
    assert b.commitments - more == (b.commitments - gone) - {Key(round, users[i])};
  }

  lemma PaidIsPayOut(before: State, round: nat, list: seq<UserRoundOutcome>, r: Result<()>, after: State)
    requires PaysOut(before.purse, before.outcomes, before.cfg.maxPending, before.now, round, list, r, after.purse, after.outcomes)
    requires after == before.(purse := after.purse, outcomes := after.outcomes)
    ensures match PayOut(before, round, list)
            case Ok(t) => r == Ok(()) && after == t
            case Err(e) => r == Err(e)
  {
  }

  /** A competitive round once the fee split is known: fee first, then the payouts. */
  ghost predicate CompetitionPaid(before: State, after: State, es: seq<UpDownStake>, round: nat, side: BetSide,
                                  winning: int, split: PoolSplit, r: Result<()>)
  {
    match CollectFee(before, split.fee)
    case Err(e) => r == Err(e)
    case Ok(charged) =>
      var distributable := split.winning + split.losing;
      if InI128(distributable) && UpDownPayable(es, side, winning, distributable) then
        (match PayOut(charged, round, Competition(es, side, winning, distributable))
         case Ok(t) => r == Ok(()) && after == t
         case Err(e) => r == Err(e))
      else r.Err?
  }

  lemma CompetitionResolves(before: State, after: State, es: seq<UpDownStake>, round: nat, side: BetSide,
                            winning: int, losing: int, split: PoolSplit, paid: Result<()>)
    requires winning != 0 && UpDownFee(Terms(before.cfg), winning, losing) == Ok(split)
    requires CompetitionPaid(before, after, es, round, side, winning, split, paid)
    ensures Resolves(SettleCompetition(es, side, winning, losing, Terms(before.cfg)), round,
                     if paid.Err? then Err(paid.error) else Ok(split.fee), before, after)
  {
  }

  lemma ReturnsResolve(before: State, after: State, round: nat, list: seq<UserRoundOutcome>, paid: Result<()>)
    requires PaysOut(before.purse, before.outcomes, before.cfg.maxPending, before.now, round, list, paid, after.purse, after.outcomes)
    requires after == before.(purse := after.purse, outcomes := after.outcomes)
    ensures Resolves(Ok(Settlement(0, list)), round, if paid.Err? then Err(paid.error) else Ok(0), before, after)
  {
  }

  /** One more term: the running sum goes on, or the whole sum overflows. */
  lemma SumNext(s: seq<int>, i: nat, partial: int)
    requires i < |s| && CheckedSum(s[..i]) == Ok(partial)
    ensures CheckedSum(s[..i + 1]) == Checked(partial + s[i], PayoutOverflow)
    ensures !InI128(partial + s[i]) ==> CheckedSum(s) == Err(PayoutOverflow)
  {
    assert s[..i + 1] == s[..i] + [s[i]];
    CheckedSumSnoc(s[..i], s[i]);
    if !InI128(partial + s[i]) { CheckedSumStops(s, i + 1); }
  }

  /** A round with a closest guess once the fee split is known. */
  ghost predicate ClosestPaid(before: State, after: State, es: seq<PrecisionStake>, price: nat, round: nat,
                              stakes: seq<int>, split: PotSplit, r: Result<()>)
  {
    match CollectFee(before, split.fee)
    case Err(e) => r == Err(e)
    case Ok(charged) => PrizesPaidOut(charged, after, es, price, round, stakes, split.distributable, r)
  }

  ghost predicate PrizesPaidOut(charged: State, after: State, es: seq<PrecisionStake>, price: nat, round: nat,
                                stakes: seq<int>, pool: int, r: Result<()>)
  {
    match PrecisionPayouts(stakes, pool, charged.cfg.policy)
    case Err(e) => r.Err?
    case Ok(pays) =>
      match PayOut(charged, round, Prizes(es, price, pays))
      case Ok(t) => r == Ok(()) && after == t
      case Err(e) => r == Err(e)
  }

  lemma EntriesDistinct(b: Book, round: nat, users: seq<Address>)
    requires Distinct(users)
    ensures var es := PrecisionEntries(b, round, users);
            |es| == |users| && forall i, j :: 0 <= i < j < |es| ==> es[i].user != es[j].user
  {
    var es := PrecisionEntries(b, round, users);
    assert forall i :: 0 <= i < |users| ==> es[i].user == users[i];
  }

  /** Round `rd` has been settled at `price`, with the fee as the result. */
  ghost predicate Settled(before: State, after: State, rd: Round, price: nat, r: Result<int>) {
    Resolves(SettleRound(before.book, rd, Sort(ParticipantsOf(before, rd.id)), price, before.cfg), rd.id, r, before, after)
  }

  /** Once everybody is paid, closing the round completes its settlement. */
  lemma Completes(before: State, paid: State, rd: Round, price: nat, fee: Result<int>) returns (st: Settlement, dust: int)
    requires Settled(before, paid, rd, price, fee)
    requires fee.Ok?
    ensures CompleteSettlement(before, rd, price) == Ok(CloseRound(paid, rd.id, Resolved).(active := None, dust := dust))
  {
    var users := Sort(ParticipantsOf(before, rd.id));
    st := SettleRound(before.book, rd, users, price, before.cfg).value;
    dust := before.dust + Pot(before.book, rd, users) - st.fee - Paid(st.outcomes);
    assert ChargeAndPay(before, rd.id, st) == Ok(paid);
  }

  /** Settling fails, and with error `e` if the payouts themselves can be computed. */
  ghost predicate CannotComplete(s: State, rd: Round, price: nat, e: Error) {
    CompleteSettlement(s, rd, price).Err? && (PayableAt(s, Some(rd), price) ==> CompleteSettlement(s, rd, price) == Err(e))
  }

  lemma SettlingFails(before: State, paid: State, rd: Round, price: nat, fee: Result<int>)
    requires Settled(before, paid, rd, price, fee) && fee.Err?
    ensures CannotComplete(before, rd, price, fee.error)
  {
  }

  ghost predicate DisputePayable(s: State, id: nat) {
    id in s.disputes ==> PayableAt(s, Some(s.disputes[id].round), s.disputes[id].price)
  }

  lemma Finalizes(s: State, id: nat, r: Result<()>, mid: State)
    requires !s.cfg.mode.FullyPaused? && id in s.disputes && s.now >= s.disputes[id].deadline
    requires var d := s.disputes[id];
             CommitsOrFails(CompleteSettlement(s, d.round, d.price), PayableAt(s, Some(d.round), d.price), r, s, mid)
    ensures CommitsOrFails(FinalizeRound(s, id), DisputePayable(s, id), r, s,
                           if r.Ok? then mid.(disputes := mid.disputes - {id}) else mid)
  {
    var d := s.disputes[id];
    var spec := CompleteSettlement(s, d.round, d.price);
    if spec.Ok? {
      var st, charged := Invariants.CompleteChanges(s, d.round, d.price);
      assert FinalizeRound(s, id) == Ok(spec.value.(disputes := s.disputes - {id}));
    } else {
      assert FinalizeRound(s, id) == spec;
    }
  }

  /** A precision round in which nobody is paid out of the others' stakes. */
  lemma NobodyClosest(before: State, after: State, es: seq<PrecisionStake>, price: nat, round: nat, pot: int, returned: Result<()>)
    requires CheckedSum(PrecisionAmounts(es)) == Ok(pot) && (Winners(es, price) == [] || pot <= 0)
    requires var list := if pot > 0 then PrecisionReturns(es, Refund, false) else [];
             PaysOut(before.purse, before.outcomes, before.cfg.maxPending, before.now, round, list, returned, after.purse, after.outcomes)
    requires after == before.(purse := after.purse, outcomes := after.outcomes)
    ensures Resolves(SettlePrecision(es, price, Terms(before.cfg), before.cfg.policy), round,
                     if returned.Err? then Err(returned.error) else Ok(0), before, after)
  {
    var list := if pot > 0 then PrecisionReturns(es, Refund, false) else [];
    assert SettlePrecision(es, price, Terms(before.cfg), before.cfg.policy) == Ok(Settlement(0, list));
    ReturnsResolve(before, after, round, list, returned);
  }

  lemma PotOverflows(before: State, after: State, es: seq<PrecisionStake>, price: nat, round: nat, e: Error)
    requires CheckedSum(PrecisionAmounts(es)).Err?
    ensures Resolves(SettlePrecision(es, price, Terms(before.cfg), before.cfg.policy), round, Err(e), before, after)
  {
  }

  lemma ClosestSettles(es: seq<PrecisionStake>, price: nat, terms: FeeTerms, policy: PayoutPolicy, pot: int, winnerStakes: int, split: PotSplit)
    requires Winners(es, price) != [] && pot > 0 && CheckedSum(PrecisionAmounts(es)) == Ok(pot)
    requires var w := Winners(es, price);
             (forall j :: 0 <= j < |w| ==> w[j] < |es|) && CheckedSum(AmountsAt(es, w)) == Ok(winnerStakes)
    requires PrecisionFee(terms, pot, winnerStakes) == Ok(split)
    ensures SettlePrecision(es, price, terms, policy)
         == match PrecisionPayouts(AmountsAt(es, Winners(es, price)), split.distributable, policy)
            case Ok(pays) => Ok(Settlement(split.fee, Prizes(es, price, pays)))
            case Err(e) => Err(e)
  {
  }

  lemma ClosestResolves(before: State, after: State, es: seq<PrecisionStake>, price: nat, round: nat,
                        pot: int, winnerStakes: int, split: PotSplit, paid: Result<()>)
    requires Winners(es, price) != [] && pot > 0 && CheckedSum(PrecisionAmounts(es)) == Ok(pot)
    requires var w := Winners(es, price);
             && (forall j :: 0 <= j < |w| ==> w[j] < |es|)
             && CheckedSum(AmountsAt(es, w)) == Ok(winnerStakes)
             && ClosestPaid(before, after, es, price, round, AmountsAt(es, w), split, paid)
    requires PrecisionFee(Terms(before.cfg), pot, winnerStakes) == Ok(split)
    ensures Resolves(SettlePrecision(es, price, Terms(before.cfg), before.cfg.policy), round,
                     if paid.Err? then Err(paid.error) else Ok(split.fee), before, after)
  {
    ClosestSettles(es, price, Terms(before.cfg), before.cfg.policy, pot, winnerStakes, split);
    PaidResolves(before, after, es, price, round, AmountsAt(es, Winners(es, price)), split, paid);
  }

  lemma PaidResolves(before: State, after: State, es: seq<PrecisionStake>, price: nat, round: nat,
                     stakes: seq<int>, split: PotSplit, paid: Result<()>)
    requires ClosestPaid(before, after, es, price, round, stakes, split, paid)
    ensures var spec: Result<Settlement> := match PrecisionPayouts(stakes, split.distributable, before.cfg.policy)
                                            case Ok(pays) => Ok(Settlement(split.fee, Prizes(es, price, pays)))
                                            case Err(e) => Err(e);
            Resolves(spec, round, if paid.Err? then Err(paid.error) else Ok(split.fee), before, after)
  {
    if CollectFee(before, split.fee).Ok? { FeeKeepsConfig(before, split.fee); }
    match PrecisionPayouts(stakes, split.distributable, before.cfg.policy)
    case Err(e) =>
    case Ok(pays) => PaidCharges(before, after, Settlement(split.fee, Prizes(es, price, pays)), round, paid);
  }

  lemma FeeKeepsConfig(s: State, fee: int)
    requires CollectFee(s, fee).Ok?
    ensures CollectFee(s, fee).value.cfg == s.cfg
  {
  }

  lemma PaidCharges(before: State, after: State, st: Settlement, round: nat, paid: Result<()>)
    requires match CollectFee(before, st.fee)
             case Err(e) => paid == Err(e)
             case Ok(charged) =>
               match PayOut(charged, round, st.outcomes)
               case Ok(t) => paid == Ok(()) && after == t
               case Err(e) => paid == Err(e)
    ensures Resolves(Ok(st), round, if paid.Err? then Err(paid.error) else Ok(st.fee), before, after)
  {
  }

  /** Paying the winner list and then recording the losers is paying the whole round. */
  lemma PrizesResolve(charged: State, after: State, round: nat, es: seq<PrecisionStake>, price: nat, pays: seq<int>,
                      winners: seq<PrecisionStake>, mask: seq<bool>, paid: Result<()>, q: Purse, n: map<Key, UserRoundOutcome>)
    requires MarksWinners(es, price, mask, winners) && |pays| == |winners|
    requires forall a, b :: 0 <= a < b < |es| ==> es[a].user != es[b].user
    requires PaysOut(charged.purse, charged.outcomes, charged.cfg.maxPending, charged.now, round, WinnerOutcomes(winners, pays), paid, q, n)
    requires paid.Ok? ==> after == charged.(purse := q, outcomes := PersistAll(n, round, LoserOutcomes(es, mask)))
    ensures match PayOut(charged, round, Prizes(es, price, pays))
            case Ok(t) => paid == Ok(()) && after == t
            case Err(e) => paid == Err(e)
  {
    WinnersFirst(charged.outcomes, round, es, price, pays, winners, mask);
  }

  /** A product or a running sum out of range stops a stake-weighted division. */
  lemma WeightedFails(amounts: seq<int>, pool: int, total: int, i: nat)
    requires i < |amounts| && CheckedSum(amounts) == Ok(total) && total > 0
    requires !InI128(amounts[i] * pool) || CheckedSum(SharesOf(amounts, total, pool)) == Err(PayoutOverflow)
    ensures Divides(amounts, pool, StakeWeighted, Err(PayoutOverflow))
  {
  }

  ghost predicate ProductsFit(amounts: seq<int>, pool: int, n: nat)
    requires n <= |amounts|
  {
    forall i :: 0 <= i < n ==> InI128(amounts[i] * pool)
  }

  lemma WeightedDone(amounts: seq<int>, pool: int, total: int, paid: int)
    requires CheckedSum(amounts) == Ok(total) && total > 0 && ProductsFit(amounts, pool, |amounts|)
    requires CheckedSum(SharesOf(amounts, total, pool)) == Ok(paid)
    ensures Divides(amounts, pool, StakeWeighted, Ok((SharesOf(amounts, total, pool), paid)))
  {
  }

  lemma {:induction false} ZeroSum(s: seq<int>)
    requires forall i :: 0 <= i < |s| ==> s[i] == 0
    ensures CheckedSum(s) == Ok(0)
  {
    if s != [] { ZeroSum(s[..|s| - 1]); }
  }

  lemma PayNext(p: Purse, m: map<Key, UserRoundOutcome>, cap: Option<int>, now: nat, round: nat, list: seq<UserRoundOutcome>, i: nat)
    requires i < |list|
    ensures PersistAll(m, round, list[..i + 1]) == Persist(PersistAll(m, round, list[..i]), round, list[i])
    ensures AccumulateAll(p, cap, now, Credits(list[..i + 1]))
         == var q := AccumulateAll(p, cap, now, Credits(list[..i]));
            if q.Ok? && !list[i].kind.Loss? then Accumulate(q.value, cap, now, Credit(list[i].user, list[i].payout)) else q
  {
    CreditsSnoc(list, i);
    PersistSnoc(m, round, list, i);
    AccumulateSnoc(p, cap, now, Credits(list[..i]), Credit(list[i].user, list[i].payout));
    assert Credits(list[..i]) + [] == Credits(list[..i]);
  }

  /** The outcomes of a competitive round, with nothing for a payout that overflows. */
  ghost function Provisional(es: seq<UpDownStake>, side: BetSide, pool: int, distributable: int): seq<UserRoundOutcome> {
    seq(|es|, i requires 0 <= i < |es| =>
      if es[i].side == side && WinnerPayout(es[i].amount, pool, distributable).Err? then UpDownOutcome(es[i], 0, Win)
      else WinOrLose(es[i], side, pool, distributable))
  }

  lemma ProvisionalIs(es: seq<UpDownStake>, side: BetSide, pool: int, distributable: int)
    requires UpDownPayable(es, side, pool, distributable)
    ensures Provisional(es, side, pool, distributable) == Competition(es, side, pool, distributable)
  {
  }

  // ----- the three ways of settling -----

  lemma SettlingBranches(s: State, rd: Round, price: nat)
    ensures var few := s.cfg.minParticipants.Some? && |ParticipantsOf(s, rd.id)| < s.cfg.minParticipants.value;
            var deadline := s.now + s.cfg.disputeLedgers;
            Ledger.SettleWithPrice(s, rd, price)
            == if few then
                 match RefundRound(s, rd, Refund, false, FallbackRefund)
                 case Ok(closed) => Ok(closed.(active := None))
                 case Err(e) => Err(e)
               else if s.cfg.disputeLedgers == 0 then CompleteSettlement(s, rd, price)
               else if deadline > U32_MAX then Err(Overflow)
               else Ok(s.(disputes := s.disputes[rd.id := Dispute(rd, price, deadline)], active := None))
  {
  }
}
