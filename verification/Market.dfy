/** The market contract as an object: storage keys are fields that the entrypoints update
    step by step, and a call that returns an error discards everything it wrote. Every
    entrypoint is proved to do exactly what the ledger's state machine says. */
module Market {
  import opened Types
  import opened Arith
  import opened Sums
  import opened Fees
  import opened Engine
  import opened Ledger
  import opened Books
  import opened Streaming
  import opened Invariants
  import opened Steps
  import opened Runs
  import opened Safety
  import opened Claims
  import opened Loops

  /** The storage that a call may have written by the time it fails. */
  datatype Saved = Saved(balances: map<Address, int>, pending: map<Address, int>, pendingAt: map<Address, nat>,
                         treasury: int, fund: int, outcomes: map<Key, UserRoundOutcome>)

  class Market {
    var now: nat
    var cfg: Config
    var balances: map<Address, int>
    var pending: map<Address, int>
    var pendingAt: map<Address, nat>
    var treasury: int
    var fund: int
    var active: Option<Round>
    var disputes: map<nat, Dispute>
    var participants: map<nat, seq<Address>>
    var positions: map<Key, UserPosition>
    var predictions: map<Key, PrecisionPrediction>
    var commitments: map<Key, PrecisionCommitment>
    var lastRoundId: nat
    var startLedgers: map<nat, nat>
    var outcomes: map<Key, UserRoundOutcome>

    // History, not storage.
    ghost var exits: seq<Exit>
    ghost var minted: int
    ghost var dust: int

    ghost function View(): State
      reads this
    {
      State(now, cfg, balances, Purse(pending, pendingAt), treasury, fund, active, disputes,
            participants, Book(positions, predictions, commitments), lastRoundId, startLedgers,
            outcomes, exits, minted, dust)
    }

    ghost predicate Valid()
      reads this
    {
      Inv(View()) && minted <= I128_MAX
    }

    constructor (admin: Address, config: Config)
      requires ValidConfig(config)
      ensures View() == Initial(admin, config) && Valid()
    {
      now, cfg := 0, config.(admin := admin);
      balances, pending, pendingAt, treasury, fund := map[], map[], map[], 0, 0;
      active, disputes, participants := None, map[], map[];
      positions, predictions, commitments := map[], map[], map[];
      lastRoundId, startLedgers, outcomes := 0, map[], map[];
      exits, minted, dust := [], 0, 0;
      new;
      InitialInv(admin, config);
    }

    function Balance(user: Address): int
      reads this
    {
      if user in balances then balances[user] else 0
    }

    function Pending(user: Address): int
      reads this
    {
      if user in pending then pending[user] else 0
    }

    function Participants(round: nat): seq<Address>
      reads this
    {
      if round in participants then participants[round] else []
    }

    // ----- failed calls -----

    function Save(): Saved
      reads this
    {
      Saved(balances, pending, pendingAt, treasury, fund, outcomes)
    }

    /** The host discards every write of a call that fails. */
    method Discard(saved: Saved)
      modifies this
      ensures View() == old(View()).(balances := saved.balances, purse := Purse(saved.pending, saved.pendingAt),
                                     treasury := saved.treasury, fund := saved.fund, outcomes := saved.outcomes)
    {
      DiscardFees(saved);
      balances := saved.balances;
      pending := saved.pending;
      pendingAt := saved.pendingAt;
    }

    method DiscardFees(saved: Saved)
      modifies this
      ensures View() == old(View()).(treasury := saved.treasury, fund := saved.fund, outcomes := saved.outcomes)
    {
      treasury := saved.treasury;
      fund := saved.fund;
      outcomes := saved.outcomes;
    }

    // ----- shared effects -----

    /** `_accumulate_pending` */
    method AccumulatePending(user: Address, amount: int) returns (r: Result<()>)
      modifies this`pending, this`pendingAt
      ensures match Accumulate(Purse(old(pending), old(pendingAt)), cfg.maxPending, now, Credit(user, amount))
              case Ok(p) => r == Ok(()) && Purse(pending, pendingAt) == p
              case Err(e) => r == Err(e) && pending == old(pending) && pendingAt == old(pendingAt)
    {
      var total :- Checked(Pending(user) + amount, PayoutOverflow);
      if cfg.maxPending.Some? && total > cfg.maxPending.value {
        return Err(PendingWinningsCapExceeded);
      }
      pending := pending[user := total];
      pendingAt := pendingAt[user := now];
      return Ok(());
    }

    /** `_persist_user_outcome` */
    method PersistUserOutcome(round: nat, o: UserRoundOutcome)
      modifies this`outcomes
      ensures outcomes == Persist(old(outcomes), round, o)
    {
      if Key(round, o.user) !in outcomes {
        outcomes := outcomes[Key(round, o.user) := o];
      }
    }

    /** One participant's turn: the credit, unless it is a loss, and then the record. */
    method PayOutcome(round: nat, o: UserRoundOutcome,
                      ghost p: Purse, ghost m: map<Key, UserRoundOutcome>, ghost list: seq<UserRoundOutcome>, ghost i: nat)
      returns (r: Result<()>)
      requires i < |list| && list[i] == o
      requires PaidSoFar(p, m, cfg.maxPending, now, round, list, i, Purse(pending, pendingAt), outcomes)
      modifies this`pending, this`pendingAt, this`outcomes
      ensures r.Ok? ==> PaidSoFar(p, m, cfg.maxPending, now, round, list, i + 1, Purse(pending, pendingAt), outcomes)
      ensures r.Err? ==> AccumulateAll(p, cfg.maxPending, now, Credits(list)) == Err(r.error)
    {
      PayNext(p, m, cfg.maxPending, now, round, list, i);
      if !o.kind.Loss? {
        r := AccumulatePending(o.user, o.payout);
        if r.Err? {
          PayOutStops(p, cfg.maxPending, now, list, i + 1);
          return;
        }
      }
      PersistUserOutcome(round, o);
      r := Ok(());
    }

    /** `collect_insurance_fee` */
    method CollectInsuranceFee(fee: int) returns (r: Result<int>)
      modifies this`fund
      ensures InsurancePart(cfg.insuranceSplitBps, fee).Err? ==> r == InsurancePart(cfg.insuranceSplitBps, fee)
      ensures InsurancePart(cfg.insuranceSplitBps, fee).Ok? ==>
                var part := InsurancePart(cfg.insuranceSplitBps, fee).value;
                if InI128(old(fund) + part) || part == 0 then r == Ok(part) && fund == old(fund) + part else r == Err(Overflow)
    {
      if cfg.insuranceSplitBps == 0 || fee <= 0 {
        return Ok(0);
      }
      var scaled :- Checked(fee * cfg.insuranceSplitBps, Overflow);
      var part := Quot(scaled, BPS_DENOMINATOR);
      if part <= 0 {
        return Ok(0);
      }
      var capped := Min(part, fee);
      var newFund :- Checked(fund + capped, Overflow);
      fund := newFund;
      return Ok(capped);
    }

    /** `_collect_protocol_fee` */
    method CollectProtocolFee(fee: int) returns (r: Result<()>)
      requires InI128(fund)
      modifies this`treasury, this`fund
      ensures match CollectFee(old(View()), fee)
              case Ok(t) => r == Ok(()) && View() == t
              case Err(e) => r == Err(e)
    {
      if fee <= 0 {
        return Ok(());
      }
      var part :- CollectInsuranceFee(fee);
      r := CollectOperations(fee, part);
    }

    /** What the fund does not take goes to the treasury. */
    method CollectOperations(fee: int, part: int) returns (r: Result<()>)
      modifies this`treasury
      ensures if InI128(fee - part) && InI128(old(treasury) + (fee - part))
              then r == Ok(()) && treasury == old(treasury) + (fee - part)
              else r == Err(Overflow)
    {
      var ops :- Checked(fee - part, Overflow);
      var newTreasury :- Checked(treasury + ops, Overflow);
      treasury := newTreasury;
      return Ok(());
    }

    /** `clear_user_positions` for every participant, and the participant list. */
    method ClearRoundStorage(round: nat, users: seq<Address>)
      modifies this`positions, this`predictions, this`commitments, this`participants
      ensures Book(positions, predictions, commitments)
           == ClearUsers(Book(old(positions), old(predictions), old(commitments)), round, users)
      ensures participants == old(participants) - {round}
    {
      ghost var b := Book(positions, predictions, commitments);
      assert ClearUsers(b, round, users[..0]) == b by { ClearNone(b, round); }
      for i := 0 to |users|
        invariant Book(positions, predictions, commitments) == ClearUsers(b, round, users[..i])
        invariant participants == old(participants)
      {
        ClearNext(b, round, users, i);
        var k := Key(round, users[i]);
        positions := positions - {k};
        predictions := predictions - {k};
        commitments := commitments - {k};
      }
      assert users[..|users|] == users;
      participants := participants - {round};
    }

    // ----- returning stakes -----

    /** Every participant of an Up/Down round gets the recorded stake back; `stakes` lists
        what was found, in the order of the participants. */
    method ReturnPositions(round: nat, users: seq<Address>, kind: OutcomeKind) returns (r: Result<()>, stakes: seq<int>)
      requires !kind.Loss? && forall u :: u in users ==> Key(round, u) in positions
      modifies this`pending, this`pendingAt, this`outcomes
      ensures var list := UpDownReturns(UpDownEntries(Book(positions, predictions, commitments), round, users), kind);
              && PaysOut(Purse(old(pending), old(pendingAt)), old(outcomes), cfg.maxPending, now, round, list, r, Purse(pending, pendingAt), outcomes)
              && (r.Ok? ==> stakes == StakesOf(list))
    {
      ghost var p, m := Purse(pending, pendingAt), outcomes;
      ghost var es := UpDownEntries(Book(positions, predictions, commitments), round, users);
      ghost var list := UpDownReturns(es, kind);
      EntriesAligned(Book(positions, predictions, commitments), round, users);
      stakes := [];
      for i := 0 to |users|
        invariant PaidSoFar(p, m, cfg.maxPending, now, round, list, i, Purse(pending, pendingAt), outcomes)
        invariant stakes == UpDownAmounts(es)[..i]
      {
        var user := users[i];
        assert user in users;
        var position := positions[Key(round, user)];
        assert es[i] == UpDownStake(user, position.amount, position.side);
        stakes := stakes + [position.amount];
        r := PayOutcome(round, UserRoundOutcome(user, UpDown, Some(position.side), 0, position.amount, position.amount, kind),
                        p, m, list, i);
        if r.Err? {
          return;
        }
      }
      assert list[..|users|] == list && stakes == StakesOf(list);
      r := Ok(());
    }

    /** The same for a Precision round: the prediction counts, or else the commitment. */
    method ReturnPredictions(round: nat, users: seq<Address>, kind: OutcomeKind, showPrice: bool)
      returns (r: Result<()>, stakes: seq<int>)
      requires !kind.Loss? && PositivePrecision(PrecisionEntries(Book(positions, predictions, commitments), round, users))
      modifies this`pending, this`pendingAt, this`outcomes
      ensures var list := PrecisionReturns(PrecisionEntries(Book(positions, predictions, commitments), round, users), kind, showPrice);
              && PaysOut(Purse(old(pending), old(pendingAt)), old(outcomes), cfg.maxPending, now, round, list, r, Purse(pending, pendingAt), outcomes)
              && (r.Ok? ==> stakes == StakesOf(list))
    {
      ghost var p, m := Purse(pending, pendingAt), outcomes;
      ghost var es := PrecisionEntries(Book(positions, predictions, commitments), round, users);
      ghost var list := PrecisionReturns(es, kind, showPrice);
      stakes := [];
      for i := 0 to |users|
        invariant PaidSoFar(p, m, cfg.maxPending, now, round, list, i, Purse(pending, pendingAt), outcomes)
        invariant stakes == StakesOf(list)[..i]
      {
        var e := ReadEntry(round, users[i]);
        stakes := stakes + [e.amount];
        assert e == es[i];
        if e.amount > 0 {
          r := PayOutcome(round, PrecisionOutcome(if showPrice then e else e.(price := 0), e.amount, kind), p, m, list, i);
          if r.Err? {
            return;
          }
        }
      }
      assert list[..|users|] == list && StakesOf(list)[..|users|] == StakesOf(list);
      r := Ok(());
    }

    method ReturnStakes(rd: Round, users: seq<Address>, kind: OutcomeKind, showPrice: bool)
      returns (r: Result<()>, stakes: seq<int>)
      requires !kind.Loss?
      requires if rd.mode.UpDown? then forall u :: u in users ==> Key(rd.id, u) in positions
               else PositivePrecision(PrecisionEntries(Book(positions, predictions, commitments), rd.id, users))
      modifies this`pending, this`pendingAt, this`outcomes
      ensures var list := Returns(Book(positions, predictions, commitments), rd, users, kind, showPrice);
              && PaysOut(Purse(old(pending), old(pendingAt)), old(outcomes), cfg.maxPending, now, rd.id, list, r, Purse(pending, pendingAt), outcomes)
              && (r.Ok? ==> stakes == StakesOf(list))
    {
      if rd.mode.UpDown? {
        r, stakes := ReturnPositions(rd.id, users, kind);
      } else {
        r, stakes := ReturnPredictions(rd.id, users, kind, showPrice);
      }
    }

    // ----- settling an Up/Down round -----

    /** What one participant of a competitive round gets. */
    method Compete(round: nat, user: Address, side: BetSide, winning: int, distributable: int) returns (r: Result<UserRoundOutcome>)
      requires Key(round, user) in positions
      ensures var position := positions[Key(round, user)];
              var e := UpDownStake(user, position.amount, position.side);
              if e.side == side && WinnerPayout(e.amount, winning, distributable).Err? then r.Err?
              else r == Ok(WinOrLose(e, side, winning, distributable))
    {
      var position := positions[Key(round, user)];
      var o := UserRoundOutcome(user, UpDown, Some(position.side), 0, position.amount, 0, Loss);
      if position.side == side {
        var share :- WinnerPayout(position.amount, winning, distributable);
        o := o.(payout := share, kind := Win);
      }
      return Ok(o);
    }

    /** The loop of `_record_winnings_indexed`: winners share, losers are recorded. */
    method PayCompetition(round: nat, users: seq<Address>, side: BetSide, winning: int, distributable: int)
      returns (r: Result<()>)
      requires forall u :: u in users ==> Key(round, u) in positions
      modifies this`pending, this`pendingAt, this`outcomes
      ensures var es := UpDownEntries(Book(positions, predictions, commitments), round, users);
              if UpDownPayable(es, side, winning, distributable)
              then PaysOut(Purse(old(pending), old(pendingAt)), old(outcomes), cfg.maxPending, now, round,
                           Competition(es, side, winning, distributable), r, Purse(pending, pendingAt), outcomes)
              else r.Err?
    {
      ghost var es := UpDownEntries(Book(positions, predictions, commitments), round, users);
      EntriesAligned(Book(positions, predictions, commitments), round, users);
      ghost var list := Provisional(es, side, winning, distributable);
      r := PaySide(round, users, side, winning, distributable, es, list);
      if UpDownPayable(es, side, winning, distributable) {
        ProvisionalIs(es, side, winning, distributable);
        assert list[..|users|] == list;
      }
    }

    /** The loop: it stops at a winner whose payout cannot be computed or credited. */
    method PaySide(round: nat, users: seq<Address>, side: BetSide, winning: int, distributable: int,
                   ghost es: seq<UpDownStake>, ghost list: seq<UserRoundOutcome>) returns (r: Result<()>)
      requires |es| == |users| && list == Provisional(es, side, winning, distributable)
      requires forall i :: 0 <= i < |users| ==>
                 && Key(round, users[i]) in positions
                 && es[i] == UpDownStake(users[i], positions[Key(round, users[i])].amount, positions[Key(round, users[i])].side)
      modifies this`pending, this`pendingAt, this`outcomes
      ensures if r.Ok? then r == Ok(()) && UpDownPayable(es, side, winning, distributable) &&
                PaidSoFar(Purse(old(pending), old(pendingAt)), old(outcomes), cfg.maxPending, now, round, list, |users|,
                          Purse(pending, pendingAt), outcomes)
              else UpDownPayable(es, side, winning, distributable) ==>
                AccumulateAll(Purse(old(pending), old(pendingAt)), cfg.maxPending, now, Credits(list)) == Err(r.error)
    {
      ghost var p, m := Purse(pending, pendingAt), outcomes;
      for i := 0 to |users|
        invariant forall j :: 0 <= j < i && es[j].side == side ==> WinnerPayout(es[j].amount, winning, distributable).Ok?
        invariant PaidSoFar(p, m, cfg.maxPending, now, round, list, i, Purse(pending, pendingAt), outcomes)
      {
        r := PayIfComputed(round, users[i], side, winning, distributable, p, m, list, i);
        if r.Err? {
          return;
        }
      }
      r := Ok(());
    }

    method PayIfComputed(round: nat, user: Address, side: BetSide, winning: int, distributable: int,
                         ghost p: Purse, ghost m: map<Key, UserRoundOutcome>, ghost list: seq<UserRoundOutcome>, ghost i: nat)
      returns (r: Result<()>)
      requires Key(round, user) in positions && i < |list|
      requires var e := UpDownStake(user, positions[Key(round, user)].amount, positions[Key(round, user)].side);
               (e.side == side && WinnerPayout(e.amount, winning, distributable).Err?) || list[i] == WinOrLose(e, side, winning, distributable)
      requires PaidSoFar(p, m, cfg.maxPending, now, round, list, i, Purse(pending, pendingAt), outcomes)
      modifies this`pending, this`pendingAt, this`outcomes
      ensures var position := positions[Key(round, user)];
              var computed := position.side == side ==> WinnerPayout(position.amount, winning, distributable).Ok?;
              if r.Ok? then computed && PaidSoFar(p, m, cfg.maxPending, now, round, list, i + 1, Purse(pending, pendingAt), outcomes)
              else !computed || AccumulateAll(p, cfg.maxPending, now, Credits(list)) == Err(r.error)
    {
      var o := Compete(round, user, side, winning, distributable);
      if o.Err? {
        return Err(o.error);
      }
      r := PayOutcome(round, o.value, p, m, list, i);
    }

    /** `_record_winnings_indexed` */
    method RecordWinnings(round: nat, users: seq<Address>, side: BetSide, winning: int, losing: int)
      returns (r: Result<int>)
      requires InI128(fund) && forall u :: u in users ==> Key(round, u) in positions
      modifies this`pending, this`pendingAt, this`outcomes, this`treasury, this`fund
      ensures Resolves(SettleCompetition(UpDownEntries(Book(positions, predictions, commitments), round, users), side, winning, losing, Terms(cfg)),
                       round, r, old(View()), View())
    {
      if winning == 0 {
        return Ok(0);
      }
      var split :- UpDownFee(Terms(cfg), winning, losing);
      var paid := ChargeCompetition(round, users, side, winning, split);
      CompetitionResolves(old(View()), View(), UpDownEntries(View().book, round, users), round, side, winning, losing, split, paid);
      r := if paid.Err? then Err(paid.error) else Ok(split.fee);
    }

    /** The fee goes to the treasury before the first winner is paid. */
    method ChargeCompetition(round: nat, users: seq<Address>, side: BetSide, winning: int, split: PoolSplit)
      returns (r: Result<()>)
      requires InI128(fund) && forall u :: u in users ==> Key(round, u) in positions
      modifies this`pending, this`pendingAt, this`outcomes, this`treasury, this`fund
      ensures CompetitionPaid(old(View()), View(), UpDownEntries(Book(positions, predictions, commitments), round, users),
                              round, side, winning, split, r)
    {
      r := CollectProtocolFee(split.fee);
      if r.Err? {
        return;
      }
      ghost var charged := View();
      var distributable :- Checked(split.winning + split.losing, PayoutOverflow);
      r := PayCompetition(round, users, side, winning, distributable);
      ghost var es := UpDownEntries(View().book, round, users);
      if UpDownPayable(es, side, winning, distributable) {
        PaidIsPayOut(charged, round, Competition(es, side, winning, distributable), r, View());
      }
    }

    /** Nobody wins: every position is returned, without a fee. */
    method RefundPositions(round: nat, users: seq<Address>) returns (r: Result<int>)
      requires forall u :: u in users ==> Key(round, u) in positions
      modifies this`pending, this`pendingAt, this`outcomes
      ensures Resolves(Ok(Settlement(0, UpDownReturns(UpDownEntries(old(View()).book, round, users), Refund))), round,
                       r, old(View()), View())
    {
      ghost var es := UpDownEntries(View().book, round, users);
      var refunded, stakes := ReturnPositions(round, users, Refund);
      ReturnsResolve(old(View()), View(), round, UpDownReturns(es, Refund), refunded);
      return if refunded.Err? then Err(refunded.error) else Ok(0);
    }

    /** `_resolve_updown_mode` */
    method ResolveUpDownMode(rd: Round, price: nat) returns (r: Result<int>)
      requires InI128(fund) && rd.mode.UpDown? && forall u :: u in Participants(rd.id) ==> Key(rd.id, u) in positions
      modifies this`pending, this`pendingAt, this`outcomes, this`treasury, this`fund
      ensures Resolves(SettleRound(View().book, rd, Sort(Participants(rd.id)), price, cfg), rd.id, r, old(View()), View())
    {
      var users := Sort(Participants(rd.id));
      SortKeepsMembers(Participants(rd.id));
      ghost var es := UpDownEntries(View().book, rd.id, users);
      assert |es| == |users| by { EntriesAligned(View().book, rd.id, users); }
      if users == [] {
        return Ok(0);
      }
      if OneSided(rd.poolUp, rd.poolDown) || price == rd.priceStart {
        r := RefundPositions(rd.id, users);
        return;
      }
      if price > rd.priceStart {
        r := RecordWinnings(rd.id, users, Up, rd.poolUp, rd.poolDown);
      } else {
        r := RecordWinnings(rd.id, users, Down, rd.poolDown, rd.poolUp);
      }
    }

    // ----- settling a Precision round -----

    /** What one participant put at stake, and the guess if it was revealed. */
    method ReadEntry(round: nat, user: Address) returns (e: PrecisionStake)
      ensures e == PrecisionEntry(Book(positions, predictions, commitments), round, user)
    {
      var k := Key(round, user);
      e := PrecisionStake(user, 0, 0, false);
      if k in predictions {
        e := PrecisionStake(user, predictions[k].amount, predictions[k].price, true);
      } else if k in commitments {
        e := PrecisionStake(user, commitments[k].amount, 0, false);
      }
    }

    /** The first loop of `_resolve_precision_mode`: one pass that sums the pot, keeps the
        least distance so far, and starts the winner list over whenever it improves. */
    method ScanPredictions(round: nat, users: seq<Address>, price: nat)
      returns (r: Result<int>, es: seq<PrecisionStake>, least: Option<nat>, mask: seq<bool>, winners: seq<PrecisionStake>)
      ensures var all := PrecisionEntries(Book(positions, predictions, commitments), round, users);
              && r == CheckedSum(PrecisionAmounts(all))
              && (r.Ok? ==> es == all && |mask| == |es| && Scanned(es, price, least, mask, winners))
    {
      ghost var all := PrecisionEntries(Book(positions, predictions, commitments), round, users);
      ghost var amounts := PrecisionAmounts(all);
      es, least, mask, winners := [], None, [], [];
      var pot := 0;
      for i := 0 to |users|
        invariant es == all[..i] && |mask| == i
        invariant CheckedSum(amounts[..i]) == Ok(pot)
        invariant Scanned(all, price, least, mask, winners)
      {
        var e := ReadEntry(round, users[i]);
        var sum := AddNext(amounts, i, pot, e.amount);
        if sum.Err? {
          return sum, es, least, mask, winners;
        }
        pot, es := sum.value, es + [e];
        least, mask, winners := KeepClosest(all, price, e, least, mask, winners);
      }
      assert all[..|users|] == all && amounts[..|users|] == amounts;
      r := Ok(pot);
    }

    /** `_calculate_precision_payouts` */
    method CalculatePrecisionPayouts(winners: seq<PrecisionStake>, pool: int) returns (r: Result<seq<int>>)
      ensures r == PrecisionPayouts(PrecisionAmounts(winners), pool, cfg.policy)
    {
      var payouts: seq<int> := [];
      var paid := 0;
      if cfg.policy.Equal? {
        if |winners| > 0 {
          var split := DivideEqually(winners, pool);
          if split.Err? {
            return Err(split.error);
          }
          payouts, paid := split.value.0, split.value.1;
        }
      } else {
        var split := DivideByStake(winners, pool);
        if split.Err? {
          return Err(split.error);
        }
        payouts, paid := split.value.0, split.value.1;
      }
      var remainder :- Checked(pool - paid, PayoutOverflow);
      if |winners| > 0 {
        var first :- Checked(payouts[0] + remainder, PayoutOverflow);
        payouts := payouts[0 := first];
      }
      return Ok(payouts);
    }

    method PayWinners(round: nat, winners: seq<PrecisionStake>, payouts: seq<int>) returns (r: Result<()>)
      requires |payouts| == |winners|
      modifies this`pending, this`pendingAt, this`outcomes
      ensures PaysOut(Purse(old(pending), old(pendingAt)), old(outcomes), cfg.maxPending, now, round,
                      WinnerOutcomes(winners, payouts), r, Purse(pending, pendingAt), outcomes)
    {
      ghost var p, m := Purse(pending, pendingAt), outcomes;
      ghost var list := WinnerOutcomes(winners, payouts);
      for i := 0 to |winners|
        invariant PaidSoFar(p, m, cfg.maxPending, now, round, list, i, Purse(pending, pendingAt), outcomes)
      {
        r := PayOutcome(round, PrecisionOutcome(winners[i], payouts[i], Win), p, m, list, i);
        if r.Err? {
          return;
        }
      }
      assert list[..|winners|] == list;
      r := Ok(());
    }

    method RecordLosers(round: nat, es: seq<PrecisionStake>, mask: seq<bool>)
      requires |mask| == |es|
      modifies this`outcomes
      ensures outcomes == PersistAll(old(outcomes), round, LoserOutcomes(es, mask))
    {
      for i := 0 to |es|
        invariant outcomes == PersistAll(old(outcomes), round, LoserOutcomes(es, mask[..i]))
      {
        assert mask[..i + 1][..i] == mask[..i];
        if !mask[i] {
          var o := PrecisionOutcome(es[i], 0, Loss);
          assert (LoserOutcomes(es, mask[..i]) + [o])[..|LoserOutcomes(es, mask[..i])|] == LoserOutcomes(es, mask[..i]);
          PersistUserOutcome(round, o);
        } else {
          assert LoserOutcomes(es, mask[..i]) + [] == LoserOutcomes(es, mask[..i]);
        }
      }
      assert mask[..|es|] == mask;
    }

    /** The closest guesses share the pot that the fee leaves. */
    method PayClosest(round: nat, ghost price: nat, es: seq<PrecisionStake>, mask: seq<bool>, winners: seq<PrecisionStake>, pot: int)
      returns (r: Result<int>)
      requires InI128(fund) && MarksWinners(es, price, mask, winners) && winners != [] && pot > 0
      requires CheckedSum(PrecisionAmounts(es)) == Ok(pot) && PrecisionAmounts(winners) == AmountsAt(es, Winners(es, price))
      requires forall a, b :: 0 <= a < b < |es| ==> es[a].user != es[b].user
      modifies this`pending, this`pendingAt, this`outcomes, this`treasury, this`fund
      ensures Resolves(SettlePrecision(es, price, Terms(cfg), cfg.policy), round, r, old(View()), View())
    {
      var winnerStakes := SumStakes(winners);
      if winnerStakes.Err? {
        return winnerStakes;
      }
      var split :- PrecisionFee(Terms(cfg), pot, winnerStakes.value);
      var paid := ChargePrizes(round, price, es, mask, winners, split);
      ClosestResolves(old(View()), View(), es, price, round, pot, winnerStakes.value, split, paid);
      r := if paid.Err? then Err(paid.error) else Ok(split.fee);
    }

    /** The fee, the winners' payouts and the losers' records, in that order. */
    method ChargePrizes(round: nat, ghost price: nat, es: seq<PrecisionStake>, mask: seq<bool>, winners: seq<PrecisionStake>, split: PotSplit)
      returns (r: Result<()>)
      requires InI128(fund) && MarksWinners(es, price, mask, winners)
      requires forall a, b :: 0 <= a < b < |es| ==> es[a].user != es[b].user
      modifies this`pending, this`pendingAt, this`outcomes, this`treasury, this`fund
      ensures ClosestPaid(old(View()), View(), es, price, round, PrecisionAmounts(winners), split, r)
    {
      r := CollectProtocolFee(split.fee);
      if r.Err? {
        return;
      }
      r := PayPrizes(round, price, es, mask, winners, split.distributable);
    }

    method PayPrizes(round: nat, ghost price: nat, es: seq<PrecisionStake>, mask: seq<bool>, winners: seq<PrecisionStake>, pool: int)
      returns (r: Result<()>)
      requires MarksWinners(es, price, mask, winners)
      requires forall a, b :: 0 <= a < b < |es| ==> es[a].user != es[b].user
      modifies this`pending, this`pendingAt, this`outcomes
      ensures PrizesPaidOut(old(View()), View(), es, price, round, PrecisionAmounts(winners), pool, r)
    {
      var payouts :- CalculatePrecisionPayouts(winners, pool);
      r := PayWinners(round, winners, payouts);
      ghost var q, n := Purse(pending, pendingAt), outcomes;
      if r.Ok? {
        RecordLosers(round, es, mask);
      }
      PrizesResolve(old(View()), View(), round, es, price, payouts, winners, mask, r, q, n);
    }

    /** `_resolve_precision_mode` */
    method ResolvePrecisionMode(rd: Round, price: nat) returns (r: Result<int>)
      requires InI128(fund) && rd.mode.Precision? && Distinct(Participants(rd.id))
      requires PositivePrecision(PrecisionEntries(Book(positions, predictions, commitments), rd.id, Sort(Participants(rd.id))))
      modifies this`pending, this`pendingAt, this`outcomes, this`treasury, this`fund
      ensures Resolves(SettleRound(View().book, rd, Sort(Participants(rd.id)), price, cfg), rd.id, r, old(View()), View())
    {
      var users := Sort(Participants(rd.id));
      SortKeepsMembers(Participants(rd.id));
      if users == [] {
        return Ok(0);
      }
      r := ResolvePredictions(rd.id, users, price);
    }

    method ResolvePredictions(round: nat, users: seq<Address>, price: nat) returns (r: Result<int>)
      requires InI128(fund) && Distinct(users)
      requires PositivePrecision(PrecisionEntries(Book(positions, predictions, commitments), round, users))
      modifies this`pending, this`pendingAt, this`outcomes, this`treasury, this`fund
      ensures Resolves(SettlePrecision(PrecisionEntries(Book(positions, predictions, commitments), round, users), price, Terms(cfg), cfg.policy),
                       round, r, old(View()), View())
    {
      var pot, es, least, mask, winners := ScanPredictions(round, users, price);
      if pot.Err? {
        PotOverflows(View(), View(), PrecisionEntries(View().book, round, users), price, round, pot.error);
        return pot;
      }
      ScanFindsWinners(es, price, least, mask, winners);
      if winners != [] && pot.value > 0 {
        EntriesDistinct(View().book, round, users);
        r := PayClosest(round, price, es, mask, winners, pot.value);
      } else {
        r := ReturnPot(round, users, price, pot.value);
      }
    }

    /** Nobody revealed: every stake goes back and no fee is taken. */
    method ReturnPot(round: nat, users: seq<Address>, ghost price: nat, pot: int) returns (r: Result<int>)
      requires var es := PrecisionEntries(Book(positions, predictions, commitments), round, users);
               PositivePrecision(es) && CheckedSum(PrecisionAmounts(es)) == Ok(pot) && (Winners(es, price) == [] || pot <= 0)
      modifies this`pending, this`pendingAt, this`outcomes
      ensures Resolves(SettlePrecision(PrecisionEntries(Book(positions, predictions, commitments), round, users), price, Terms(cfg), cfg.policy),
                       round, r, old(View()), View())
    {
      ghost var es := PrecisionEntries(View().book, round, users);
      var returned: Result<()> := Ok(());
      if pot > 0 {
        var stakes;
        returned, stakes := ReturnPredictions(round, users, Refund, false);
      }
      NobodyClosest(old(View()), View(), es, price, round, pot, returned);
      r := if returned.Err? then Err(returned.error) else Ok(0);
    }

    // ----- the end of a round -----

    method PayRound(rd: Round, price: nat) returns (r: Result<int>)
      requires Readable(View(), rd)
      modifies this`pending, this`pendingAt, this`outcomes, this`treasury, this`fund
      ensures Settled(old(View()), View(), rd, price, r)
    {
      if rd.mode.UpDown? {
        r := ResolveUpDownMode(rd, price);
      } else {
        r := ResolvePrecisionMode(rd, price);
      }
    }

    /** An error discards what the loops have written. */
    method PayRoundOrDiscard(rd: Round, price: nat) returns (r: Result<int>)
      requires Readable(View(), rd)
      modifies this
      ensures r.Ok? ==> Settled(old(View()), View(), rd, price, r)
      ensures r.Err? ==> CannotComplete(old(View()), rd, price, r.error) && View() == old(View())
    {
      var saved := Save();
      r := PayRound(rd, price);
      if r.Err? {
        SettlingFails(old(View()), View(), rd, price, r);
        Discard(saved);
      }
    }

    /** `_complete_settlement`: pays, clears the round's storage, and removes the active round
        marker. */
    method CompleteSettlement(rd: Round, price: nat) returns (r: Result<()>)
      requires Readable(View(), rd)
      modifies this
      ensures CommitsOrFails(Ledger.CompleteSettlement(old(View()), rd, price), PayableAt(old(View()), Some(rd), price),
                             r, old(View()), View())
    {
      ghost var before := View();
      var fee := PayRoundOrDiscard(rd, price);
      if fee.Err? {
        return Err(fee.error);
      }
      ghost var st, kept := Completes(before, View(), rd, price, fee);
      RetireRound(rd.id, Resolved, kept - dust);
      return Ok(());
    }

    /** The round's stakes and participant list are removed. */
    method CloseRound(round: nat, ghost status: ArchiveStatus)
      modifies this`positions, this`predictions, this`commitments, this`participants, this`exits
      ensures View() == Ledger.CloseRound(old(View()), round, status)
    {
      ClearRoundStorage(round, Participants(round));
      exits := exits + [Exit(round, status)];
    }

    /** The active round marker goes too; `lost` is what rounding left over. */
    method RetireRound(round: nat, ghost status: ArchiveStatus, ghost lost: int)
      modifies this
      ensures View() == Ledger.CloseRound(old(View()), round, status).(active := None, dust := old(dust) + lost)
    {
      CloseRound(round, status);
      active := None;
      dust := dust + lost;
    }

    /** The whole stake of everybody goes to pending winnings and the round is closed. */
    method RefundRound(rd: Round, kind: OutcomeKind, showPrice: bool, ghost status: ArchiveStatus)
      returns (r: Result<()>, stakes: seq<int>)
      requires Readable(View(), rd) && !kind.Loss?
      modifies this
      ensures Commits(Ledger.RefundRound(old(View()), rd, kind, showPrice, status), r, old(View()), View())
      ensures r.Ok? ==> stakes == StakesOf(Returns(old(View()).book, rd, ParticipantsOf(old(View()), rd.id), kind, showPrice))
    {
      ghost var before := View();
      var saved := Save();
      r, stakes := ReturnStakes(rd, Participants(rd.id), kind, showPrice);
      PaidIsPayOut(before, rd.id, Returns(before.book, rd, ParticipantsOf(before, rd.id), kind, showPrice), r, View());
      if r.Err? {
        Discard(saved);
        return;
      }
      CloseRound(rd.id, status);
    }

    /** The result waits for the dispute window to close. */
    /** `_refund_under_threshold` */
    method RefundUnderThreshold(rd: Round) returns (r: Result<()>)
      requires Readable(View(), rd)
      modifies this
      ensures match Ledger.RefundRound(old(View()), rd, Refund, false, FallbackRefund)
              case Ok(closed) => r == Ok(()) && View() == closed.(active := None)
              case Err(e) => r == Err(e) && View() == old(View())
    {
      var stakes;
      r, stakes := RefundRound(rd, Refund, false, FallbackRefund);
      if r.Ok? {
        active := None;
      }
    }

    method StageDispute(rd: Round, price: nat) returns (r: Result<()>)
      modifies this
      ensures var deadline := now + cfg.disputeLedgers;
              if deadline > U32_MAX then r == Err(Overflow) && View() == old(View())
              else r == Ok(()) && View() == old(View()).(disputes := old(disputes)[rd.id := Dispute(rd, price, deadline)], active := None)
    {
      if now + cfg.disputeLedgers > U32_MAX {
        return Err(Overflow);
      }
      disputes := disputes[rd.id := Dispute(rd, price, now + cfg.disputeLedgers)];
      active := None;
      return Ok(());
    }

    /** `_settle_round_with_price` */
    method SettleWithPrice(rd: Round, price: nat) returns (r: Result<()>)
      requires Readable(View(), rd)
      modifies this
      ensures CommitsOrFails(Ledger.SettleWithPrice(old(View()), rd, price),
                             PayableAt(old(View()), Some(rd), price), r, old(View()), View())
    {
      SettlingBranches(View(), rd, price);
      if cfg.minParticipants.Some? && |Participants(rd.id)| < cfg.minParticipants.value {
        r := RefundUnderThreshold(rd);
        return;
      }
      if cfg.disputeLedgers > 0 {
        r := StageDispute(rd, price);
        return;
      }
      r := CompleteSettlement(rd, price);
    }

    /** `resolve_round` */
    method ResolveRound(price: nat, startLedger: nat, gatesPass: bool) returns (r: Result<()>)
      requires Valid()
      modifies this
      ensures CommitsOrFails(Ledger.ResolveRound(old(View()), price, startLedger, gatesPass),
                             PayableAt(old(View()), old(active), price), r, old(View()), View())
    {
      ghost var before := View();
      :- Need(price != 0, InvalidPrice);
      :- Need(!cfg.mode.FullyPaused?, ContractPaused);
      :- Need(active.Some?, NoActiveRound);
      :- Need(startLedger == active.value.startLedger, InvalidOracleRound);
      :- Need(gatesPass, OracleNotLive);
      :- Need(now >= active.value.end, RoundNotEnded);
      LiveIsReadable(before, active.value);
      r := SettleWithPrice(active.value, price);
    }

    /** `void_round` */
    method VoidRound(id: nat) returns (r: Result<()>)
      requires Valid()
      modifies this
      ensures Commits(Ledger.VoidRound(old(View()), id), r, old(View()), View())
    {
      ghost var before := View();
      :- Need(!cfg.mode.FullyPaused?, ContractPaused);
      :- Need(id in disputes, RoundNotCancellable);
      :- Need(now < disputes[id].deadline, RoundNotCancellable);
      var rd := disputes[id].round.(id := id);
      RefundSafe(before, rd, Void, true, Voided);
      LiveIsReadable(before, rd);
      var stakes;
      r, stakes := RefundRound(rd, Void, true, Voided);
      if r.Ok? {
        disputes := disputes - {id};
      }
    }

    /** `finalize_round` */
    method FinalizeRound(id: nat) returns (r: Result<()>)
      requires Valid()
      modifies this
      ensures CommitsOrFails(Ledger.FinalizeRound(old(View()), id),
                             DisputePayable(old(View()), id), r, old(View()), View())
    {
      ghost var before := View();
      :- Need(!cfg.mode.FullyPaused?, ContractPaused);
      :- Need(id in disputes, NoActiveRound);
      :- Need(now >= disputes[id].deadline, RoundNotEnded);
      LiveIsReadable(before, disputes[id].round);
      r := CompleteSettlement(disputes[id].round, disputes[id].price);
      Finalizes(before, id, r, View());
      if r.Ok? {
        disputes := disputes - {id};
      }
    }

    // ----- cancelling -----

    /** What the insurance fund would have to pay in full. */
    method CoverageWanted(stakes: seq<int>) returns (r: Result<int>)
      ensures r == CoverageTotal(stakes, cfg.insuranceCoverageBps)
    {
      var total := 0;
      for i := 0 to |stakes|
        invariant CoverageTotal(stakes[..i], cfg.insuranceCoverageBps) == Ok(total)
      {
        CoverageTotalNext(stakes, cfg.insuranceCoverageBps, i);
        var amount :- CoverageAmount(stakes[i], cfg.insuranceCoverageBps);
        total :- Checked(total + amount, PayoutOverflow);
      }
      assert stakes[..|stakes|] == stakes;
      return Ok(total);
    }

    /** `deduct_insurance_coverage` */
    method DeductCoverage(requested: int) returns (distributed: int)
      modifies this`fund
      ensures distributed == if requested <= 0 || old(fund) <= 0 then 0 else Min(requested, old(fund))
      ensures fund == old(fund) - distributed
    {
      if requested <= 0 || fund <= 0 {
        return 0;
      }
      distributed := Min(requested, fund);
      fund := fund - distributed;
    }

    /** Every participant gets a share of `spent` in proportion to the stake at the same index. */
    method PayCoverage(users: seq<Address>, stakes: seq<int>, total: int, spent: int) returns (r: Result<()>)
      requires total != 0
      modifies this`pending, this`pendingAt
      ensures CoveragePaid(Purse(old(pending), old(pendingAt)), cfg.maxPending, now, users, stakes, total, spent, r, Purse(pending, pendingAt))
    {
      ghost var p := Purse(pending, pendingAt);
      for i := 0 to |users|
        invariant CoveragePaid(p, cfg.maxPending, now, users[..i], stakes, total, spent, Ok(()), Purse(pending, pendingAt))
      {
        CoverageNext(p, cfg.maxPending, now, users, stakes, total, spent, i, Purse(pending, pendingAt));
        var share :- CoverageShare(if i < |stakes| then stakes[i] else 0, total, spent);
        if share > 0 {
          r := AccumulatePending(users[i], share);
          if r.Err? {
            return;
          }
        }
      }
      assert users[..|users|] == users;
      r := Ok(());
    }

    /** The insurance part of `cancel_round`. */
    method CoverStakes(users: seq<Address>, stakes: seq<int>, reason: nat) returns (r: Result<()>, ghost cover: Cover)
      modifies this`pending, this`pendingAt, this`fund
      ensures CoverPaid(old(View()), View(), users, stakes, reason, r, cover)
    {
      cover := Cover(0, []);
      if !Insured(cfg, reason) {
        return Ok(()), cover;
      }
      var wanted := CoverageWanted(stakes);
      if wanted.Err? {
        return Err(wanted.error), cover;
      }
      var spent := DeductCoverage(wanted.value);
      var total := TotalStake(stakes);
      if spent > 0 && total > 0 {
        r := PayCoverage(users, stakes, total, spent);
        cover := Cover(spent, if CoverageCredits(users, stakes, total, spent).Ok? then CoverageCredits(users, stakes, total, spent).value else []);
      } else {
        r, cover := Ok(()), Cover(spent, []);
      }
    }

    /** `cancel_round` */
    method CancelRound(reason: nat) returns (r: Result<()>)
      requires Valid()
      modifies this
      ensures CommitsOrFails(Ledger.CancelRound(old(View()), reason), Coverable(old(View()), reason), r, old(View()), View())
    {
      ghost var before := View();
      :- Need(active.Some?, RoundNotCancellable);
      LiveIsReadable(before, active.value);
      r := CancelActive(active.value, reason);
    }

    /** Refunds first, then coverage out of the fund, then the round's storage is cleared. */
    method CancelActive(rd: Round, reason: nat) returns (r: Result<()>)
      requires active == Some(rd) && Readable(View(), rd)
      modifies this
      ensures CommitsOrFails(Ledger.CancelRound(old(View()), reason), Coverable(old(View()), reason), r, old(View()), View())
    {
      var saved := Save();
      ghost var cover: Cover;
      r, cover := RefundAndCover(rd, reason);
      if r.Err? {
        Discard(saved);
        return;
      }
      RetireRound(rd.id, Cancelled, cover.spent - Sum(Amounts(cover.credits)));
    }

    method RefundAndCover(rd: Round, reason: nat) returns (r: Result<()>, ghost cover: Cover)
      requires active == Some(rd) && Readable(View(), rd)
      modifies this`pending, this`pendingAt, this`outcomes, this`fund
      ensures CancelPaid(old(View()), View(), rd, reason, r, cover)
    {
      ghost var before := View();
      cover := Cover(0, []);
      var users := Participants(rd.id);
      var stakes;
      r, stakes := ReturnStakes(rd, users, Void, false);
      ghost var refunded := View();
      PaidIsPayOut(before, rd.id, Returns(before.book, rd, users, Void, false), r, refunded);
      if r.Ok? {
        r, cover := CoverStakes(users, stakes, reason);
      }
      Cancels(before, refunded, View(), rd, stakes, reason, r, cover);
    }

    // ----- minting and creating rounds -----

    /** `mint_initial`. The caller learns the balance. */
    method MintInitial(user: Address, allowed: bool) returns (r: Result<int>)
      modifies this
      ensures match Mint(old(View()), user, allowed)
              case Ok(t) => r == Ok(BalanceOf(t, user)) && View() == t
              case Err(e) => r == Err(e) && View() == old(View())
    {
      if !cfg.mode.Normal? {
        return Err(ContractPaused);
      }
      if user in balances {
        return Ok(balances[user]);
      }
      :- Need(allowed, MintLimitExceeded);
      balances := balances[user := INITIAL_MINT];
      minted := minted + INITIAL_MINT;
      return Ok(INITIAL_MINT);
    }

    /** `create_round` */
    method CreateRound(price: nat, mode: Option<nat>) returns (r: Result<()>)
      modifies this
      ensures Commits(Ledger.CreateRound(old(View()), price, mode), r, old(View()), View())
    {
      if !(1 <= price <= MAX_START_PRICE) {
        return Err(InvalidStartPrice);
      }
      var m := if mode.Some? then mode.value else 0;
      :- Need(m <= 1, InvalidMode);
      :- Need(!cfg.mode.FullyPaused?, ContractPaused);
      :- Need(active.None?, RoundAlreadyActive);
      :- Need(now !in startLedgers, RoundStartLedgerReused);
      var id := lastRoundId + 1;
      :- Need(id <= U64_MAX, Overflow);
      :- Need(now + cfg.betWindow <= U32_MAX && now + cfg.runWindow <= U32_MAX, Overflow);
      lastRoundId := id;
      active := Some(Round(id, price, now, now + cfg.betWindow, now + cfg.runWindow, 0, 0, if m == 0 then UpDown else Precision));
      startLedgers := startLedgers[now := id];
      return Ok(());
    }

    // ----- stakes -----

    /** The guards shared by every entrypoint that takes a stake. */
    method CheckOpen(user: Address, amount: int, mode: RoundMode) returns (r: Result<Round>)
      ensures r == OpenRound(View(), user, amount, mode)
    {
      if active.None? {
        return Err(NoActiveRound);
      }
      var rd := active.value;
      if cfg.maxExposure.Some? {
        var next :- Checked(Exposure(Book(positions, predictions, commitments), Key(rd.id, user)) + amount, Overflow);
        :- Need(next <= cfg.maxExposure.value, ExposureCapExceeded);
      }
      :- Need(rd.mode == mode, WrongModeForPrediction);
      var close := if rd.betEnd <= cfg.closeBuffer then 0 else rd.betEnd - cfg.closeBuffer;
      :- Need(now < rd.betEnd, RoundEnded);
      :- Need(!(cfg.closeBuffer > 0 && now >= close), RoundEnded);
      return Ok(rd);
    }

    /** The stake leaves the balance and the user joins the participant list. */
    method JoinRound(round: nat, user: Address, amount: int)
      modifies this`balances, this`participants
      ensures View() == Join(old(View()), round, user, amount)
    {
      balances := balances[user := Balance(user) - amount];
      participants := participants[round := Participants(round) + [user]];
    }

    /** `place_bet` */
    method PlaceBet(user: Address, amount: int, side: BetSide) returns (r: Result<()>)
      modifies this
      ensures Commits(Ledger.PlaceBet(old(View()), user, amount, side), r, old(View()), View())
    {
      if !cfg.mode.Normal? {
        return Err(ContractPaused);
      }
      :- StakeRules(cfg, amount);
      var open := CheckOpen(user, amount, UpDown);
      if open.Err? {
        return Err(open.error);
      }
      var rd := open.value;
      :- Need(Balance(user) >= amount, InsufficientBalance);
      var k := Key(rd.id, user);
      :- Need(k !in positions, AlreadyBet);
      var pool :- Checked((if side.Up? then rd.poolUp else rd.poolDown) + amount, Overflow);
      JoinRound(rd.id, user, amount);
      positions := positions[k := UserPosition(amount, side)];
      active := Some(if side.Up? then rd.(poolUp := pool) else rd.(poolDown := pool));
      return Ok(());
    }

    /** `place_precision_prediction` */
    method PlacePrediction(user: Address, amount: int, price: nat) returns (r: Result<()>)
      modifies this
      ensures Commits(Ledger.PlacePrediction(old(View()), user, amount, price), r, old(View()), View())
    {
      if !cfg.mode.Normal? {
        return Err(ContractPaused);
      }
      :- StakeRules(cfg, amount);
      :- Need(price <= 99_999_999, InvalidPrice);
      var open := CheckOpen(user, amount, Precision);
      if open.Err? {
        return Err(open.error);
      }
      var k := Key(open.value.id, user);
      :- Need(k !in predictions && k !in commitments, AlreadyBet);
      :- Need(|Participants(open.value.id)| < cfg.maxPrecision, PrecisionCapExceeded);
      :- Need(Balance(user) >= amount, InsufficientBalance);
      JoinRound(open.value.id, user, amount);
      predictions := predictions[k := PrecisionPrediction(price, amount)];
      return Ok(());
    }

    /** `commit_prediction` */
    method CommitPrediction(user: Address, hash: Digest, amount: int) returns (r: Result<()>)
      modifies this
      ensures Commits(Ledger.CommitPrediction(old(View()), user, hash, amount), r, old(View()), View())
    {
      if !cfg.mode.Normal? {
        return Err(ContractPaused);
      }
      :- Need(!hash.ZeroDigest?, InvalidCommitment);
      :- StakeRules(cfg, amount);
      var open := CheckOpen(user, amount, Precision);
      if open.Err? {
        return Err(open.error);
      }
      :- Need(Balance(user) >= amount, InsufficientBalance);
      var k := Key(open.value.id, user);
      :- Need(k !in predictions && k !in commitments, AlreadyBet);
      JoinRound(open.value.id, user, amount);
      commitments := commitments[k := PrecisionCommitment(hash, amount, false)];
      return Ok(());
    }

    /** `reveal_prediction` */
    method RevealPrediction(user: Address, price: nat, salt: seq<nat>) returns (r: Result<()>)
      modifies this
      ensures Commits(Ledger.RevealPrediction(old(View()), user, price, salt), r, old(View()), View())
    {
      if !cfg.mode.Normal? {
        return Err(ContractPaused);
      }
      :- Need(HasEntropy(salt), InvalidSalt);
      :- Need(active.Some?, NoActiveRound);
      :- Need(active.value.mode.Precision?, WrongModeForPrediction);
      :- Need(active.value.betEnd <= now < active.value.end, InvalidRevealWindow);
      var k := Key(active.value.id, user);
      :- Need(k in commitments, CommitmentNotFound);
      var c := commitments[k];
      :- Need(!c.revealed, AlreadyRevealed);
      :- Need(c.hash == Sha256(price, salt), HashMismatch);
      commitments := commitments[k := c.(revealed := true)];
      predictions := predictions[k := PrecisionPrediction(price, c.amount)];
      return Ok(());
    }

    /** The participant list is rebuilt without the user. */
    method LeaveList(round: nat, user: Address)
      modifies this`participants
      ensures participants == old(participants)[round := Without(old(Participants(round)), user)]
    {
      var users := Participants(round);
      var rest: seq<Address> := [];
      for i := 0 to |users|
        invariant rest == Without(users[..i], user)
      {
        assert users[..i + 1][..i] == users[..i];
        if users[i] != user {
          rest := rest + [users[i]];
        }
      }
      assert users[..|users|] == users;
      participants := participants[round := rest];
    }

    /** `cash_out_early` */
    method CashOutEarly(user: Address) returns (r: Result<()>)
      requires InI128(fund)
      modifies this
      ensures Commits(Ledger.CashOutEarly(old(View()), user), r, old(View()), View())
    {
      if !cfg.mode.Normal? {
        return Err(ContractPaused);
      }
      :- Need(cfg.cashoutBps.Some? && 0 < cfg.cashoutBps.value <= BPS_DENOMINATOR, EarlyCashoutDisabled);
      :- Need(active.Some?, NoActiveRound);
      var rd := active.value;
      :- Need(rd.mode.UpDown?, WrongModeForCashout);
      :- Need(rd.betEnd <= now < rd.end, InvalidPhaseForCashout);
      var k := Key(rd.id, user);
      :- Need(k in positions, PositionNotFound);
      var position := positions[k];
      :- Need(position.amount > 0, InvalidBetAmount);
      var scaled :- Checked(position.amount * cfg.cashoutBps.value, Overflow);
      var forfeit := Quot(scaled, BPS_DENOMINATOR);
      var cashout :- Checked(position.amount - forfeit, Overflow);
      var pool :- Checked((if position.side.Up? then rd.poolUp else rd.poolDown) - position.amount, Overflow);
      r := ExitRound(rd, user, position, cashout, forfeit, pool);
    }

    /** The payout and the forfeit are booked, and the position leaves the pool and the lists. */
    method ExitRound(rd: Round, user: Address, position: UserPosition, cashout: int, forfeit: int, pool: int) returns (r: Result<()>)
      requires InI128(fund)
      modifies this
      ensures Commits(Ledger.ExitRound(old(View()), rd, user, position, cashout, forfeit, pool), r, old(View()), View())
    {
      r := MoveCashOut(user, cashout, forfeit);
      if r.Ok? {
        active := Some(if position.side.Up? then rd.(poolUp := pool) else rd.(poolDown := pool));
        LeaveRound(rd.id, UserRoundOutcome(user, UpDown, Some(position.side), 0, position.amount, cashout, Refund));
      }
    }

    /** The result is recorded, and the position and the place in the list are given up. */
    method LeaveRound(round: nat, o: UserRoundOutcome)
      modifies this`outcomes, this`positions, this`participants
      ensures View() == old(View()).(
                          outcomes := Persist(old(outcomes), round, o),
                          book := old(View()).book.(positions := old(positions) - {Key(round, o.user)}),
                          participants := old(participants)[round := Without(old(Participants(round)), o.user)])
    {
      PersistUserOutcome(round, o);
      positions := positions - {Key(round, o.user)};
      LeaveList(round, o.user);
    }

    method CreditCashOut(user: Address, cashout: int) returns (r: Result<()>)
      modifies this`pending, this`pendingAt
      ensures match CashOutCredit(Purse(old(pending), old(pendingAt)), cfg.maxPending, now, Credit(user, cashout))
              case Ok(p) => r == Ok(()) && Purse(pending, pendingAt) == p
              case Err(e) => r == Err(e) && pending == old(pending) && pendingAt == old(pendingAt)
    {
      r := Ok(());
      if cashout > 0 {
        r := AccumulatePending(user, cashout);
      }
    }

    /** The payout becomes pending winnings and the forfeit a fee, or neither happens. */
    method MoveCashOut(user: Address, cashout: int, forfeit: int) returns (r: Result<()>)
      requires InI128(fund)
      modifies this
      ensures Commits(Ledger.MoveCashOut(old(View()), user, cashout, forfeit), r, old(View()), View())
    {
      var saved := Save();
      r := CreditCashOut(user, cashout);
      if r.Ok? {
        r := CollectForfeit(forfeit, saved);
      }
    }

    /** The penalty is charged last; a failure here also takes the credit back. */
    method CollectForfeit(forfeit: int, saved: Saved) returns (r: Result<()>)
      requires InI128(fund)
      modifies this
      ensures match CollectFee(old(View()), forfeit)
              case Ok(t) => r == Ok(()) && View() == t
              case Err(e) => r == Err(e) && View() == old(View()).(
                balances := saved.balances, purse := Purse(saved.pending, saved.pendingAt),
                treasury := saved.treasury, fund := saved.fund, outcomes := saved.outcomes)
    {
      r := CollectProtocolFee(forfeit);
      if r.Err? {
        Discard(saved);
      }
    }

    // ----- moving money out -----

    /** The claim of one user, once the guards have passed. */
    method ClaimFor(user: Address) returns (r: Result<int>)
      modifies this`pending, this`pendingAt, this`balances
      ensures match ClaimOne(old(View()), user)
              case Ok(t) => r == Ok(t.1) && View() == t.0
              case Err(e) => r == Err(e) && View() == old(View())
    {
      var amount := Pending(user);
      if amount == 0 {
        return Ok(0);
      }
      var balance :- Checked(Balance(user) + amount, PayoutOverflow);
      MovePending(user, user, balance);
      return Ok(amount);
    }

    /** `claim_winnings` */
    method ClaimWinnings(user: Address) returns (r: Result<int>)
      modifies this
      ensures match Ledger.Claim(old(View()), user)
              case Ok(t) => r == Ok(t.1) && View() == t.0
              case Err(e) => r == Err(e) && View() == old(View())
    {
      if cfg.mode.FullyPaused? {
        return Err(ContractPaused);
      }
      r := ClaimFor(user);
    }

    /** Claims in the order of the list; a failure puts back what earlier users claimed. */
    method ClaimEach(users: seq<Address>) returns (r: Result<seq<int>>)
      modifies this
      ensures match ClaimAll(old(View()), users)
              case Ok(t) => r == Ok(t.1) && View() == t.0
              case Err(e) => r == Err(e) && View() == old(View())
    {
      ghost var before := View();
      var saved := Save();
      var amounts: seq<int> := [];
      for i := 0 to |users|
        invariant ClaimAll(before, users[..i]) == Ok((View(), amounts))
        invariant View() == before.(balances := balances, purse := Purse(pending, pendingAt))
      {
        ClaimsNext(before, users, i);
        var claimed := ClaimFor(users[i]);
        if claimed.Err? {
          Discard(saved);
          return Err(claimed.error);
        }
        amounts := amounts + [claimed.value];
      }
      assert users[..|users|] == users;
      return Ok(amounts);
    }

    /** `claim_many`: duplicates are found as equal neighbours once the list is sorted. */
    method ClaimMany(users: seq<Address>) returns (r: Result<seq<int>>)
      modifies this
      ensures match Ledger.ClaimMany(old(View()), users)
              case Ok(t) => r == Ok(t.1) && View() == t.0
              case Err(e) => r == Err(e) && View() == old(View())
    {
      if cfg.mode.FullyPaused? {
        return Err(ContractPaused);
      }
      :- Need(|users| <= MAX_CLAIM_BATCH_SIZE, ClaimBatchTooLarge);
      var duplicate := FindEqualNeighbours(Sort(users));
      NeighboursFindDuplicates(users);
      :- Need(!duplicate, DuplicateClaimAddress);
      r := ClaimEach(users);
    }

    /** `withdraw_protocol_fee` */
    method WithdrawFee(recipient: Address, amount: int) returns (r: Result<()>)
      modifies this
      ensures Commits(Ledger.WithdrawFee(old(View()), recipient, amount), r, old(View()), View())
    {
      if cfg.mode.FullyPaused? {
        return Err(ContractPaused);
      }
      :- Need(amount > 0, InvalidBetAmount);
      :- Need(amount <= treasury, InsufficientBalance);
      var balance :- Checked(Balance(recipient) + amount, PayoutOverflow);
      treasury := treasury - amount;
      balances := balances[recipient := balance];
      return Ok(());
    }

    /** `top_up_insurance_fund` */
    method TopUpInsurance(amount: int) returns (r: Result<()>)
      modifies this
      ensures Commits(Ledger.TopUpInsurance(old(View()), amount), r, old(View()), View())
    {
      if cfg.mode.FullyPaused? {
        return Err(ContractPaused);
      }
      :- Need(amount > 0, InvalidBetAmount);
      :- Need(Balance(cfg.admin) >= amount, InsufficientBalance);
      var newFund :- Checked(fund + amount, Overflow);
      balances := balances[cfg.admin := Balance(cfg.admin) - amount];
      fund := newFund;
      return Ok(());
    }

    /** `withdraw_insurance_fund` */
    method WithdrawInsurance(recipient: Address, amount: int) returns (r: Result<()>)
      modifies this
      ensures Commits(Ledger.WithdrawInsurance(old(View()), recipient, amount), r, old(View()), View())
    {
      if cfg.mode.FullyPaused? {
        return Err(ContractPaused);
      }
      :- Need(amount > 0, InvalidBetAmount);
      :- Need(amount <= fund, InsuranceInsufficientFund);
      var balance :- Checked(Balance(recipient) + amount, PayoutOverflow);
      fund := fund - amount;
      balances := balances[recipient := balance];
      return Ok(());
    }

    /** `reclaim_expired_pending_winnings` */
    method ReclaimExpired(user: Address) returns (r: Result<()>)
      modifies this
      ensures Commits(Ledger.ReclaimExpired(old(View()), user), r, old(View()), View())
    {
      if cfg.mode.FullyPaused? {
        return Err(ContractPaused);
      }
      :- Need(cfg.pendingExpiry != 0, ExpiryNotConfigured);
      var amount := Pending(user);
      :- Need(amount != 0 && user in pendingAt, PendingWinningsNotFound);
      :- Need(now - pendingAt[user] >= cfg.pendingExpiry, PendingWinningsNotExpired);
      var balance :- Checked(Balance(cfg.admin) + amount, PayoutOverflow);
      MovePending(user, cfg.admin, balance);
      return Ok(());
    }

    method MovePending(user: Address, recipient: Address, balance: int)
      modifies this`pending, this`pendingAt, this`balances
      ensures View() == old(View()).(purse := Purse(old(pending) - {user}, old(pendingAt) - {user}),
                                     balances := old(balances)[recipient := balance])
    {
      pending, pendingAt := pending - {user}, pendingAt - {user};
      balances := balances[recipient := balance];
    }

    // ----- any call, and any run of calls -----

    method ExecuteStake(c: Command) returns (r: Result<()>)
      requires IsStaking(c) && InI128(fund)
      modifies this
      ensures Commits(Step(old(View()), c), r, old(View()), View())
    {
      match c
      case DoBet(user, amount, side) => r := PlaceBet(user, amount, side);
      case DoPredict(user, amount, price) => r := PlacePrediction(user, amount, price);
      case DoCommit(user, hash, amount) => r := CommitPrediction(user, hash, amount);
      case DoReveal(user, price, salt) => r := RevealPrediction(user, price, salt);
      case DoCashOut(user) => r := CashOutEarly(user);
    }

    method ExecuteEnd(c: Command) returns (r: Result<()>)
      requires IsEnding(c) && Valid()
      modifies this
      ensures CommitsOrFails(Step(old(View()), c), false, r, old(View()), View())
    {
      match c
      case DoCancel(reason) => r := CancelRound(reason);
      case DoResolve(price, start, pass) => r := ResolveRound(price, start, pass);
      case DoVoid(id) => r := VoidRound(id);
      case DoFinalize(id) => r := FinalizeRound(id);
    }

    method ExecuteClaim(c: Command) returns (r: Result<()>)
      requires c.DoClaim? || c.DoClaimMany?
      modifies this
      ensures Commits(Step(old(View()), c), r, old(View()), View())
    {
      if c.DoClaim? {
        var claimed := ClaimWinnings(c.user);
        r := if claimed.Ok? then Ok(()) else Err(claimed.error);
      } else {
        var claimed := ClaimMany(c.users);
        r := if claimed.Ok? then Ok(()) else Err(claimed.error);
      }
    }

    method ExecuteOther(c: Command) returns (r: Result<()>)
      requires !IsStaking(c) && !IsEnding(c) && !c.DoClaim? && !c.DoClaimMany?
      modifies this
      ensures Commits(Step(old(View()), c), r, old(View()), View())
    {
      r := Ok(());
      match c
      case Advance(ledgers) => now := now + ledgers;
      case Configure(config) =>
        :- Need(ValidConfig(config), WindowOutOfRange);
        cfg := config;
      case DoMint(user, allowed) =>
        var balance :- MintInitial(user, allowed);
      case DoCreate(price, mode) => r := CreateRound(price, mode);
      case DoWithdrawFee(recipient, amount) => r := WithdrawFee(recipient, amount);
      case DoTopUp(amount) => r := TopUpInsurance(amount);
      case DoWithdrawInsurance(recipient, amount) => r := WithdrawInsurance(recipient, amount);
      case DoReclaim(user) => r := ReclaimExpired(user);
    }

    /** Every entrypoint does exactly what the state machine's step says: it commits that
        step's state, or it leaves everything as it was. */
    method Execute(c: Command) returns (r: Result<()>)
      requires Valid() && minted + INITIAL_MINT <= I128_MAX
      modifies this
      ensures View() == Apply(old(View()), c) && (r.Ok? <==> Step(old(View()), c).Ok?)
      ensures Valid() && minted <= old(minted) + INITIAL_MINT
    {
      ghost var before := View();
      if IsStaking(c) {
        PartsBelowMinted(before);
        r := ExecuteStake(c);
      } else if IsEnding(c) {
        r := ExecuteEnd(c);
      } else if c.DoClaim? || c.DoClaimMany? {
        r := ExecuteClaim(c);
      } else {
        r := ExecuteOther(c);
      }
      if r.Ok? {
        StepSafe(before, c);
        MintedGrows(before, c);
      }
    }

    /** A run of calls on the object is a run of the state machine. */
    method ExecuteAll(cs: seq<Command>)
      requires Valid() && minted + |cs| * INITIAL_MINT <= I128_MAX
      modifies this
      ensures View() == Run(old(View()), cs) && Valid()
    {
      ghost var before := View();
      for i := 0 to |cs|
        invariant View() == Run(before, cs[..i]) && Valid()
        invariant minted <= before.minted + i * INITIAL_MINT
      {
        assert cs[..i + 1][..i] == cs[..i];
        var r := Execute(cs[i]);
      }
      assert cs[..|cs|] == cs;
    }
  }
}
