/** Exactly when a new round, a stake, a reveal or a cash-out goes through in a reachable state, in terms of the
    configuration, the clock and what is recorded. */
module Entry {
  import opened Types
  import opened Arith
  import opened Engine
  import opened Ledger
  import opened Books
  import opened Invariants
  import opened Safety

  /** The amount is within the configured limits, and the user can pay it. */
  predicate WithinLimits(s: State, user: Address, amount: int) {
    && 0 < amount <= BalanceOf(s, user)
    && (s.cfg.minBet.Some? ==> s.cfg.minBet.value <= amount)
    && (s.cfg.maxStake.Some? ==> amount <= s.cfg.maxStake.value)
    && (s.cfg.maxExposure.Some? ==> amount <= s.cfg.maxExposure.value)
  }

  /** The contract is open for business and a round of this mode still takes stakes. */
  predicate TakesStakes(s: State, mode: RoundMode) {
    && s.cfg.mode == Normal && s.active.Some? && s.active.value.mode == mode
    && s.now + s.cfg.closeBuffer < s.active.value.betEnd
  }

  /** The user has nothing in the active round yet. */
  predicate IsNewcomer(s: State, user: Address) {
    s.active.Some? && !InBook(s.book, Key(s.active.value.id, user))
  }

  lemma NewcomerHasNoExposure(s: State, user: Address)
    requires IsNewcomer(s, user)
    ensures Exposure(s.book, Key(s.active.value.id, user)) == 0
  {
  }

  /** In a round of another mode the user may have a stake that these checks would not see. */
  lemma OnlyOneMode(s: State, rd: Round, user: Address)
    requires Inv(s) && s.active == Some(rd)
    ensures rd.mode.UpDown? ==> (InBook(s.book, Key(rd.id, user)) <==> Key(rd.id, user) in s.book.positions)
    ensures rd.mode.Precision? ==>
              (InBook(s.book, Key(rd.id, user)) <==> Key(rd.id, user) in s.book.predictions || Key(rd.id, user) in s.book.commitments)
  {
  }

  lemma NewcomerOpens(s: State, user: Address, amount: int, mode: RoundMode)
    requires IsNewcomer(s, user) && ValidConfig(s.cfg) && amount > 0
    ensures OpenRound(s, user, amount, mode).Ok? <==>
              && s.active.value.mode == mode && s.now + s.cfg.closeBuffer < s.active.value.betEnd
              && (s.cfg.maxExposure.Some? ==> amount <= s.cfg.maxExposure.value)
    ensures OpenRound(s, user, amount, mode).Ok? ==> OpenRound(s, user, amount, mode).value == s.active.value
  {
    NewcomerHasNoExposure(s, user);
  }

  lemma RulesPass(s: State, amount: int)
    ensures StakeRules(s.cfg, amount).Pass? <==>
              && amount > 0 && (s.cfg.minBet.Some? ==> s.cfg.minBet.value <= amount)
              && (s.cfg.maxStake.Some? ==> amount <= s.cfg.maxStake.value)
  {
  }

  /** A round is created exactly when none is active and none was started at this ledger, for a
      price in range, while its last ledger and its number fit their widths. It opens empty, under
      the next number, and takes stakes until the betting window has passed. */
  lemma CreateGoesThrough(s: State, price: nat, mode: Option<nat>)
    requires Inv(s)
    ensures CreateRound(s, price, mode).Ok? <==>
              && s.cfg.mode != FullyPaused && s.active == None && s.now !in s.startLedgers
              && 1 <= price <= 1_000_000_000_000_000_000 && (mode.Some? ==> mode.value < 2)
              && s.lastRoundId < U64_MAX && s.now + s.cfg.runWindow <= U32_MAX
    ensures CreateRound(s, price, mode).Ok? ==>
              CreateRound(s, price, mode).value.active ==
                Some(Round(s.lastRoundId + 1, price, s.now, s.now + s.cfg.betWindow, s.now + s.cfg.runWindow, 0, 0,
                           if mode == Some(1) then Precision else UpDown))
  {
  }

  /** A bet goes through exactly for a newcomer to an open Up/Down round who stays within the
      limits. */
  lemma BetGoesThrough(s: State, user: Address, amount: int, side: BetSide)
    requires Inv(s) && s.minted < MAX_POT
    ensures PlaceBet(s, user, amount, side).Ok? <==>
              TakesStakes(s, UpDown) && WithinLimits(s, user, amount) && IsNewcomer(s, user)
  {
    if TakesStakes(s, UpDown) {
      OnlyOneMode(s, s.active.value, user);
      if WithinLimits(s, user, amount) { PoolTakes(s, user, amount); }
      BetDecides(s, user, amount, side);
    } else {
      ClosedToStakes(s, user, amount, UpDown);
    }
  }

  lemma ClosedToStakes(s: State, user: Address, amount: int, mode: RoundMode)
    requires !TakesStakes(s, mode)
    ensures s.cfg.mode == Normal ==> OpenRound(s, user, amount, mode).Err?
  {
  }

  lemma BetDecides(s: State, user: Address, amount: int, side: BetSide)
    requires ValidConfig(s.cfg) && TakesStakes(s, UpDown)
    requires InBook(s.book, Key(s.active.value.id, user)) <==> Key(s.active.value.id, user) in s.book.positions
    requires WithinLimits(s, user, amount) ==> InI128(s.active.value.poolUp + amount) && InI128(s.active.value.poolDown + amount)
    ensures PlaceBet(s, user, amount, side).Ok? <==> WithinLimits(s, user, amount) && IsNewcomer(s, user)
  {
    RulesPass(s, amount);
    if IsNewcomer(s, user) && amount > 0 { NewcomerOpens(s, user, amount, UpDown); }
  }

  /** A direct prediction goes through exactly for a newcomer to an open Precision round that is
      not full, within the limits and the price range. */
  lemma PredictionGoesThrough(s: State, user: Address, amount: int, price: nat)
    requires Inv(s)
    ensures PlacePrediction(s, user, amount, price).Ok? <==>
              && TakesStakes(s, Precision) && WithinLimits(s, user, amount) && IsNewcomer(s, user)
              && price <= 99_999_999 && |ParticipantsOf(s, s.active.value.id)| < s.cfg.maxPrecision
  {
    if TakesStakes(s, Precision) {
      OnlyOneMode(s, s.active.value, user);
      PredictionDecides(s, user, amount, price);
    } else {
      ClosedToStakes(s, user, amount, Precision);
    }
  }

  lemma PredictionDecides(s: State, user: Address, amount: int, price: nat)
    requires ValidConfig(s.cfg) && TakesStakes(s, Precision)
    requires var k := Key(s.active.value.id, user); InBook(s.book, k) <==> k in s.book.predictions || k in s.book.commitments
    ensures PlacePrediction(s, user, amount, price).Ok? <==>
              && WithinLimits(s, user, amount) && IsNewcomer(s, user)
              && price <= 99_999_999 && |ParticipantsOf(s, s.active.value.id)| < s.cfg.maxPrecision
  {
    RulesPass(s, amount);
    if IsNewcomer(s, user) && amount > 0 { NewcomerOpens(s, user, amount, Precision); }
  }

  /** So does a commitment, whatever the number of participants, unless its digest is all zero. */
  lemma CommitmentGoesThrough(s: State, user: Address, hash: Digest, amount: int)
    requires Inv(s)
    ensures CommitPrediction(s, user, hash, amount).Ok? <==>
              TakesStakes(s, Precision) && WithinLimits(s, user, amount) && IsNewcomer(s, user) && hash != ZeroDigest
  {
    if TakesStakes(s, Precision) {
      OnlyOneMode(s, s.active.value, user);
      CommitmentDecides(s, user, hash, amount);
    } else {
      ClosedToStakes(s, user, amount, Precision);
    }
  }

  lemma CommitmentDecides(s: State, user: Address, hash: Digest, amount: int)
    requires ValidConfig(s.cfg) && TakesStakes(s, Precision)
    requires var k := Key(s.active.value.id, user); InBook(s.book, k) <==> k in s.book.predictions || k in s.book.commitments
    ensures CommitPrediction(s, user, hash, amount).Ok? <==> WithinLimits(s, user, amount) && IsNewcomer(s, user) && hash != ZeroDigest
  {
    RulesPass(s, amount);
    if IsNewcomer(s, user) && amount > 0 { NewcomerOpens(s, user, amount, Precision); }
  }

  /** A reveal goes through exactly between the close of betting and the end of a Precision round,
      for a commitment that is still sealed, with the committed price and salt, the salt not being
      one byte repeated. */
  lemma RevealGoesThrough(s: State, user: Address, price: nat, salt: seq<nat>)
    requires Inv(s)
    ensures RevealPrediction(s, user, price, salt).Ok? <==>
              && s.cfg.mode == Normal && s.active.Some? && s.active.value.mode == Precision
              && s.active.value.betEnd <= s.now < s.active.value.end
              && var k := Key(s.active.value.id, user);
              && k in s.book.commitments && k !in s.book.predictions
              && s.book.commitments[k].hash == Sha256(price, salt)
              && exists i, j :: 0 <= i < |salt| && 0 <= j < |salt| && salt[i] != salt[j]
  {
    assert HasEntropy(salt) <==> exists i, j :: 0 <= i < |salt| && 0 <= j < |salt| && salt[i] != salt[j] by {
      if i, j :| 0 <= i < |salt| && 0 <= j < |salt| && salt[i] != salt[j] {
        assert if i < j then salt[i] != salt[j] else salt[j] != salt[i];
      }
    }
  }

  /** An early cash-out goes through exactly between the close of betting and the end of an Up/Down
      round, for a user with a position, when a penalty is configured and what is left after it
      fits under the cap on pending winnings. */
  lemma CashOutGoesThrough(s: State, user: Address, penalty: int)
    requires Inv(s) && s.minted < MAX_POT
    requires s.active.Some? && Key(s.active.value.id, user) in s.book.positions && s.cfg.cashoutBps.Some? ==>
               IsFloor(penalty, s.book.positions[Key(s.active.value.id, user)].amount * s.cfg.cashoutBps.value, 10_000)
    ensures CashOutEarly(s, user).Ok? <==>
              && s.cfg.mode == Normal && s.cfg.cashoutBps.Some? && s.active.Some? && s.active.value.mode == UpDown
              && s.active.value.betEnd <= s.now < s.active.value.end
              && var k := Key(s.active.value.id, user);
              && k in s.book.positions
              && (s.cfg.maxPending.Some? && s.book.positions[k].amount > penalty ==>
                    PendingOf(s.purse, user) + s.book.positions[k].amount - penalty <= s.cfg.maxPending.value)
  {
    if s.cfg.cashoutBps.Some? && s.active.Some? && s.active.value.mode.UpDown? && Key(s.active.value.id, user) in s.book.positions {
      var rd := s.active.value;
      PositionFits(s, rd, user);
      CashOutDecides(s, rd, user, s.book.positions[Key(rd.id, user)], penalty);
    }
  }

  lemma CashOutDecides(s: State, rd: Round, user: Address, p: UserPosition, penalty: int)
    requires ValidConfig(s.cfg) && s.cfg.cashoutBps.Some? && s.minted < MAX_POT
    requires s.active == Some(rd) && rd.mode.UpDown? && Key(rd.id, user) in s.book.positions && p == s.book.positions[Key(rd.id, user)]
    requires HoldsBack(s, rd, user, p.amount) && IsFloor(penalty, p.amount * s.cfg.cashoutBps.value, 10_000)
    ensures CashOutEarly(s, user).Ok? <==>
              && s.cfg.mode == Normal && rd.betEnd <= s.now < rd.end
              && (s.cfg.maxPending.Some? && p.amount > penalty ==>
                    PendingOf(s.purse, user) + p.amount - penalty <= s.cfg.maxPending.value)
  {
    var bps := s.cfg.cashoutBps.value;
    PenaltyFits(p.amount, bps);
    PenaltyIs(p.amount, bps, penalty);
    FeeFits(s, penalty);
    MoveDecides(s, user, p.amount - penalty, penalty);
    var pool := (if p.side.Up? then rd.poolUp else rd.poolDown) - p.amount;
    CashOutIsExit(s, rd, user, p, bps, penalty, pool);
  }

  lemma PenaltyIs(amount: int, bps: nat, penalty: int)
    requires amount > 0 && IsFloor(penalty, amount * bps, 10_000)
    ensures penalty == Quot(amount * bps, BPS_DENOMINATOR)
  {
    MulBound(amount, bps, amount, bps);
    QuotIsFloor(amount * bps, BPS_DENOMINATOR);
  }

  lemma MoveDecides(s: State, user: Address, cashout: int, forfeit: int)
    requires CollectFee(s, forfeit).Ok? && 0 <= PendingOf(s.purse, user) && PendingOf(s.purse, user) + cashout <= I128_MAX && cashout >= 0
    ensures MoveCashOut(s, user, cashout, forfeit).Ok? <==>
              (s.cfg.maxPending.Some? && cashout > 0 ==> PendingOf(s.purse, user) + cashout <= s.cfg.maxPending.value)
  {
  }

  lemma CashOutIsExit(s: State, rd: Round, user: Address, p: UserPosition, bps: nat, forfeit: int, pool: int)
    requires s.active == Some(rd) && rd.mode.UpDown? && Key(rd.id, user) in s.book.positions && p == s.book.positions[Key(rd.id, user)]
    requires s.cfg.cashoutBps == Some(bps) && 0 < bps <= BPS_DENOMINATOR && p.amount > 0
    requires InI128(p.amount * bps) && forfeit == Quot(p.amount * bps, BPS_DENOMINATOR) && InI128(p.amount - forfeit)
    requires pool == (if p.side.Up? then rd.poolUp else rd.poolDown) - p.amount && InI128(pool)
    ensures CashOutEarly(s, user).Ok? <==>
              s.cfg.mode == Normal && rd.betEnd <= s.now < rd.end && MoveCashOut(s, user, p.amount - forfeit, forfeit).Ok?
  {
    ExitIsMove(s, rd, user, p, p.amount - forfeit, forfeit, pool);
    if s.cfg.mode == Normal && rd.betEnd <= s.now < rd.end {
      assert CashOutEarly(s, user) == ExitRound(s, rd, user, p, p.amount - forfeit, forfeit, pool);
    } else {
      assert CashOutEarly(s, user).Err?;
    }
  }

  lemma ExitIsMove(s: State, rd: Round, user: Address, p: UserPosition, cashout: int, forfeit: int, pool: int)
    ensures ExitRound(s, rd, user, p, cashout, forfeit, pool).Ok? <==> MoveCashOut(s, user, cashout, forfeit).Ok?
  {
  }
}
