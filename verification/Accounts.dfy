/** Who gains and who loses what: the change of every account, user by user, for each call that
    moves money, and how fees are split. */
module Accounts {
  import opened Types
  import opened Arith
  import opened Ledger
  import opened Books
  import opened Invariants
  import opened Steps
  import opened Safety
  import opened Entry

  /** The changes of the accounts of one user and of the house. */
  datatype Change = Change(user: Address, balance: int, pending: int)

  function Delta(cs: seq<Change>, u: Address): (int, int) {
    if cs == [] then (0, 0)
    else
      var front := Delta(cs[..|cs| - 1], u);
      var c := cs[|cs| - 1];
      if c.user == u then (front.0 + c.balance, front.1 + c.pending) else front
  }

  /** Everybody's balance and pending winnings change by these amounts and nobody else's do; the
      treasury gains `treasury` and the fund gains `fund`. */
  ghost predicate Moves(s: State, t: State, cs: seq<Change>, treasury: int, fund: int) {
    && (forall u: Address :: BalanceOf(t, u) == BalanceOf(s, u) + Delta(cs, u).0)
    && (forall u: Address :: PendingOf(t.purse, u) == PendingOf(s.purse, u) + Delta(cs, u).1)
    && t.treasury == s.treasury + treasury && t.fund == s.fund + fund
  }

  lemma OneChange(c: Change, u: Address)
    ensures Delta([c], u) == if c.user == u then (c.balance, c.pending) else (0, 0)
  {
    assert [c][..0] == [];
  }

  lemma TwoChanges(c: Change, d: Change, u: Address)
    ensures Delta([c, d], u) == (Delta([c], u).0 + Delta([d], u).0, Delta([c], u).1 + Delta([d], u).1)
  {
    assert [c, d][..1] == [c];
    OneChange(c, u);
    OneChange(d, u);
  }

  /** One user's balance and pending winnings change. */
  lemma MovesOne(s: State, t: State, c: Change, treasury: int, fund: int)
    requires forall u: Address :: BalanceOf(t, u) == BalanceOf(s, u) + if u == c.user then c.balance else 0
    requires forall u: Address ::
               PendingOf(t.purse, u) == PendingOf(s.purse, u) + if u == c.user then c.pending else 0
    requires t.treasury == s.treasury + treasury && t.fund == s.fund + fund
    ensures Moves(s, t, [c], treasury, fund)
  {
    forall u: Address ensures Delta([c], u) == if c.user == u then (c.balance, c.pending) else (0, 0) {
      OneChange(c, u);
    }
  }

  /** A new user is given one allowance of 1,000 units of 10^7 parts; anybody else nothing. */
  lemma MintMoves(s: State, user: Address, allowed: bool)
    requires Mint(s, user, allowed).Ok?
    ensures Moves(s, Mint(s, user, allowed).value, [Change(user, if user in s.balances then 0 else 10_000_000_000, 0)], 0, 0)
  {
    MovesOne(s, Mint(s, user, allowed).value, Change(user, if user in s.balances then 0 else 10_000_000_000, 0), 0, 0);
  }

  /** A stake leaves the balance of the user who places it, and is recorded under that user. */
  ghost predicate Stakes(s: State, t: State, user: Address, amount: int) {
    && Moves(s, t, [Change(user, -amount, 0)], 0, 0)
    && s.active.Some? && forall k :: StakeAt(t.book, k) == StakeAt(s.book, k) + if k == Key(s.active.value.id, user) then amount else 0
  }

  lemma StakeMoves(s: State, t: State, user: Address, amount: int)
    requires s.active.Some? && Recording(s.book, t.book, Key(s.active.value.id, user), amount)
    requires t == Join(s, s.active.value.id, user, amount).(book := t.book, active := t.active)
    ensures Stakes(s, t, user, amount)
  {
    MovesOne(s, t, Change(user, -amount, 0), 0, 0);
    FreeKey(s.book, Key(s.active.value.id, user));
  }

  lemma FreeKey(b: Book, k: Key)
    requires !InBook(b, k)
    ensures StakeAt(b, k) == 0
  {
  }

  lemma BetMoves(s: State, user: Address, amount: int, side: BetSide)
    requires Inv(s) && PlaceBet(s, user, amount, side).Ok?
    ensures var t, k := PlaceBet(s, user, amount, side).value, Key(s.active.value.id, user);
            && Stakes(s, t, user, amount)
            && t.book.positions == s.book.positions[k := UserPosition(amount, side)]
  {
    var t := PlaceBet(s, user, amount, side).value;
    BetChanges(s, user, amount, side);
    OnlyOneMode(s, s.active.value, user);
    BetRecords(s.book, t.book, Key(s.active.value.id, user), amount, side);
    StakeMoves(s, t, user, amount);
  }

  lemma BetChanges(s: State, user: Address, amount: int, side: BetSide)
    requires PlaceBet(s, user, amount, side).Ok?
    ensures s.active.Some? && s.active.value.mode.UpDown? && amount > 0
    ensures var t, k := PlaceBet(s, user, amount, side).value, Key(s.active.value.id, user);
            && k !in s.book.positions
            && t == Join(s, k.round, user, amount).(book := t.book, active := t.active)
            && t.book == s.book.(positions := s.book.positions[k := UserPosition(amount, side)])
  {
  }

  lemma PredictMoves(s: State, user: Address, amount: int, price: nat)
    requires Inv(s) && PlacePrediction(s, user, amount, price).Ok?
    ensures var t, k := PlacePrediction(s, user, amount, price).value, Key(s.active.value.id, user);
            && Stakes(s, t, user, amount)
            && t.book.predictions == s.book.predictions[k := PrecisionPrediction(price, amount)]
  {
    var t := PlacePrediction(s, user, amount, price).value;
    PredictChanges(s, user, amount, price);
    OnlyOneMode(s, s.active.value, user);
    PredictionRecords(s.book, t.book, Key(s.active.value.id, user), amount);
    StakeMoves(s, t, user, amount);
  }

  lemma PredictChanges(s: State, user: Address, amount: int, price: nat)
    requires PlacePrediction(s, user, amount, price).Ok?
    ensures s.active.Some? && s.active.value.mode.Precision? && amount > 0
    ensures var t, k := PlacePrediction(s, user, amount, price).value, Key(s.active.value.id, user);
            && k !in s.book.predictions && k !in s.book.commitments
            && t == Join(s, k.round, user, amount).(book := t.book)
            && t.book == s.book.(predictions := s.book.predictions[k := PrecisionPrediction(price, amount)])
  {
  }

  lemma CommitMoves(s: State, user: Address, hash: Digest, amount: int)
    requires Inv(s) && CommitPrediction(s, user, hash, amount).Ok?
    ensures var t, k := CommitPrediction(s, user, hash, amount).value, Key(s.active.value.id, user);
            && Stakes(s, t, user, amount)
            && t.book.commitments == s.book.commitments[k := PrecisionCommitment(hash, amount, false)]
  {
    var t := CommitPrediction(s, user, hash, amount).value;
    CommitChanges(s, user, hash, amount);
    OnlyOneMode(s, s.active.value, user);
    PredictionRecords(s.book, t.book, Key(s.active.value.id, user), amount);
    StakeMoves(s, t, user, amount);
  }

  lemma CommitChanges(s: State, user: Address, hash: Digest, amount: int)
    requires CommitPrediction(s, user, hash, amount).Ok?
    ensures s.active.Some? && s.active.value.mode.Precision? && amount > 0
    ensures var t, k := CommitPrediction(s, user, hash, amount).value, Key(s.active.value.id, user);
            && k !in s.book.predictions && k !in s.book.commitments
            && t == Join(s, k.round, user, amount).(book := t.book)
            && t.book == s.book.(commitments := s.book.commitments[k := PrecisionCommitment(hash, amount, false)])
  {
  }

  // ----- fees -----

  /** Of a fee the insurance fund gets the configured part, rounded down, and the treasury the rest. */
  predicate SplitsFee(cfg: Config, fee: int, treasury: int, fund: int) {
    treasury + fund == fee && IsFloor(fund, fee * cfg.insuranceSplitBps, 10_000)
  }

  lemma FeeIsSplit(s: State, fee: int)
    requires ValidConfig(s.cfg) && fee >= 0 && CollectFee(s, fee).Ok?
    ensures var t := CollectFee(s, fee).value;
            t == s.(treasury := t.treasury, fund := t.fund) && SplitsFee(s.cfg, fee, t.treasury - s.treasury, t.fund - s.fund)
  {
    var bps := s.cfg.insuranceSplitBps;
    MulBound(fee, bps, fee, BPS_DENOMINATOR);
    QuotIsFloor(fee * bps, BPS_DENOMINATOR);
    if fee == 0 || bps == 0 { assert fee * bps == 0; }
    BpsBounds(fee, bps);
  }

  /** The fee of a settlement is split that way. */
  lemma SettlementSplitsFee(s: State, rd: Round, price: nat)
    requires Inv(s) && IsLive(s, rd) && CompleteSettlement(s, rd, price).Ok?
    ensures var t := CompleteSettlement(s, rd, price).value;
            SplitsFee(s.cfg, t.treasury + t.fund - s.treasury - s.fund, t.treasury - s.treasury, t.fund - s.fund)
  {
    var st, charged := CompleteChanges(s, rd, price);
    FeeNotNegative(s, rd, price);
    FeeIsSplit(s, st.fee);
    SameSplit(s.cfg, st.fee, charged.treasury - s.treasury, charged.fund - s.fund);
  }

  lemma SameSplit(cfg: Config, fee: int, treasury: int, fund: int)
    requires SplitsFee(cfg, fee, treasury, fund)
    ensures SplitsFee(cfg, treasury + fund, treasury, fund)
  {
  }

  lemma FeeNotNegative(s: State, rd: Round, price: nat)
    requires Inv(s) && IsLive(s, rd)
    requires SettleRound(s.book, rd, Sums.Sort(ParticipantsOf(s, rd.id)), price, s.cfg).Ok?
    ensures SettleRound(s.book, rd, Sums.Sort(ParticipantsOf(s, rd.id)), price, s.cfg).value.fee >= 0
  {
    ParticipantsAre(s, rd.id);
    MembersSorted(s.book, rd.id, ParticipantsOf(s, rd.id));
    SettlementSums(s.book, s.startLedgers, s.lastRoundId, rd, Sums.Sort(ParticipantsOf(s, rd.id)), price, s.cfg);
  }

  /** What an early cash-out does to the accounts: the penalty of the configured rate is withheld
      as a fee, the rest becomes the user's pending winnings, and the stake is gone. */
  ghost predicate CashesOut(s: State, t: State, rd: Round, user: Address, penalty: int) {
    s.cfg.cashoutBps.Some? && Key(rd.id, user) in s.book.positions &&
    var k := Key(rd.id, user);
    var stake := s.book.positions[k].amount;
    && IsFloor(penalty, stake * s.cfg.cashoutBps.value, 10_000)
    && SplitsFee(s.cfg, penalty, t.treasury - s.treasury, t.fund - s.fund)
    && Moves(s, t, [Change(user, 0, stake - penalty)], t.treasury - s.treasury, t.fund - s.fund)
    && t.book.positions == s.book.positions - {k}
    && k in t.outcomes && t.outcomes[k].kind == Refund && t.outcomes[k].payout == stake - penalty
  }

  lemma CashOutPays(s: State, user: Address)
    requires Inv(s) && CashOutEarly(s, user).Ok?
    ensures s.active.Some? && exists penalty: int :: CashesOut(s, CashOutEarly(s, user).value, s.active.value, user, penalty)
  {
    CashOutChanges(s, user);
    var t, rd := CashOutEarly(s, user).value, s.active.value;
    var p := s.book.positions[Key(rd.id, user)];
    var penalty := CashOutSplit(s, user);
    CashOutRecord(s, user);
    PenaltyIsFloor(p.amount, s.cfg.cashoutBps.value);
    CashOutSplits(s, t, rd, user, p, penalty);
  }

  lemma PenaltyIsFloor(amount: int, bps: nat)
    requires amount > 0 && bps <= BPS_DENOMINATOR
    ensures IsFloor(Bps(amount, bps), amount * bps, 10_000) && 0 <= Bps(amount, bps) <= amount
  {
    MulBound(amount, bps, amount, BPS_DENOMINATOR);
    QuotIsFloor(amount * bps, BPS_DENOMINATOR);
    BpsBounds(amount, bps);
  }

  lemma CashOutRecord(s: State, user: Address)
    requires CashOutEarly(s, user).Ok? && s.active.Some? && Key(s.active.value.id, user) in s.book.positions
    ensures s.cfg.cashoutBps.Some? && s.cfg.cashoutBps.value <= BPS_DENOMINATOR
    ensures var t, p := CashOutEarly(s, user).value, s.book.positions[Key(s.active.value.id, user)];
            var cashout := p.amount - Bps(p.amount, s.cfg.cashoutBps.value);
            && p.amount > 0 && t.balances == s.balances
            && t.outcomes == Persist(s.outcomes, s.active.value.id,
                                     UserRoundOutcome(user, UpDown, Some(p.side), 0, p.amount, cashout, Refund))
  {
  }

  lemma CashOutSplits(s: State, t: State, rd: Round, user: Address, p: UserPosition, penalty: int)
    requires Inv(s) && Key(rd.id, user) in s.book.positions && p == s.book.positions[Key(rd.id, user)]
    requires s.cfg.cashoutBps.Some? && 0 <= penalty <= p.amount && IsFloor(penalty, p.amount * s.cfg.cashoutBps.value, 10_000)
    requires CollectFee(s, penalty).Ok? && CashOutCredit(s.purse, s.cfg.maxPending, s.now, Credit(user, p.amount - penalty)) == Ok(t.purse)
    requires t.treasury == CollectFee(s, penalty).value.treasury && t.fund == CollectFee(s, penalty).value.fund
    requires t.balances == s.balances && t.book.positions == s.book.positions - {Key(rd.id, user)}
    requires t.outcomes == Persist(s.outcomes, rd.id,
                                   UserRoundOutcome(user, UpDown, Some(p.side), 0, p.amount, p.amount - penalty, Refund))
    ensures CashesOut(s, t, rd, user, penalty)
  {
    assert InBook(s.book, Key(rd.id, user));
    FeeIsSplit(s, penalty);
    CashOutPending(s, t, user, p.amount - penalty);
  }

  lemma CashOutPending(s: State, t: State, user: Address, cashout: int)
    requires cashout >= 0 && CashOutCredit(s.purse, s.cfg.maxPending, s.now, Credit(user, cashout)) == Ok(t.purse)
    requires t.balances == s.balances
    ensures Moves(s, t, [Change(user, 0, cashout)], t.treasury - s.treasury, t.fund - s.fund)
  {
    MovesOne(s, t, Change(user, 0, cashout), t.treasury - s.treasury, t.fund - s.fund);
  }

  // ----- moving money out -----

  /** A claim moves the user's whole pending winnings into the balance. */
  lemma ClaimMoves(s: State, user: Address)
    requires Inv(s)
    ensures Claim(s, user).Ok? ==>
              var pending := PendingOf(s.purse, user);
              && Claim(s, user).value.1 == pending
              && Moves(s, Claim(s, user).value.0, [Change(user, pending, -pending)], 0, 0)
    ensures s.minted <= I128_MAX ==> (Claim(s, user).Ok? <==> s.cfg.mode != FullyPaused)
  {
    if Claim(s, user).Ok? { ClaimPays(s, Claim(s, user).value.0, Claim(s, user).value.1, user); }
    if s.minted <= I128_MAX { ClaimSafe(s, user); }
  }

  lemma ClaimPays(s: State, t: State, paid: int, user: Address)
    requires ClaimOne(s, user) == Ok((t, paid))
    ensures paid == PendingOf(s.purse, user) && Moves(s, t, [Change(user, paid, -paid)], 0, 0)
  {
    MovesOne(s, t, Change(user, paid, -paid), 0, 0);
  }

  /** Fees leave the treasury, and only as much as is there. */
  lemma WithdrawFeeMoves(s: State, recipient: Address, amount: int)
    requires Inv(s)
    ensures WithdrawFee(s, recipient, amount).Ok? ==>
              Moves(s, WithdrawFee(s, recipient, amount).value, [Change(recipient, amount, 0)], -amount, 0)
    ensures s.minted <= I128_MAX ==>
              (WithdrawFee(s, recipient, amount).Ok? <==> s.cfg.mode != FullyPaused && 0 < amount <= s.treasury)
  {
    if WithdrawFee(s, recipient, amount).Ok? {
      MovesOne(s, WithdrawFee(s, recipient, amount).value, Change(recipient, amount, 0), -amount, 0);
    }
    AccountsFit(s, recipient);
  }

  lemma WithdrawInsuranceMoves(s: State, recipient: Address, amount: int)
    requires Inv(s)
    ensures WithdrawInsurance(s, recipient, amount).Ok? ==>
              Moves(s, WithdrawInsurance(s, recipient, amount).value, [Change(recipient, amount, 0)], 0, -amount)
    ensures s.minted <= I128_MAX ==>
              (WithdrawInsurance(s, recipient, amount).Ok? <==> s.cfg.mode != FullyPaused && 0 < amount <= s.fund)
  {
    if WithdrawInsurance(s, recipient, amount).Ok? {
      MovesOne(s, WithdrawInsurance(s, recipient, amount).value, Change(recipient, amount, 0), 0, -amount);
    }
    AccountsFit(s, recipient);
  }

  /** The administrator feeds the insurance fund out of the own balance. */
  lemma TopUpMoves(s: State, amount: int)
    requires Inv(s)
    ensures TopUpInsurance(s, amount).Ok? ==>
              Moves(s, TopUpInsurance(s, amount).value, [Change(s.cfg.admin, -amount, 0)], 0, amount)
    ensures s.minted <= I128_MAX ==>
              (TopUpInsurance(s, amount).Ok? <==> s.cfg.mode != FullyPaused && 0 < amount <= BalanceOf(s, s.cfg.admin))
  {
    if TopUpInsurance(s, amount).Ok? {
      MovesOne(s, TopUpInsurance(s, amount).value, Change(s.cfg.admin, -amount, 0), 0, amount);
    }
    AccountsFit(s, s.cfg.admin);
  }

  /** Pending winnings left untouched for the whole expiry period go to the administrator, all of
      them, and nothing goes there sooner. */
  lemma ReclaimMoves(s: State, user: Address)
    requires Inv(s)
    ensures ReclaimExpired(s, user).Ok? ==>
              var pending := PendingOf(s.purse, user);
              Moves(s, ReclaimExpired(s, user).value, [Change(s.cfg.admin, pending, 0), Change(user, 0, -pending)], 0, 0)
    ensures s.minted <= I128_MAX ==>
              (ReclaimExpired(s, user).Ok? <==>
                && s.cfg.mode != FullyPaused && s.cfg.pendingExpiry > 0 && PendingOf(s.purse, user) > 0
                && user in s.purse.writtenAt && s.now >= s.purse.writtenAt[user] + s.cfg.pendingExpiry)
  {
    if ReclaimExpired(s, user).Ok? {
      ReclaimPays(s, ReclaimExpired(s, user).value, user);
    }
    AccountsFit(s, s.cfg.admin);
    PartsBelowMinted(s);
  }

  lemma ReclaimPays(s: State, t: State, user: Address)
    requires ReclaimExpired(s, user) == Ok(t)
    ensures var pending := PendingOf(s.purse, user);
            Moves(s, t, [Change(s.cfg.admin, pending, 0), Change(user, 0, -pending)], 0, 0)
  {
    var pending := PendingOf(s.purse, user);
    var c, d := Change(s.cfg.admin, pending, 0), Change(user, 0, -pending);
    forall u: Address
      ensures Delta([c, d], u) == (if u == s.cfg.admin then pending else 0, if u == user then -pending else 0)
    {
      TwoChanges(c, d, u);
      OneChange(c, u);
      OneChange(d, u);
    }
  }
}
