/** The ledger of the prediction market as a state machine: every entrypoint is a function
    from a state to the committed next state, or to the error that discards all its writes. */
module Ledger {
  import opened Types
  import opened Arith
  import opened Sums
  import opened Fees
  import opened Engine

  // ----- configuration -----

  datatype RuntimeMode = Normal | ClaimsOnly | FullyPaused

  datatype Config = Config(
    admin: Address, mode: RuntimeMode,
    betWindow: nat, runWindow: nat, closeBuffer: nat,
    minBet: Option<int>, maxStake: Option<int>, maxExposure: Option<int>, maxPending: Option<int>,
    minParticipants: Option<nat>, maxPrecision: nat,
    feeBps: Option<nat>, feeModel: FeeModel, policy: PayoutPolicy,
    disputeLedgers: nat, cashoutBps: Option<nat>, pendingExpiry: nat,
    insuranceSplitBps: nat, insuranceCoverageBps: nat, insuredEvents: seq<nat>)

  predicate AtLeastOne(cap: Option<int>) {
    cap.Some? ==> 1 <= cap.value <= I128_MAX
  }

  /** What the configuration setters accept. */
  predicate ValidConfig(c: Config) {
    && 1 <= c.betWindow < c.runWindow <= 2_880 && c.betWindow <= 1_440 && c.closeBuffer <= 1_440
    && AtLeastOne(c.minBet) && AtLeastOne(c.maxStake) && AtLeastOne(c.maxExposure) && AtLeastOne(c.maxPending)
    && (c.minParticipants.Some? ==> 1 <= c.minParticipants.value <= 10_000)
    && 1 <= c.maxPrecision <= 10_000
    && ValidFeeBps(c.feeBps)
    && c.disputeLedgers <= 120_960
    && ValidFeeBps(c.cashoutBps)
    && (c.pendingExpiry == 0 || 128 <= c.pendingExpiry <= 1_000_000)
    && c.insuranceSplitBps <= 5_000
    && c.insuranceCoverageBps <= BPS_DENOMINATOR
  }

  function Terms(c: Config): FeeTerms {
    FeeTerms(c.feeBps, c.feeModel)
  }

  // ----- state -----

  /** A storage key scoped to one round and one user. */
  datatype Key = Key(round: nat, user: Address)

  /** The stakes recorded for rounds that have not left the ledger. */
  datatype Book = Book(
    positions: map<Key, UserPosition>,
    predictions: map<Key, PrecisionPrediction>,
    commitments: map<Key, PrecisionCommitment>)

  /** Unclaimed winnings, and the ledger at which each entry was last written. */
  datatype Purse = Purse(amounts: map<Address, int>, writtenAt: map<Address, nat>)

  datatype Dispute = Dispute(round: Round, price: nat, deadline: nat)

  /** A round that has left the ledger, and how. */
  datatype Exit = Exit(round: nat, status: ArchiveStatus)

  /** `exits`, `minted` and `dust` are history: what left, what entered, and what rounding
      has left outside every account. */
  datatype State = State(
    now: nat, cfg: Config,
    balances: map<Address, int>, purse: Purse, treasury: int, fund: int,
    active: Option<Round>, disputes: map<nat, Dispute>,
    participants: map<nat, seq<Address>>, book: Book,
    lastRoundId: nat, startLedgers: map<nat, nat>,
    outcomes: map<Key, UserRoundOutcome>,
    exits: seq<Exit>, minted: int, dust: int)

  function Initial(admin: Address, cfg: Config): State {
    State(0, cfg.(admin := admin), map[], Purse(map[], map[]), 0, 0, None, map[], map[],
          Book(map[], map[], map[]), 0, map[], map[], [], 0, 0)
  }

  function BalanceOf(s: State, user: Address): int {
    if user in s.balances then s.balances[user] else 0
  }

  function PendingOf(p: Purse, user: Address): int {
    if user in p.amounts then p.amounts[user] else 0
  }

  function ParticipantsOf(s: State, round: nat): seq<Address> {
    if round in s.participants then s.participants[round] else []
  }

  // ----- pending winnings -----

  /** `_accumulate_pending` */
  function Accumulate(p: Purse, cap: Option<int>, now: nat, c: Credit): Result<Purse> {
    var total :- Checked(PendingOf(p, c.user) + c.amount, PayoutOverflow);
    :- Need(cap.Some? ==> total <= cap.value, PendingWinningsCapExceeded);
    Ok(Purse(p.amounts[c.user := total], p.writtenAt[c.user := now]))
  }

  function AccumulateAll(p: Purse, cap: Option<int>, now: nat, credits: seq<Credit>): Result<Purse> {
    if credits == [] then Ok(p)
    else
      var q :- AccumulateAll(p, cap, now, credits[..|credits| - 1]);
      Accumulate(q, cap, now, credits[|credits| - 1])
  }

  /** `_persist_user_outcome`: the first record for a round and user stays. */
  function Persist(m: map<Key, UserRoundOutcome>, round: nat, o: UserRoundOutcome): map<Key, UserRoundOutcome> {
    if Key(round, o.user) in m then m else m[Key(round, o.user) := o]
  }

  function PersistAll(m: map<Key, UserRoundOutcome>, round: nat, outcomes: seq<UserRoundOutcome>): map<Key, UserRoundOutcome> {
    if outcomes == [] then m
    else Persist(PersistAll(m, round, outcomes[..|outcomes| - 1]), round, outcomes[|outcomes| - 1])
  }

  function PayOut(s: State, round: nat, outcomes: seq<UserRoundOutcome>): Result<State> {
    var purse :- AccumulateAll(s.purse, s.cfg.maxPending, s.now, Credits(outcomes));
    Ok(s.(purse := purse, outcomes := PersistAll(s.outcomes, round, outcomes)))
  }

  // ----- fees -----

  /** `collect_insurance_fee`: the part of a fee that goes to the insurance fund. */
  function InsurancePart(splitBps: nat, fee: int): Result<int> {
    if splitBps == 0 || fee <= 0 then Ok(0)
    else
      var scaled :- Checked(fee * splitBps, Overflow);
      var part := Quot(scaled, BPS_DENOMINATOR);
      Ok(if part <= 0 then 0 else Min(part, fee))
  }

  /** `_collect_protocol_fee` */
  function CollectFee(s: State, fee: int): Result<State> {
    if fee <= 0 then Ok(s)
    else
      var part :- InsurancePart(s.cfg.insuranceSplitBps, fee);
      var fund :- Checked(s.fund + part, Overflow);
      var ops :- Checked(fee - part, Overflow);
      var treasury :- Checked(s.treasury + ops, Overflow);
      Ok(s.(fund := fund, treasury := treasury))
  }

  /** The fee is collected before anybody is paid. */
  function ChargeAndPay(s: State, round: nat, st: Settlement): Result<State> {
    var charged :- CollectFee(s, st.fee);
    PayOut(charged, round, st.outcomes)
  }

  // ----- stakes of a round -----

  function UpDownEntries(b: Book, round: nat, users: seq<Address>): seq<UpDownStake> {
    if users == [] then []
    else
      var u := users[|users| - 1];
      var k := Key(round, u);
      UpDownEntries(b, round, users[..|users| - 1]) +
      if k in b.positions then [UpDownStake(u, b.positions[k].amount, b.positions[k].side)] else []
  }

  /** A revealed or direct prediction counts once, at its own amount; otherwise the
      commitment counts. */
  function PrecisionEntry(b: Book, round: nat, u: Address): PrecisionStake {
    var k := Key(round, u);
    if k in b.predictions then PrecisionStake(u, b.predictions[k].amount, b.predictions[k].price, true)
    else if k in b.commitments then PrecisionStake(u, b.commitments[k].amount, 0, false)
    else PrecisionStake(u, 0, 0, false)
  }

  function PrecisionEntries(b: Book, round: nat, users: seq<Address>): seq<PrecisionStake> {
    seq(|users|, i requires 0 <= i < |users| => PrecisionEntry(b, round, users[i]))
  }

  /** The whole stake of everybody in the round, returned. */
  function Returns(b: Book, rd: Round, users: seq<Address>, kind: OutcomeKind, showPrice: bool): seq<UserRoundOutcome> {
    if rd.mode.UpDown? then UpDownReturns(UpDownEntries(b, rd.id, users), kind)
    else PrecisionReturns(PrecisionEntries(b, rd.id, users), kind, showPrice)
  }

  function SettleRound(b: Book, rd: Round, users: seq<Address>, price: nat, cfg: Config): Result<Settlement> {
    if rd.mode.UpDown? then
      SettleUpDown(UpDownEntries(b, rd.id, users), rd.priceStart, price, rd.poolUp, rd.poolDown, Terms(cfg))
    else
      SettlePrecision(PrecisionEntries(b, rd.id, users), price, Terms(cfg), cfg.policy)
  }

  function Pot(b: Book, rd: Round, users: seq<Address>): int {
    if rd.mode.UpDown? then rd.poolUp + rd.poolDown
    else Sum(PrecisionAmounts(PrecisionEntries(b, rd.id, users)))
  }

  // ----- leaving the ledger -----

  /** `clear_user_positions` for every participant. */
  function ClearUsers(b: Book, round: nat, users: seq<Address>): Book {
    var gone := set u | u in users :: Key(round, u);
    Book(b.positions - gone, b.predictions - gone, b.commitments - gone)
  }

  function CloseRound(s: State, round: nat, status: ArchiveStatus): State {
    s.(book := ClearUsers(s.book, round, ParticipantsOf(s, round)),
       participants := s.participants - {round},
       exits := s.exits + [Exit(round, status)])
  }

  /** `_complete_settlement`. The active round marker is removed whichever round is settled. */
  function CompleteSettlement(s: State, rd: Round, price: nat): Result<State> {
    var users := Sort(ParticipantsOf(s, rd.id));
    var st :- SettleRound(s.book, rd, users, price, s.cfg);
    var paid :- ChargeAndPay(s, rd.id, st);
    var closed := CloseRound(paid, rd.id, Resolved);
    Ok(closed.(active := None,
               dust := s.dust + Pot(s.book, rd, users) - st.fee - Paid(st.outcomes)))
  }

  /** Returning every stake of a round and closing it. */
  function RefundRound(s: State, rd: Round, kind: OutcomeKind, showPrice: bool, status: ArchiveStatus): Result<State> {
    var paid :- PayOut(s, rd.id, Returns(s.book, rd, ParticipantsOf(s, rd.id), kind, showPrice));
    Ok(CloseRound(paid, rd.id, status))
  }

  // ----- insurance -----

  /** Cancel reasons 1, 2 and 3 stand for insurable events 0, 1 and 2. */
  predicate Insured(c: Config, reason: nat) {
    1 <= reason <= 3 && reason - 1 in c.insuredEvents && c.insuranceCoverageBps > 0
  }

  /** `calculate_coverage_amount` */
  function CoverageAmount(stake: int, bps: nat): Result<int> {
    if bps == 0 || stake <= 0 then Ok(0)
    else
      var scaled :- Checked(stake * bps, Overflow);
      Ok(Quot(scaled, BPS_DENOMINATOR))
  }

  function CoverageTotal(stakes: seq<int>, bps: nat): Result<int> {
    if stakes == [] then Ok(0)
    else
      var total :- CoverageTotal(stakes[..|stakes| - 1], bps);
      var amount :- CoverageAmount(stakes[|stakes| - 1], bps);
      Checked(total + amount, PayoutOverflow)
  }

  function StakeTotal(stakes: seq<int>): int {
    if stakes == [] then 0
    else AddOrKeep(StakeTotal(stakes[..|stakes| - 1]), stakes[|stakes| - 1])
  }

  /** The share of the distributed coverage that goes to one participant. */
  function CoverageShare(stake: int, total: int, spent: int): Result<int>
    requires total != 0
  {
    if stake > 0 then
      var product :- Checked(spent * stake, Overflow);
      Ok(Quot(product, total))
    else Ok(0)
  }

  /** Participant `i` is paid for entry `i` of the stake list. */
  function CoverageCredits(users: seq<Address>, stakes: seq<int>, total: int, spent: int): Result<seq<Credit>>
    requires total != 0
  {
    if users == [] then Ok([])
    else
      var n := |users| - 1;
      var front :- CoverageCredits(users[..n], stakes, total, spent);
      var share :- CoverageShare(if n < |stakes| then stakes[n] else 0, total, spent);
      Ok(front + if share > 0 then [Credit(users[n], share)] else [])
  }

  /** What the insurance fund pays on top of the refunds of a cancelled round. */
  datatype Cover = Cover(spent: int, credits: seq<Credit>)

  function Coverage(users: seq<Address>, stakes: seq<int>, bps: nat, fund: int): Result<Cover> {
    var wanted :- CoverageTotal(stakes, bps);
    var spent := if wanted <= 0 || fund <= 0 then 0 else Min(wanted, fund);
    var total := StakeTotal(stakes);
    if spent > 0 && total > 0 then
      var credits :- CoverageCredits(users, stakes, total, spent);
      Ok(Cover(spent, credits))
    else Ok(Cover(spent, []))
  }

  function Amounts(credits: seq<Credit>): seq<int> {
    seq(|credits|, i requires 0 <= i < |credits| => credits[i].amount)
  }

  function StakesOf(outcomes: seq<UserRoundOutcome>): seq<int> {
    seq(|outcomes|, i requires 0 <= i < |outcomes| => outcomes[i].stake)
  }

  // ----- entrypoints: minting, rounds, stakes -----

  const INITIAL_MINT: int := 1_000_0000000

  /** `mint_initial`; `allowed` stands for the per-ledger and per-epoch mint limits. */
  function Mint(s: State, user: Address, allowed: bool): Result<State> {
    if !s.cfg.mode.Normal? then Err(ContractPaused)
    else
      if user in s.balances then Ok(s)
      else
        :- Need(allowed, MintLimitExceeded);
        Ok(s.(balances := s.balances[user := INITIAL_MINT], minted := s.minted + INITIAL_MINT))
  }

  const MAX_START_PRICE: nat := 1_000_000_000_000_000_000

  /** `create_round` */
  function CreateRound(s: State, price: nat, mode: Option<nat>): Result<State> {
    if !(1 <= price <= MAX_START_PRICE) then Err(InvalidStartPrice)
    else
      var m := if mode.Some? then mode.value else 0;
      :- Need(m <= 1, InvalidMode);
      :- Need(!s.cfg.mode.FullyPaused?, ContractPaused);
      :- Need(s.active.None?, RoundAlreadyActive);
      :- Need(s.now !in s.startLedgers, RoundStartLedgerReused);
      var id := s.lastRoundId + 1;
      :- Need(id <= U64_MAX, Overflow);
      :- Need(s.now + s.cfg.betWindow <= U32_MAX && s.now + s.cfg.runWindow <= U32_MAX, Overflow);
      var rd := Round(id, price, s.now, s.now + s.cfg.betWindow, s.now + s.cfg.runWindow, 0, 0,
                      if m == 0 then UpDown else Precision);
      Ok(s.(active := Some(rd), lastRoundId := id, startLedgers := s.startLedgers[s.now := id]))
  }

  function StakeRules(c: Config, amount: int): Guard {
    if amount <= 0 then Fail(InvalidBetAmount)
    else if c.minBet.Some? && amount < c.minBet.value then Fail(BelowMinBet)
    else if c.maxStake.Some? && amount > c.maxStake.value then Fail(StakeExceedsMax)
    else Pass
  }

  /** `_user_round_exposure` */
  function Exposure(b: Book, k: Key): int {
    var a := if k in b.positions then SaturatingAdd(0, b.positions[k].amount) else 0;
    var c := if k in b.predictions then SaturatingAdd(a, b.predictions[k].amount) else a;
    if k in b.commitments then SaturatingAdd(c, b.commitments[k].amount) else c
  }

  /** The guards shared by every entrypoint that takes a stake, up to the betting window. */
  function OpenRound(s: State, user: Address, amount: int, mode: RoundMode): Result<Round> {
    if s.active.None? then Err(NoActiveRound)
    else
      var rd := s.active.value;
      var next :- if s.cfg.maxExposure.Some? then Checked(Exposure(s.book, Key(rd.id, user)) + amount, Overflow) else Ok(0);
      :- Need(s.cfg.maxExposure.Some? ==> next <= s.cfg.maxExposure.value, ExposureCapExceeded);
      :- Need(rd.mode == mode, WrongModeForPrediction);
      :- Need(s.now < rd.betEnd, RoundEnded);
      :- Need(s.cfg.closeBuffer == 0 || s.now + s.cfg.closeBuffer < rd.betEnd, RoundEnded);
      Ok(rd)
  }

  /** Moving a stake out of the balance and joining the participant list. */
  function Join(s: State, round: nat, user: Address, amount: int): State {
    s.(balances := s.balances[user := BalanceOf(s, user) - amount],
       participants := s.participants[round := ParticipantsOf(s, round) + [user]])
  }

  /** `place_bet` */
  function PlaceBet(s: State, user: Address, amount: int, side: BetSide): Result<State> {
    if !s.cfg.mode.Normal? then Err(ContractPaused)
    else
      :- StakeRules(s.cfg, amount);
      var rd :- OpenRound(s, user, amount, UpDown);
      :- Need(BalanceOf(s, user) >= amount, InsufficientBalance);
      var k := Key(rd.id, user);
      :- Need(k !in s.book.positions, AlreadyBet);
      var pool :- Checked((if side.Up? then rd.poolUp else rd.poolDown) + amount, Overflow);
      Ok(Join(s, rd.id, user, amount).(
           book := s.book.(positions := s.book.positions[k := UserPosition(amount, side)]),
           active := Some(if side.Up? then rd.(poolUp := pool) else rd.(poolDown := pool))))
  }

  /** `place_precision_prediction` */
  function PlacePrediction(s: State, user: Address, amount: int, price: nat): Result<State> {
    if !s.cfg.mode.Normal? then Err(ContractPaused)
    else
      :- StakeRules(s.cfg, amount);
      :- Need(price <= 99_999_999, InvalidPrice);
      var rd :- OpenRound(s, user, amount, Precision);
      var k := Key(rd.id, user);
      :- Need(k !in s.book.predictions && k !in s.book.commitments, AlreadyBet);
      :- Need(|ParticipantsOf(s, rd.id)| < s.cfg.maxPrecision, PrecisionCapExceeded);
      :- Need(BalanceOf(s, user) >= amount, InsufficientBalance);
      Ok(Join(s, rd.id, user, amount).(
           book := s.book.(predictions := s.book.predictions[k := PrecisionPrediction(price, amount)])))
  }

  /** `commit_prediction`, which has no participant cap. */
  function CommitPrediction(s: State, user: Address, hash: Digest, amount: int): Result<State> {
    if !s.cfg.mode.Normal? then Err(ContractPaused)
    else
      :- Need(!hash.ZeroDigest?, InvalidCommitment);
      :- StakeRules(s.cfg, amount);
      var rd :- OpenRound(s, user, amount, Precision);
      :- Need(BalanceOf(s, user) >= amount, InsufficientBalance);
      var k := Key(rd.id, user);
      :- Need(k !in s.book.predictions && k !in s.book.commitments, AlreadyBet);
      Ok(Join(s, rd.id, user, amount).(
           book := s.book.(commitments := s.book.commitments[k := PrecisionCommitment(hash, amount, false)])))
  }

  /** `salt_has_minimum_entropy`: not all bytes are the same. */
  predicate HasEntropy(salt: seq<nat>) {
    exists i, j :: 0 <= i < j < |salt| && salt[i] != salt[j]
  }

  /** `reveal_prediction` */
  function RevealPrediction(s: State, user: Address, price: nat, salt: seq<nat>): Result<State> {
    if !s.cfg.mode.Normal? then Err(ContractPaused)
    else
      :- Need(HasEntropy(salt), InvalidSalt);
      :- Need(s.active.Some?, NoActiveRound);
      var rd := s.active.value;
      :- Need(rd.mode.Precision?, WrongModeForPrediction);
      :- Need(rd.betEnd <= s.now < rd.end, InvalidRevealWindow);
      var k := Key(rd.id, user);
      :- Need(k in s.book.commitments, CommitmentNotFound);
      var c := s.book.commitments[k];
      :- Need(!c.revealed, AlreadyRevealed);
      :- Need(c.hash == Sha256(price, salt), HashMismatch);
      Ok(s.(book := s.book.(
           commitments := s.book.commitments[k := c.(revealed := true)],
           predictions := s.book.predictions[k := PrecisionPrediction(price, c.amount)])))
  }

  function Without(users: seq<Address>, user: Address): seq<Address> {
    if users == [] then []
    else Without(users[..|users| - 1], user) + if users[|users| - 1] != user then [users[|users| - 1]] else []
  }

  /** A cash-out worth nothing leaves pending winnings untouched. */
  function CashOutCredit(p: Purse, cap: Option<int>, now: nat, c: Credit): Result<Purse> {
    if c.amount > 0 then Accumulate(p, cap, now, c) else Ok(p)
  }

  /** `cash_out_early` */
  function CashOutEarly(s: State, user: Address): Result<State> {
    if !s.cfg.mode.Normal? then Err(ContractPaused)
    else
      :- Need(s.cfg.cashoutBps.Some? && 0 < s.cfg.cashoutBps.value <= BPS_DENOMINATOR, EarlyCashoutDisabled);
      :- Need(s.active.Some?, NoActiveRound);
      var rd := s.active.value;
      :- Need(rd.mode.UpDown?, WrongModeForCashout);
      :- Need(rd.betEnd <= s.now < rd.end, InvalidPhaseForCashout);
      var k := Key(rd.id, user);
      :- Need(k in s.book.positions, PositionNotFound);
      var p := s.book.positions[k];
      :- Need(p.amount > 0, InvalidBetAmount);
      var scaled :- Checked(p.amount * s.cfg.cashoutBps.value, Overflow);
      var forfeit := Quot(scaled, BPS_DENOMINATOR);
      var cashout :- Checked(p.amount - forfeit, Overflow);
      var pool :- Checked((if p.side.Up? then rd.poolUp else rd.poolDown) - p.amount, Overflow);
      ExitRound(s, rd, user, p, cashout, forfeit, pool)
  }

  /** The payout of an early cash-out becomes pending winnings and the forfeit a fee. */
  function MoveCashOut(s: State, user: Address, cashout: int, forfeit: int): Result<State> {
    var purse :- CashOutCredit(s.purse, s.cfg.maxPending, s.now, Credit(user, cashout));
    var charged :- CollectFee(s, forfeit);
    Ok(charged.(purse := purse))
  }

  /** What an early cash-out does once its guards have passed. */
  function ExitRound(s: State, rd: Round, user: Address, p: UserPosition, cashout: int, forfeit: int, pool: int): Result<State> {
    var moved :- MoveCashOut(s, user, cashout, forfeit);
    Ok(moved.(
         active := Some(if p.side.Up? then rd.(poolUp := pool) else rd.(poolDown := pool)),
         outcomes := Persist(s.outcomes, rd.id, UserRoundOutcome(user, UpDown, Some(p.side), 0, p.amount, cashout, Refund)),
         book := s.book.(positions := s.book.positions - {Key(rd.id, user)}),
         participants := s.participants[rd.id := Without(ParticipantsOf(s, rd.id), user)]))
  }

  // ----- entrypoints: the end of a round -----

  /** What the fund pays when the active round is cancelled. */
  function CancelCover(s: State, users: seq<Address>, stakes: seq<int>, reason: nat): Result<Cover> {
    if Insured(s.cfg, reason) then Coverage(users, stakes, s.cfg.insuranceCoverageBps, s.fund)
    else Ok(Cover(0, []))
  }

  /** `cancel_round` */
  function CancelRound(s: State, reason: nat): Result<State> {
    if s.active.None? then Err(RoundNotCancellable)
    else
      var rd := s.active.value;
      var users := ParticipantsOf(s, rd.id);
      var outcomes := Returns(s.book, rd, users, Void, false);
      var paid :- PayOut(s, rd.id, outcomes);
      var cover :- CancelCover(s, users, StakesOf(outcomes), reason);
      var purse :- AccumulateAll(paid.purse, s.cfg.maxPending, s.now, cover.credits);
      Ok(CloseRound(paid, rd.id, Cancelled).(
           active := None,
           purse := purse,
           fund := s.fund - cover.spent,
           dust := s.dust + cover.spent - Sum(Amounts(cover.credits))))
  }

  /** `_settle_round_with_price` */
  function SettleWithPrice(s: State, rd: Round, price: nat): Result<State> {
    if s.cfg.minParticipants.Some? && |ParticipantsOf(s, rd.id)| < s.cfg.minParticipants.value then
      var closed :- RefundRound(s, rd, Refund, false, FallbackRefund);
      Ok(closed.(active := None))
    else if s.cfg.disputeLedgers > 0 then
      :- Need(s.now + s.cfg.disputeLedgers <= U32_MAX, Overflow);
      Ok(s.(disputes := s.disputes[rd.id := Dispute(rd, price, s.now + s.cfg.disputeLedgers)], active := None))
    else CompleteSettlement(s, rd, price)
  }

  /** `resolve_round`: the payload names a round by its start ledger. `gatesPass` stands for
      the oracle's signature, freshness, deviation, confidence, nonce and heartbeat checks. */
  function ResolveRound(s: State, price: nat, startLedger: nat, gatesPass: bool): Result<State> {
    if price == 0 then Err(InvalidPrice)
    else
      :- Need(!s.cfg.mode.FullyPaused?, ContractPaused);
      :- Need(s.active.Some?, NoActiveRound);
      var rd := s.active.value;
      :- Need(startLedger == rd.startLedger, InvalidOracleRound);
      :- Need(gatesPass, OracleNotLive);
      :- Need(s.now >= rd.end, RoundNotEnded);
      SettleWithPrice(s, rd, price)
  }

  /** `void_round` */
  function VoidRound(s: State, id: nat): Result<State> {
    if s.cfg.mode.FullyPaused? then Err(ContractPaused)
    else
      :- Need(id in s.disputes, RoundNotCancellable);
      var d := s.disputes[id];
      :- Need(s.now < d.deadline, RoundNotCancellable);
      var rd := d.round.(id := id);
      var refund :- CheckedSum(StakesOf(Returns(s.book, rd, ParticipantsOf(s, id), Void, true)));
      var closed :- RefundRound(s, rd, Void, true, Voided);
      Ok(closed.(disputes := s.disputes - {id}))
  }

  /** `finalize_round` */
  function FinalizeRound(s: State, id: nat): Result<State> {
    if s.cfg.mode.FullyPaused? then Err(ContractPaused)
    else
      :- Need(id in s.disputes, NoActiveRound);
      var d := s.disputes[id];
      :- Need(s.now >= d.deadline, RoundNotEnded);
      var closed :- CompleteSettlement(s, d.round, d.price);
      Ok(closed.(disputes := s.disputes - {id}))
  }

  // ----- entrypoints: moving money out -----

  /** What a claim does once its guards have passed. */
  function ClaimOne(s: State, user: Address): Result<(State, int)> {
    var pending := PendingOf(s.purse, user);
    if pending == 0 then Ok((s, 0))
    else
      var balance :- Checked(BalanceOf(s, user) + pending, PayoutOverflow);
      Ok((s.(purse := Purse(s.purse.amounts - {user}, s.purse.writtenAt - {user}),
             balances := s.balances[user := balance]), pending))
  }

  /** `claim_winnings` */
  function Claim(s: State, user: Address): Result<(State, int)> {
    if s.cfg.mode.FullyPaused? then Err(ContractPaused)
    else ClaimOne(s, user)
  }

  function ClaimAll(s: State, users: seq<Address>): Result<(State, seq<int>)> {
    if users == [] then Ok((s, []))
    else
      var front :- ClaimAll(s, users[..|users| - 1]);
      var last :- ClaimOne(front.0, users[|users| - 1]);
      Ok((last.0, front.1 + [last.1]))
  }

  const MAX_CLAIM_BATCH_SIZE: nat := 50

  /** `claim_many` */
  function ClaimMany(s: State, users: seq<Address>): Result<(State, seq<int>)> {
    if s.cfg.mode.FullyPaused? then Err(ContractPaused)
    else
      :- Need(|users| <= MAX_CLAIM_BATCH_SIZE, ClaimBatchTooLarge);
      :- Need(Distinct(users), DuplicateClaimAddress);
      ClaimAll(s, users)
  }

  /** `withdraw_protocol_fee` */
  function WithdrawFee(s: State, recipient: Address, amount: int): Result<State> {
    if s.cfg.mode.FullyPaused? then Err(ContractPaused)
    else
      :- Need(amount > 0, InvalidBetAmount);
      :- Need(amount <= s.treasury, InsufficientBalance);
      var balance :- Checked(BalanceOf(s, recipient) + amount, PayoutOverflow);
      Ok(s.(treasury := s.treasury - amount, balances := s.balances[recipient := balance]))
  }

  /** `top_up_insurance_fund` */
  function TopUpInsurance(s: State, amount: int): Result<State> {
    if s.cfg.mode.FullyPaused? then Err(ContractPaused)
    else
      :- Need(amount > 0, InvalidBetAmount);
      :- Need(BalanceOf(s, s.cfg.admin) >= amount, InsufficientBalance);
      var fund :- Checked(s.fund + amount, Overflow);
      Ok(s.(fund := fund, balances := s.balances[s.cfg.admin := BalanceOf(s, s.cfg.admin) - amount]))
  }

  /** `withdraw_insurance_fund` */
  function WithdrawInsurance(s: State, recipient: Address, amount: int): Result<State> {
    if s.cfg.mode.FullyPaused? then Err(ContractPaused)
    else
      :- Need(amount > 0, InvalidBetAmount);
      :- Need(amount <= s.fund, InsuranceInsufficientFund);
      var balance :- Checked(BalanceOf(s, recipient) + amount, PayoutOverflow);
      Ok(s.(fund := s.fund - amount, balances := s.balances[recipient := balance]))
  }

  /** `reclaim_expired_pending_winnings` */
  function ReclaimExpired(s: State, user: Address): Result<State> {
    if s.cfg.mode.FullyPaused? then Err(ContractPaused)
    else
      :- Need(s.cfg.pendingExpiry != 0, ExpiryNotConfigured);
      var pending := PendingOf(s.purse, user);
      :- Need(pending != 0 && user in s.purse.writtenAt, PendingWinningsNotFound);
      :- Need(s.now - s.purse.writtenAt[user] >= s.cfg.pendingExpiry, PendingWinningsNotExpired);
      var balance :- Checked(BalanceOf(s, s.cfg.admin) + pending, PayoutOverflow);
      Ok(s.(purse := Purse(s.purse.amounts - {user}, s.purse.writtenAt - {user}),
            balances := s.balances[s.cfg.admin := balance]))
  }

  // ----- commands and runs -----

  datatype Command =
    | Advance(ledgers: nat)
    | Configure(cfg: Config)
    | DoMint(user: Address, allowed: bool)
    | DoCreate(price: nat, mode: Option<nat>)
    | DoBet(user: Address, amount: int, side: BetSide)
    | DoPredict(user: Address, amount: int, price: nat)
    | DoCommit(user: Address, hash: Digest, amount: int)
    | DoReveal(user: Address, price: nat, salt: seq<nat>)
    | DoCashOut(user: Address)
    | DoCancel(reason: nat)
    | DoResolve(price: nat, startLedger: nat, gatesPass: bool)
    | DoVoid(id: nat)
    | DoFinalize(id: nat)
    | DoClaim(user: Address)
    | DoClaimMany(users: seq<Address>)
    | DoWithdrawFee(recipient: Address, amount: int)
    | DoTopUp(amount: int)
    | DoWithdrawInsurance(recipient: Address, amount: int)
    | DoReclaim(user: Address)

  function DropAmount<T>(r: Result<(State, T)>): Result<State> {
    var v :- r;
    Ok(v.0)
  }

  function Step(s: State, c: Command): Result<State> {
    match c
    case Advance(ledgers) => Ok(s.(now := s.now + ledgers))
    case Configure(cfg) => if ValidConfig(cfg) then Ok(s.(cfg := cfg)) else Err(WindowOutOfRange)
    case DoMint(user, allowed) => Mint(s, user, allowed)
    case DoCreate(price, mode) => CreateRound(s, price, mode)
    case DoBet(user, amount, side) => PlaceBet(s, user, amount, side)
    case DoPredict(user, amount, price) => PlacePrediction(s, user, amount, price)
    case DoCommit(user, hash, amount) => CommitPrediction(s, user, hash, amount)
    case DoReveal(user, price, salt) => RevealPrediction(s, user, price, salt)
    case DoCashOut(user) => CashOutEarly(s, user)
    case DoCancel(reason) => CancelRound(s, reason)
    case DoResolve(price, start, ok) => ResolveRound(s, price, start, ok)
    case DoVoid(id) => VoidRound(s, id)
    case DoFinalize(id) => FinalizeRound(s, id)
    case DoClaim(user) => DropAmount(Claim(s, user))
    case DoClaimMany(users) => DropAmount(ClaimMany(s, users))
    case DoWithdrawFee(recipient, amount) => WithdrawFee(s, recipient, amount)
    case DoTopUp(amount) => TopUpInsurance(s, amount)
    case DoWithdrawInsurance(recipient, amount) => WithdrawInsurance(s, recipient, amount)
    case DoReclaim(user) => ReclaimExpired(s, user)
  }

  /** A failed call leaves the state as it was. */
  function Apply(s: State, c: Command): State {
    var r := Step(s, c);
    if r.Ok? then r.value else s
  }

  function Run(s: State, cs: seq<Command>): State {
    if cs == [] then s else Apply(Run(s, cs[..|cs| - 1]), cs[|cs| - 1])
  }
}
