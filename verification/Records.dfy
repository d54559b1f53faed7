/** Closing a round answers every stake of it exactly once: one record per participant, and
    exactly the recorded payout added to that participant's pending winnings. */
module Records {
  import opened Types
  import opened Arith
  import opened Sums
  import opened Fees
  import opened Engine
  import opened Ledger
  import opened Books
  import opened Invariants
  import opened Steps
  import opened Runs

  // ----- one record per stake -----

  /** The result fits the way the round left: full stakes are returned unless the round was
      settled on a price, and then a loss pays nothing. */
  predicate Fits(status: ArchiveStatus, o: UserRoundOutcome) {
    match status
    case Cancelled => o.kind == Void && o.payout == o.stake
    case Voided => o.kind == Void && o.payout == o.stake
    case FallbackRefund => o.kind == Refund && o.payout == o.stake
    case Resolved => o.kind != Void && (o.kind == Loss ==> o.payout == 0) && (o.kind == Refund ==> o.payout == o.stake)
  }

  /** The record shows the mode, and the side taken or the price guessed; a guess is shown when the
      round was settled or voided, and 0 stands for none. */
  predicate Described(b: Book, k: Key, status: ArchiveStatus, o: UserRoundOutcome) {
    if k in b.positions then o.mode == UpDown && o.side == Some(b.positions[k].side) && o.price == 0
    else
      && o.mode == Precision && o.side == None
      && o.price == if (status.Resolved? || status.Voided?) && k in b.predictions then b.predictions[k].price else 0
  }

  /** The stake of `k` was recorded and unanswered, and is now answered by one record. */
  ghost predicate Answered(s: State, t: State, k: Key, status: ArchiveStatus) {
    && InBook(s.book, k) && k !in s.outcomes
    && !InBook(t.book, k) && k in t.outcomes
    && t.outcomes[k].user == k.user && t.outcomes[k].stake == StakeAt(s.book, k)
    && Fits(status, t.outcomes[k]) && Described(s.book, k, status, t.outcomes[k])
  }

  /** A list of outcomes, one per participant, each with the participant's recorded stake. */
  ghost predicate OnePerStake(b: Book, round: nat, users: seq<Address>, outcomes: seq<UserRoundOutcome>, status: ArchiveStatus) {
    && |outcomes| == |users|
    && forall i :: 0 <= i < |users| ==>
         && outcomes[i].user == users[i] && outcomes[i].stake == StakeAt(b, Key(round, users[i]))
         && Fits(status, outcomes[i]) && Described(b, Key(round, users[i]), status, outcomes[i])
  }

  lemma LeavesAnswers(s: State, t: State, id: nat, users: seq<Address>, outcomes: seq<UserRoundOutcome>, status: ArchiveStatus, u: Address)
    requires Inv(s) && Leaves(s, t, id, outcomes, status) && u in ParticipantsOf(s, id)
    requires Members(s.book, id, users) && OnePerStake(s.book, id, users, outcomes, status)
    ensures Answered(s, t, Key(id, u), status)
  {
    ParticipantsAre(s, id);
    ClearedBook(s.book, id, ParticipantsOf(s, id), Key(id, u));
    assert InBook(s.book, Key(id, u));
    var i :| 0 <= i < |users| && users[i] == u;
    PersistAllAt(s.outcomes, id, outcomes, i);
  }

  lemma SettlementFits(s: State, rd: Round, price: nat)
    requires Inv(s) && IsLive(s, rd)
    requires var users := Sort(ParticipantsOf(s, rd.id)); SettleRound(s.book, rd, users, price, s.cfg).Ok?
    ensures var users := Sort(ParticipantsOf(s, rd.id));
            OnePerStake(s.book, rd.id, users, SettleRound(s.book, rd, users, price, s.cfg).value.outcomes, Resolved)
            && Members(s.book, rd.id, users)
  {
    ParticipantsAre(s, rd.id);
    MembersSorted(s.book, rd.id, ParticipantsOf(s, rd.id));
    RoundFits(s.book, s.startLedgers, s.lastRoundId, rd, Sort(ParticipantsOf(s, rd.id)), price, s.cfg);
  }

  lemma RoundFits(b: Book, startLedgers: map<nat, nat>, last: nat, rd: Round, users: seq<Address>, price: nat, cfg: Config)
    requires StakesOk(b) && RoundOk(b, startLedgers, last, rd) && Members(b, rd.id, users) && ValidConfig(cfg)
    requires SettleRound(b, rd, users, price, cfg).Ok?
    ensures OnePerStake(b, rd.id, users, SettleRound(b, rd, users, price, cfg).value.outcomes, Resolved)
  {
    PotIsRecorded(b, startLedgers, last, rd, users);
    if rd.mode.UpDown? {
      EntriesAligned(b, rd.id, users);
      UpDownAnswers(UpDownEntries(b, rd.id, users), rd, price, cfg);
    } else {
      PrecisionAnswers(PrecisionEntries(b, rd.id, users), price, cfg);
      PrecisionStakes(b, rd, users);
    }
  }

  lemma PrecisionStakes(b: Book, rd: Round, users: seq<Address>)
    requires rd.mode.Precision? && Members(b, rd.id, users)
    requires forall k :: InBook(b, k) && k.round == rd.id ==> k !in b.positions
    ensures forall i :: 0 <= i < |users| ==>
              && PrecisionEntries(b, rd.id, users)[i].user == users[i]
              && PrecisionEntries(b, rd.id, users)[i].amount == StakeAt(b, Key(rd.id, users[i]))
              && Key(rd.id, users[i]) !in b.positions
              && PrecisionEntries(b, rd.id, users)[i].revealed == (Key(rd.id, users[i]) in b.predictions)
              && PrecisionEntries(b, rd.id, users)[i].price
              == if Key(rd.id, users[i]) in b.predictions then b.predictions[Key(rd.id, users[i])].price else 0
  {
    forall i | 0 <= i < |users| ensures Key(rd.id, users[i]) !in b.positions {
      assert InBook(b, Key(rd.id, users[i]));
    }
  }

  lemma UpDownAnswers(es: seq<UpDownStake>, rd: Round, price: nat, cfg: Config)
    requires UpDownBooked(es, rd.poolUp, rd.poolDown) && ValidConfig(cfg) && rd.mode.UpDown?
    requires SettleUpDown(es, rd.priceStart, price, rd.poolUp, rd.poolDown, Terms(cfg)).Ok?
    ensures var outcomes := SettleUpDown(es, rd.priceStart, price, rd.poolUp, rd.poolDown, Terms(cfg)).value.outcomes;
            |outcomes| == |es| && forall i :: 0 <= i < |es| ==>
              && outcomes[i].user == es[i].user && outcomes[i].stake == es[i].amount && Fits(Resolved, outcomes[i])
              && outcomes[i].mode == UpDown && outcomes[i].side == Some(es[i].side) && outcomes[i].price == 0
  {
    UpDownConserves(es, rd.priceStart, price, rd.poolUp, rd.poolDown, Terms(cfg));
  }

  lemma PrecisionAnswers(es: seq<PrecisionStake>, price: nat, cfg: Config)
    requires PositivePrecision(es) && ValidConfig(cfg) && SettlePrecision(es, price, Terms(cfg), cfg.policy).Ok?
    ensures var outcomes := SettlePrecision(es, price, Terms(cfg), cfg.policy).value.outcomes;
            |outcomes| == |es| && forall i :: 0 <= i < |es| ==>
              && outcomes[i].user == es[i].user && outcomes[i].stake == es[i].amount && Fits(Resolved, outcomes[i])
              && outcomes[i].mode == Precision && outcomes[i].side == None
              && (outcomes[i].price == es[i].price || (!es[i].revealed && outcomes[i].price == 0))
  {
    PrecisionConserves(es, price, Terms(cfg), cfg.policy);
    PrecisionShown(es, price, Terms(cfg), cfg.policy);
  }

  lemma PrecisionShown(es: seq<PrecisionStake>, price: nat, terms: FeeTerms, policy: PayoutPolicy)
    requires PositivePrecision(es) && ValidFeeBps(terms.bps) && SettlePrecision(es, price, terms, policy).Ok?
    ensures var outcomes := SettlePrecision(es, price, terms, policy).value.outcomes;
            |outcomes| == |es| && forall i :: 0 <= i < |es| ==>
              && outcomes[i].mode == Precision && outcomes[i].side == None
              && (outcomes[i].price == es[i].price || (!es[i].revealed && outcomes[i].price == 0))
  {
    ClosestExists(es, price);
    if Winners(es, price) != [] {
      var pool, base, pays := PotDivided(es, price, terms, policy);
    } else {
      NobodyClosestConserves(es, price, terms, policy);
    }
  }

  lemma ReturnsFit(s: State, rd: Round, kind: OutcomeKind, showPrice: bool, status: ArchiveStatus)
    requires Inv(s) && IsLive(s, rd)
    requires match status case Cancelled => kind == Void case Voided => kind == Void case FallbackRefund => kind == Refund case Resolved => false
    requires showPrice == status.Voided?
    ensures var users := ParticipantsOf(s, rd.id);
            OnePerStake(s.book, rd.id, users, Returns(s.book, rd, users, kind, showPrice), status) && Members(s.book, rd.id, users)
  {
    ParticipantsAre(s, rd.id);
    ReturnsAligned(s.book, s.startLedgers, s.lastRoundId, rd, ParticipantsOf(s, rd.id), kind, showPrice);
    ReturnsDescribe(s.book, s.startLedgers, s.lastRoundId, rd, ParticipantsOf(s, rd.id), kind, status);
  }

  lemma ReturnsDescribe(b: Book, startLedgers: map<nat, nat>, last: nat, rd: Round, users: seq<Address>,
                        kind: OutcomeKind, status: ArchiveStatus)
    requires RoundOk(b, startLedgers, last, rd) && Members(b, rd.id, users) && !status.Resolved?
    ensures var outcomes := Returns(b, rd, users, kind, status.Voided?);
            |outcomes| == |users| && forall i :: 0 <= i < |users| ==> Described(b, Key(rd.id, users[i]), status, outcomes[i])
  {
    forall i | 0 <= i < |users| ensures Key(rd.id, users[i]) in b.positions <==> rd.mode.UpDown? {
      assert InBook(b, Key(rd.id, users[i]));
    }
    if rd.mode.Precision? { PrecisionStakes(b, rd, users); } else { EntriesAligned(b, rd.id, users); }
  }

  /** Earlier records stay, and what is new are records of the participants of this round. */
  ghost predicate RecordsOnly(s: State, t: State, id: nat) {
    && (forall k :: k in s.outcomes ==> k in t.outcomes && t.outcomes[k] == s.outcomes[k])
    && (forall k :: k in t.outcomes && k !in s.outcomes ==> k.round == id && k.user in ParticipantsOf(s, id))
  }

  lemma LeavesRecords(s: State, t: State, id: nat, users: seq<Address>, outcomes: seq<UserRoundOutcome>, status: ArchiveStatus)
    requires ListsOk(s.book, s.participants, s.lastRoundId) && Leaves(s, t, id, outcomes, status)
    requires Members(s.book, id, users) && OnePerStake(s.book, id, users, outcomes, status)
    ensures RecordsOnly(s, t, id)
  {
    ParticipantsAre(s, id);
    forall k | k in t.outcomes
      ensures k in s.outcomes || (k.round == id && k.user in ParticipantsOf(s, id))
    {
      PersistAllKeys(s.outcomes, id, outcomes, k);
      if i :| k.round == id && 0 <= i < |outcomes| && outcomes[i].user == k.user { assert users[i] in users; assert InBook(s.book, k); }
    }
    forall k | k in s.outcomes ensures k in t.outcomes && t.outcomes[k] == s.outcomes[k] {
      PersistAllKeys(s.outcomes, id, outcomes, k);
    }
  }

  /** The round that the command takes off the ledger, and how: every stake of it is answered,
      and nothing else is recorded. */
  ghost predicate Closes(s: State, t: State, c: Command, e: Exit) {
    && Ends(s, t, c, e)
    && (forall u :: u in ParticipantsOf(s, e.round) ==> Answered(s, t, Key(e.round, u), e.status))
    && RecordsOnly(s, t, e.round)
  }

  /** Whenever a round leaves the ledger, every stake of it is answered by exactly one record,
      which returns the whole stake unless the round was settled on a price. */
  lemma EveryStakeIsAnswered(s: State, c: Command)
    requires Inv(s) && s.minted <= I128_MAX && Step(s, c).Ok? && IsEnding(c)
    ensures Stages(s, Step(s, c).value) || exists e :: Closes(s, Step(s, c).value, c, e)
  {
    match c
    case DoCancel(reason) => CancelAnswers(s, reason);
    case DoResolve(price, start, pass) => ResolveAnswers(s, c, s.active.value, price);
    case DoVoid(id) => VoidAnswers(s, id);
    case DoFinalize(id) => FinalizeAnswers(s, id);
  }

  lemma CancelAnswers(s: State, reason: nat)
    requires Inv(s) && CancelRound(s, reason).Ok?
    ensures exists e :: Closes(s, CancelRound(s, reason).value, DoCancel(reason), e)
  {
    var rd, t := s.active.value, CancelRound(s, reason).value;
    CancelChanges(s, reason);
    ReturnsFit(s, rd, Void, false, Cancelled);
    assert Ends(s, t, DoCancel(reason), Exit(rd.id, Cancelled));
    var outcomes := Returns(s.book, rd, ParticipantsOf(s, rd.id), Void, false);
    forall u | u in ParticipantsOf(s, rd.id) ensures Answered(s, t, Key(rd.id, u), Cancelled) {
      LeavesAnswers(s, t, rd.id, ParticipantsOf(s, rd.id), outcomes, Cancelled, u);
    }
    LeavesRecords(s, t, rd.id, ParticipantsOf(s, rd.id), outcomes, Cancelled);
    assert Closes(s, t, DoCancel(reason), Exit(rd.id, Cancelled));
  }

  lemma VoidAnswers(s: State, id: nat)
    requires Inv(s) && VoidRound(s, id).Ok?
    ensures exists e :: Closes(s, VoidRound(s, id).value, DoVoid(id), e)
  {
    var rd, t := s.disputes[id].round, VoidRound(s, id).value;
    assert rd.(id := id) == rd;
    VoidShape(s, id);
    ReturnsFit(s, rd, Void, true, Voided);
    var outcomes := Returns(s.book, rd, ParticipantsOf(s, id), Void, true);
    assert Leaves(s, t, id, outcomes, Voided);
    forall u | u in ParticipantsOf(s, id) ensures Answered(s, t, Key(id, u), Voided) {
      LeavesAnswers(s, t, id, ParticipantsOf(s, id), outcomes, Voided, u);
    }
    LeavesRecords(s, t, id, ParticipantsOf(s, id), outcomes, Voided);
    assert Closes(s, t, DoVoid(id), Exit(id, Voided));
  }

  lemma FinalizeAnswers(s: State, id: nat)
    requires Inv(s) && FinalizeRound(s, id).Ok?
    ensures exists e :: Closes(s, FinalizeRound(s, id).value, DoFinalize(id), e)
  {
    var d, t := s.disputes[id], FinalizeRound(s, id).value;
    var st, charged := CompleteChanges(s, d.round, d.price);
    SettlementFits(s, d.round, d.price);
    assert Leaves(s, t, id, st.outcomes, Resolved);
    forall u | u in ParticipantsOf(s, id) ensures Answered(s, t, Key(id, u), Resolved) {
      LeavesAnswers(s, t, id, Sort(ParticipantsOf(s, id)), st.outcomes, Resolved, u);
    }
    assert Ends(s, t, DoFinalize(id), Exit(id, Resolved));
    LeavesRecords(s, t, id, Sort(ParticipantsOf(s, id)), st.outcomes, Resolved);
    assert Closes(s, t, DoFinalize(id), Exit(id, Resolved));
  }

  lemma ResolveAnswers(s: State, c: Command, rd: Round, price: nat)
    requires Inv(s) && s.active == Some(rd) && SettleWithPrice(s, rd, price).Ok? && c.DoResolve?
    ensures var t := SettleWithPrice(s, rd, price).value; Stages(s, t) || exists e :: Closes(s, t, c, e)
  {
    var t := SettleWithPrice(s, rd, price).value;
    var users := ParticipantsOf(s, rd.id);
    ResolveShape(s, c, rd, price);
    if s.cfg.minParticipants.Some? && |users| < s.cfg.minParticipants.value {
      FallbackAnswers(s, c, rd, price);
    } else if s.cfg.disputeLedgers == 0 {
      SettledAnswers(s, c, rd, price);
    } else {
      assert Stages(s, t);
    }
  }

  lemma FallbackAnswers(s: State, c: Command, rd: Round, price: nat)
    requires Inv(s) && s.active == Some(rd) && SettleWithPrice(s, rd, price).Ok? && c.DoResolve?
    requires s.cfg.minParticipants.Some? && |ParticipantsOf(s, rd.id)| < s.cfg.minParticipants.value
    ensures exists e :: Closes(s, SettleWithPrice(s, rd, price).value, c, e)
  {
    var t, users := SettleWithPrice(s, rd, price).value, ParticipantsOf(s, rd.id);
    var outcomes := Returns(s.book, rd, users, Refund, false);
    ReturnsFit(s, rd, Refund, false, FallbackRefund);
    FallbackLeaves(s, rd, price);
    forall u | u in users ensures Answered(s, t, Key(rd.id, u), FallbackRefund) {
      LeavesAnswers(s, t, rd.id, users, outcomes, FallbackRefund, u);
    }
    assert Ends(s, t, c, Exit(rd.id, FallbackRefund));
    LeavesRecords(s, t, rd.id, users, outcomes, FallbackRefund);
    assert Closes(s, t, c, Exit(rd.id, FallbackRefund));
  }

  lemma SettledAnswers(s: State, c: Command, rd: Round, price: nat)
    requires Inv(s) && s.active == Some(rd) && CompleteSettlement(s, rd, price).Ok? && c.DoResolve?
    ensures exists e :: Closes(s, CompleteSettlement(s, rd, price).value, c, e)
  {
    var t := CompleteSettlement(s, rd, price).value;
    var st, charged := CompleteChanges(s, rd, price);
    SettlementFits(s, rd, price);
    assert s.disputes - {rd.id} == s.disputes;
    assert t.(disputes := s.disputes - {rd.id}) == t;
    assert Leaves(s, t, rd.id, st.outcomes, Resolved);
    forall u | u in ParticipantsOf(s, rd.id) ensures Answered(s, t, Key(rd.id, u), Resolved) {
      LeavesAnswers(s, t, rd.id, Sort(ParticipantsOf(s, rd.id)), st.outcomes, Resolved, u);
    }
    LeavesRecords(s, t, rd.id, Sort(ParticipantsOf(s, rd.id)), st.outcomes, Resolved);
    assert Closes(s, t, c, Exit(rd.id, Resolved));
  }

  function PayoutAt(m: map<Key, UserRoundOutcome>, k: Key): int {
    if k in m then m[k].payout else 0
  }

  /** Each user of the list gets the own payout, anybody else nothing. */
  lemma OutcomesCredit(p: Purse, cap: Option<int>, now: nat, outcomes: seq<UserRoundOutcome>, round: nat,
                       m: map<Key, UserRoundOutcome>, u: Address)
    requires AccumulateAll(p, cap, now, Credits(outcomes)).Ok?
    requires forall a, b :: 0 <= a < b < |outcomes| ==> outcomes[a].user != outcomes[b].user
    requires forall i :: 0 <= i < |outcomes| ==> Key(round, outcomes[i].user) !in m && (outcomes[i].kind.Loss? ==> outcomes[i].payout == 0)
    ensures PendingOf(AccumulateAll(p, cap, now, Credits(outcomes)).value, u) - PendingOf(p, u)
         == if exists i :: 0 <= i < |outcomes| && outcomes[i].user == u then PayoutAt(PersistAll(m, round, outcomes), Key(round, u)) else 0
  {
    EachIsCredited(p, cap, now, Credits(outcomes), u);
    if i :| 0 <= i < |outcomes| && outcomes[i].user == u {
      PersistAllAt(m, round, outcomes, i);
      OwnCredit(outcomes, i);
    } else {
      NothingForOthers(outcomes, u);
    }
  }

  /** One outcome for each participant, none recorded before, and a loss pays nothing. */
  ghost predicate Fresh(s: State, id: nat, outcomes: seq<UserRoundOutcome>) {
    && (forall a, b :: 0 <= a < b < |outcomes| ==> outcomes[a].user != outcomes[b].user)
    && (forall i :: 0 <= i < |outcomes| ==> Key(id, outcomes[i].user) !in s.outcomes && (outcomes[i].kind.Loss? ==> outcomes[i].payout == 0))
    && (forall u :: u in ParticipantsOf(s, id) <==> exists i :: 0 <= i < |outcomes| && outcomes[i].user == u)
  }

  lemma SettlementIsFresh(s: State, rd: Round, price: nat)
    requires Inv(s) && IsLive(s, rd)
    requires SettleRound(s.book, rd, Sort(ParticipantsOf(s, rd.id)), price, s.cfg).Ok?
    ensures Fresh(s, rd.id, SettleRound(s.book, rd, Sort(ParticipantsOf(s, rd.id)), price, s.cfg).value.outcomes)
  {
    SettlementFits(s, rd, price);
    SortKeepsMembers(ParticipantsOf(s, rd.id));
    StakesAreFresh(s, rd.id, Sort(ParticipantsOf(s, rd.id)),
      SettleRound(s.book, rd, Sort(ParticipantsOf(s, rd.id)), price, s.cfg).value.outcomes);
  }

  lemma StakesAreFresh(s: State, id: nat, users: seq<Address>, outcomes: seq<UserRoundOutcome>)
    requires OutcomesOk(s.outcomes, s.book, s.active, s.lastRoundId, s.now)
    requires Members(s.book, id, users) && OnePerStake(s.book, id, users, outcomes, Resolved)
    requires forall u :: u in users <==> u in ParticipantsOf(s, id)
    ensures Fresh(s, id, outcomes)
  {
    forall i | 0 <= i < |outcomes| ensures Key(id, outcomes[i].user) !in s.outcomes {
      assert users[i] in users;
    }
    forall u ensures u in ParticipantsOf(s, id) <==> exists i :: 0 <= i < |outcomes| && outcomes[i].user == u {
      if u in users { var i :| 0 <= i < |users| && users[i] == u; assert outcomes[i].user == u; }
      if i :| 0 <= i < |outcomes| && outcomes[i].user == u { assert users[i] == u; }
    }
  }

  /** A settlement adds exactly the recorded payout to each participant's pending winnings,
      and nothing to anybody else's. */
  lemma SettlementCredits(s: State, rd: Round, price: nat, u: Address)
    requires Inv(s) && IsLive(s, rd) && CompleteSettlement(s, rd, price).Ok?
    ensures var t := CompleteSettlement(s, rd, price).value;
            PendingOf(t.purse, u) - PendingOf(s.purse, u)
            == if u in ParticipantsOf(s, rd.id) then PayoutAt(t.outcomes, Key(rd.id, u)) else 0
  {
    SettlementIsFresh(s, rd, price);
    SettledPurse(s, rd, price, u);
  }

  lemma SettledPurse(s: State, rd: Round, price: nat, u: Address)
    requires CompleteSettlement(s, rd, price).Ok?
    requires Fresh(s, rd.id, SettleRound(s.book, rd, Sort(ParticipantsOf(s, rd.id)), price, s.cfg).value.outcomes)
    ensures var t := CompleteSettlement(s, rd, price).value;
            PendingOf(t.purse, u) - PendingOf(s.purse, u)
            == if u in ParticipantsOf(s, rd.id) then PayoutAt(t.outcomes, Key(rd.id, u)) else 0
  {
    var st, charged := CompleteChanges(s, rd, price);
    PurseAfter(s, CompleteSettlement(s, rd, price).value, rd.id, st.outcomes, u);
  }

  /** What the settlement computes for a participant is what is recorded, and the fee is what the
      treasury and the fund gain. */
  lemma RecordedAt(s: State, rd: Round, price: nat, i: nat)
    requires ValidConfig(s.cfg) && s.treasury >= 0 && s.fund >= 0 && CompleteSettlement(s, rd, price).Ok?
    requires var st := SettleRound(s.book, rd, Sort(ParticipantsOf(s, rd.id)), price, s.cfg).value;
             Fresh(s, rd.id, st.outcomes) && i < |st.outcomes| && st.fee >= 0
    ensures var st := SettleRound(s.book, rd, Sort(ParticipantsOf(s, rd.id)), price, s.cfg).value;
            var k := Key(rd.id, st.outcomes[i].user);
            var t := CompleteSettlement(s, rd, price).value;
            && k in t.outcomes && t.outcomes[k] == st.outcomes[i]
            && t.treasury + t.fund == s.treasury + s.fund + st.fee
  {
    var st, charged := CompleteChanges(s, rd, price);
    PersistAllAt(s.outcomes, rd.id, st.outcomes, i);
    FeeCollected(s, st.fee);
  }

  lemma PurseAfter(s: State, t: State, id: nat, outcomes: seq<UserRoundOutcome>, u: Address)
    requires AccumulateAll(s.purse, s.cfg.maxPending, s.now, Credits(outcomes)) == Ok(t.purse)
    requires t.outcomes == PersistAll(s.outcomes, id, outcomes) && Fresh(s, id, outcomes)
    ensures PendingOf(t.purse, u) - PendingOf(s.purse, u)
         == if u in ParticipantsOf(s, id) then PayoutAt(t.outcomes, Key(id, u)) else 0
  {
    OutcomesCredit(s.purse, s.cfg.maxPending, s.now, outcomes, id, s.outcomes, u);
  }

  // ----- stakes returned, user by user -----

  /** The stake of a participant, and nothing for anybody else. */
  function StakeIn(s: State, id: nat, u: Address): int {
    if u in ParticipantsOf(s, id) then StakeAt(s.book, Key(id, u)) else 0
  }

  lemma ReturnsCredit(b: Book, round: nat, users: seq<Address>, kind: OutcomeKind, outcomes: seq<UserRoundOutcome>, u: Address)
    requires AlignedReturns(b, round, users, kind, outcomes) && Distinct(users) && !kind.Loss?
    ensures CreditedTo(Credits(outcomes), u) == if u in users then StakeAt(b, Key(round, u)) else 0
  {
    if i :| 0 <= i < |users| && users[i] == u {
      OwnCredit(outcomes, i);
    } else {
      NothingForOthers(outcomes, u);
    }
  }

  /** Returning the stakes of a round adds to everybody's pending winnings exactly the own stake. */
  lemma PaidBack(s: State, rd: Round, kind: OutcomeKind, showPrice: bool, u: Address)
    requires Inv(s) && IsLive(s, rd) && !kind.Loss?
    requires PayOut(s, rd.id, Returns(s.book, rd, ParticipantsOf(s, rd.id), kind, showPrice)).Ok?
    ensures var t := PayOut(s, rd.id, Returns(s.book, rd, ParticipantsOf(s, rd.id), kind, showPrice)).value;
            PendingOf(t.purse, u) == PendingOf(s.purse, u) + StakeIn(s, rd.id, u)
  {
    var users := ParticipantsOf(s, rd.id);
    var outcomes := Returns(s.book, rd, users, kind, showPrice);
    ParticipantsAre(s, rd.id);
    ReturnsAligned(s.book, s.startLedgers, s.lastRoundId, rd, users, kind, showPrice);
    ReturnsCredit(s.book, rd.id, users, kind, outcomes, u);
    EachIsCredited(s.purse, s.cfg.maxPending, s.now, Credits(outcomes), u);
  }

  /** A voided round pays every participant exactly the own stake and nobody else anything. */
  lemma VoidCredits(s: State, id: nat, u: Address)
    requires Inv(s) && VoidRound(s, id).Ok?
    ensures PendingOf(VoidRound(s, id).value.purse, u) == PendingOf(s.purse, u) + StakeIn(s, id, u)
  {
    VoidIsRefund(s, id);
    PaidBack(s, s.disputes[id].round, Void, true, u);
  }

  /** So does a round that falls short of participants. */
  lemma FallbackCredits(s: State, rd: Round, price: nat, u: Address)
    requires Inv(s) && s.active == Some(rd) && SettleWithPrice(s, rd, price).Ok?
    requires s.cfg.minParticipants.Some? && |ParticipantsOf(s, rd.id)| < s.cfg.minParticipants.value
    ensures PendingOf(SettleWithPrice(s, rd, price).value.purse, u) == PendingOf(s.purse, u) + StakeIn(s, rd.id, u)
  {
    PaidBack(s, rd, Refund, false, u);
  }

  /** A cancelled round pays every participant the own stake and, when it is insured, at most
      the configured rate on that stake on top; nobody else gets anything. */
  lemma CancelCredits(s: State, reason: nat, u: Address)
    requires Inv(s) && s.minted <= I128_MAX && CancelRound(s, reason).Ok?
    ensures var stake := StakeIn(s, s.active.value.id, u);
            var extra := PendingOf(CancelRound(s, reason).value.purse, u) - PendingOf(s.purse, u) - stake;
            0 <= extra <= if Insured(s.cfg, reason) then Bps(stake, s.cfg.insuranceCoverageBps) else 0
  {
    var rd := s.active.value;
    var users := ParticipantsOf(s, rd.id);
    var outcomes := Returns(s.book, rd, users, Void, false);
    var paid := PayOut(s, rd.id, outcomes).value;
    var cover := CancelCover(s, users, StakesOf(outcomes), reason).value;
    CancelPays(s, reason);
    PaidBack(s, rd, Void, false, u);
    EachIsCredited(paid.purse, s.cfg.maxPending, s.now, cover.credits, u);
    assert CreditedTo(cover.credits, u) <= if u in users then Bps(StakeAt(s.book, Key(rd.id, u)), s.cfg.insuranceCoverageBps) else 0;
    assert Bps(0, s.cfg.insuranceCoverageBps) == 0;
  }
}
