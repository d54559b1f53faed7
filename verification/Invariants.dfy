/** What holds in every reachable state of the ledger, and why each entrypoint keeps it. */
module Invariants {
  import opened Types
  import opened Sums
  import opened Fees
  import opened Engine
  import opened Ledger
  import opened Books

  // ----- the invariant -----

  ghost predicate Solvent(s: State) {
    && (forall u :: u in s.balances ==> s.balances[u] >= 0)
    && PurseOk(s.purse)
    && s.treasury >= 0 && s.fund >= 0 && s.dust >= 0
  }

  /** Stakes are positive; a position excludes a prediction; a revealed commitment and its
      prediction agree on the amount. */
  ghost predicate StakesOk(b: Book) {
    && (forall k :: k in b.positions ==> b.positions[k].amount > 0 && k !in b.predictions && k !in b.commitments)
    && (forall k :: k in b.predictions ==> b.predictions[k].amount > 0)
    && (forall k :: k in b.commitments ==>
          b.commitments[k].amount > 0 && (b.commitments[k].revealed <==> k in b.predictions))
    && (forall k :: k in b.commitments && k in b.predictions ==> b.commitments[k].amount == b.predictions[k].amount)
  }

  /** Every participant list is free of duplicates and names exactly the users with a
      recorded stake in that round. */
  ghost predicate ListsOk(b: Book, participants: map<nat, seq<Address>>, last: nat) {
    && (forall r :: r in participants ==> 1 <= r <= last && Members(b, r, participants[r]))
    && (forall k :: InBook(b, k) ==> k.round in participants)
  }

  /** A live round: its cached pools are the sums of its positions, its stakes are of its
      own mode, and its start ledger names it. */
  ghost predicate RoundOk(b: Book, startLedgers: map<nat, nat>, last: nat, rd: Round) {
    && 1 <= rd.id <= last
    && rd.startLedger in startLedgers && startLedgers[rd.startLedger] == rd.id
    && rd.startLedger < rd.betEnd < rd.end
    && (rd.mode.UpDown? ==>
          && (forall k :: InBook(b, k) && k.round == rd.id ==> k in b.positions)
          && rd.poolUp == SumMap(SideRecorded(b, rd.id, Up))
          && rd.poolDown == SumMap(SideRecorded(b, rd.id, Down)))
    && (rd.mode.Precision? ==>
          && (forall k :: InBook(b, k) && k.round == rd.id ==> k !in b.positions)
          && rd.poolUp == 0 && rd.poolDown == 0)
  }

  predicate IsActive(active: Option<Round>, id: nat) {
    active.Some? && active.value.id == id
  }

  ghost predicate RoundsOk(b: Book, startLedgers: map<nat, nat>, last: nat, active: Option<Round>, disputes: map<nat, Dispute>) {
    && (active.Some? ==> RoundOk(b, startLedgers, last, active.value))
    && (forall id :: id in disputes ==>
          && disputes[id].round.id == id && !IsActive(active, id)
          && RoundOk(b, startLedgers, last, disputes[id].round))
  }

  /** Results are recorded for stakes that are gone, and in the active round only once
      betting is over. */
  ghost predicate OutcomesOk(outcomes: map<Key, UserRoundOutcome>, b: Book, active: Option<Round>, last: nat, now: nat) {
    forall k :: k in outcomes ==>
      && 1 <= k.round <= last && !InBook(b, k)
      && (IsActive(active, k.round) ==> now >= active.value.betEnd)
  }

  /** A start ledger lies in the past and names one round, and no round has two. */
  ghost predicate StartsOk(startLedgers: map<nat, nat>, last: nat, now: nat) {
    && (forall l :: l in startLedgers ==> l <= now && 1 <= startLedgers[l] <= last)
    && (forall l, m :: l in startLedgers && m in startLedgers && startLedgers[l] == startLedgers[m] ==> l == m)
  }

  predicate HasExited(exits: seq<Exit>, id: nat) {
    exists i :: 0 <= i < |exits| && exits[i].round == id
  }

  /** A round exits at most once, and then nothing of it is left. */
  ghost predicate ExitsOk(exits: seq<Exit>, participants: map<nat, seq<Address>>,
                          active: Option<Round>, disputes: map<nat, Dispute>, last: nat)
  {
    && (forall i, j :: 0 <= i < j < |exits| ==> exits[i].round != exits[j].round)
    && (forall id: nat :: HasExited(exits, id) ==>
          1 <= id <= last && id !in participants && !IsActive(active, id) && id !in disputes)
  }

  ghost predicate Structure(s: State) {
    && StakesOk(s.book)
    && ListsOk(s.book, s.participants, s.lastRoundId)
    && RoundsOk(s.book, s.startLedgers, s.lastRoundId, s.active, s.disputes)
    && OutcomesOk(s.outcomes, s.book, s.active, s.lastRoundId, s.now)
    && StartsOk(s.startLedgers, s.lastRoundId, s.now)
    && ExitsOk(s.exits, s.participants, s.active, s.disputes, s.lastRoundId)
  }

  /** Everything the ledger owes or holds, and what rounding has left over. */
  ghost function Total(s: State): int {
    SumMap(s.balances) + SumMap(s.purse.amounts) + s.treasury + s.fund + SumMap(Recorded(s.book)) + s.dust
  }

  ghost predicate Inv(s: State) {
    && ValidConfig(s.cfg)
    && Solvent(s)
    && Structure(s)
    && Total(s) == s.minted
  }

  lemma InitialInv(admin: Address, cfg: Config)
    requires ValidConfig(cfg)
    ensures Inv(Initial(admin, cfg))
  {
    var s := Initial(admin, cfg);
    assert s.balances.Keys == {} && s.purse.amounts.Keys == {} && Recorded(s.book).Keys == {};
  }

  // ----- reading the books of one round -----

  lemma ParticipantsAre(s: State, id: nat)
    requires ListsOk(s.book, s.participants, s.lastRoundId)
    ensures Members(s.book, id, ParticipantsOf(s, id))
  {
    assert id !in s.participants ==> forall k :: InBook(s.book, k) ==> k.round != id;
  }

  /** The recorded stakes of a round are what its settlement sees as the pot. */
  lemma PotIsRecorded(b: Book, startLedgers: map<nat, nat>, last: nat, rd: Round, users: seq<Address>)
    requires StakesOk(b) && RoundOk(b, startLedgers, last, rd) && Members(b, rd.id, users)
    ensures Pot(b, rd, users) == SumMap(RoundRecorded(b, rd.id))
    ensures rd.mode.UpDown? ==>
              && UpDownBooked(UpDownEntries(b, rd.id, users), rd.poolUp, rd.poolDown)
              && |UpDownEntries(b, rd.id, users)| == |users|
    ensures rd.mode.Precision? ==> PositivePrecision(PrecisionEntries(b, rd.id, users))
  {
    if rd.mode.UpDown? {
      UpDownRoundSums(b, rd.id, users);
      EntriesAligned(b, rd.id, users);
      SidesAddUp(UpDownEntries(b, rd.id, users));
    } else {
      PrecisionRoundSum(b, rd.id, users);
    }
  }

  ghost predicate AlignedReturns(b: Book, round: nat, users: seq<Address>, kind: OutcomeKind, outcomes: seq<UserRoundOutcome>) {
    && |outcomes| == |users|
    && forall i :: 0 <= i < |users| ==>
         && outcomes[i].user == users[i] && outcomes[i].kind == kind
         && outcomes[i].stake == outcomes[i].payout == StakeAt(b, Key(round, users[i]))
         && outcomes[i].payout > 0
  }

  lemma UpDownReturnsAligned(b: Book, round: nat, users: seq<Address>, kind: OutcomeKind)
    requires StakesOk(b) && forall u :: u in users ==> Key(round, u) in b.positions
    ensures AlignedReturns(b, round, users, kind, UpDownReturns(UpDownEntries(b, round, users), kind))
    ensures Payouts(UpDownReturns(UpDownEntries(b, round, users), kind)) == UpDownAmounts(UpDownEntries(b, round, users))
  {
    EntriesAligned(b, round, users);
  }

  lemma PrecisionReturnsAligned(b: Book, round: nat, users: seq<Address>, kind: OutcomeKind, showPrice: bool)
    requires StakesOk(b) && forall u :: u in users ==> InBook(b, Key(round, u)) && Key(round, u) !in b.positions
    ensures AlignedReturns(b, round, users, kind, PrecisionReturns(PrecisionEntries(b, round, users), kind, showPrice))
    ensures Payouts(PrecisionReturns(PrecisionEntries(b, round, users), kind, showPrice))
         == PrecisionAmounts(PrecisionEntries(b, round, users))
  {
  }

  /** Entry `i` of a refund is participant `i`, and returns exactly the recorded stake. */
  lemma ReturnsAligned(b: Book, startLedgers: map<nat, nat>, last: nat, rd: Round, users: seq<Address>,
                       kind: OutcomeKind, showPrice: bool)
    requires StakesOk(b) && RoundOk(b, startLedgers, last, rd) && Members(b, rd.id, users)
    ensures AlignedReturns(b, rd.id, users, kind, Returns(b, rd, users, kind, showPrice))
    ensures Paid(Returns(b, rd, users, kind, showPrice)) == Pot(b, rd, users)
  {
    if rd.mode.UpDown? {
      UpDownReturnsAligned(b, rd.id, users, kind);
      UpDownRoundSums(b, rd.id, users);
      SidesAddUp(UpDownEntries(b, rd.id, users));
    } else {
      PrecisionReturnsAligned(b, rd.id, users, kind, showPrice);
    }
  }

  // ----- structure: a round leaves -----

  /** `t` is `s` with round `id` closed, whatever was paid. */
  ghost predicate Leaves(s: State, t: State, id: nat, outcomes: seq<UserRoundOutcome>, status: ArchiveStatus) {
    && t.now == s.now && t.cfg == s.cfg && t.lastRoundId == s.lastRoundId && t.startLedgers == s.startLedgers
    && t.book == ClearUsers(s.book, id, ParticipantsOf(s, id))
    && t.participants == s.participants - {id}
    && t.outcomes == PersistAll(s.outcomes, id, outcomes)
    && t.exits == s.exits + [Exit(id, status)]
    && (t.active.None? || t.active == s.active) && !IsActive(t.active, id)
    && t.disputes == s.disputes - {id}
  }

  ghost predicate IsLive(s: State, rd: Round) {
    s.active == Some(rd) || (rd.id in s.disputes && s.disputes[rd.id].round == rd)
  }

  lemma LeavesBooks(b: Book, participants: map<nat, seq<Address>>, last: nat, id: nat, users: seq<Address>)
    requires StakesOk(b) && ListsOk(b, participants, last) && Members(b, id, users)
    ensures var c := ClearUsers(b, id, users);
            && StakesOk(c) && ListsOk(c, participants - {id}, last)
            && SumMap(Recorded(c)) == SumMap(Recorded(b)) - SumMap(RoundRecorded(b, id))
            && forall k :: InBook(c, k) <==> InBook(b, k) && k.round != id
  {
    var c := ClearUsers(b, id, users);
    ClearedSum(b, id, users);
    forall k ensures InBook(c, k) <==> InBook(b, k) && k.round != id {
      ClearedBook(b, id, users, k);
    }
  }

  lemma LeavesRounds(b: Book, startLedgers: map<nat, nat>, last: nat, id: nat, users: seq<Address>,
                     active: Option<Round>, disputes: map<nat, Dispute>, remaining: Option<Round>)
    requires Members(b, id, users) && RoundsOk(b, startLedgers, last, active, disputes)
    requires remaining.None? || remaining == active
    requires !IsActive(remaining, id)
    ensures RoundsOk(ClearUsers(b, id, users), startLedgers, last, remaining, disputes - {id})
  {
    if remaining.Some? {
      RoundStays(b, startLedgers, last, id, users, remaining.value);
    }
    forall r | r in disputes - {id}
      ensures RoundOk(ClearUsers(b, id, users), startLedgers, last, disputes[r].round)
    {
      RoundStays(b, startLedgers, last, id, users, disputes[r].round);
    }
  }

  lemma RoundStays(b: Book, startLedgers: map<nat, nat>, last: nat, id: nat, users: seq<Address>, rd: Round)
    requires Members(b, id, users) && rd.id != id && RoundOk(b, startLedgers, last, rd)
    ensures RoundOk(ClearUsers(b, id, users), startLedgers, last, rd)
  {
    ClearedSides(b, id, users, rd.id, Up);
    ClearedSides(b, id, users, rd.id, Down);
    forall k | InBook(ClearUsers(b, id, users), k) && k.round == rd.id
      ensures InBook(b, k) && (k in ClearUsers(b, id, users).positions <==> k in b.positions)
    {
      ClearedBook(b, id, users, k);
    }
  }

  lemma LeavesOutcomes(m: map<Key, UserRoundOutcome>, b: Book, c: Book, last: nat, now: nat, id: nat,
                       outcomes: seq<UserRoundOutcome>, active: Option<Round>, remaining: Option<Round>)
    requires OutcomesOk(m, b, active, last, now) && 1 <= id <= last
    requires forall k :: InBook(c, k) <==> InBook(b, k) && k.round != id
    requires remaining.None? || remaining == active
    requires !IsActive(remaining, id)
    ensures OutcomesOk(PersistAll(m, id, outcomes), c, remaining, last, now)
  {
    var r := PersistAll(m, id, outcomes);
    forall k | k in r
      ensures 1 <= k.round <= last && !InBook(c, k)
      ensures IsActive(remaining, k.round) ==> now >= remaining.value.betEnd
    {
      PersistAllKeys(m, id, outcomes, k);
    }
  }

  lemma LeavesExits(exits: seq<Exit>, participants: map<nat, seq<Address>>, active: Option<Round>, disputes: map<nat, Dispute>,
                    last: nat, id: nat, status: ArchiveStatus, remaining: Option<Round>)
    requires ExitsOk(exits, participants, active, disputes, last) && 1 <= id <= last
    requires IsActive(active, id) || id in disputes
    requires remaining.None? || remaining == active
    requires !IsActive(remaining, id)
    ensures ExitsOk(exits + [Exit(id, status)], participants - {id}, remaining, disputes - {id}, last)
  {
    var longer := exits + [Exit(id, status)];
    assert !HasExited(exits, id);
    forall x: nat | HasExited(longer, x)
      ensures 1 <= x <= last && x !in participants - {id} && !IsActive(remaining, x) && x !in disputes - {id}
    {
      var i :| 0 <= i < |longer| && longer[i].round == x;
      if i < |exits| { assert exits[i].round == x; assert HasExited(exits, x); }
    }
  }

  lemma LeavesStructure(s: State, t: State, id: nat, outcomes: seq<UserRoundOutcome>, status: ArchiveStatus)
    requires Structure(s) && Leaves(s, t, id, outcomes, status) && (IsActive(s.active, id) || id in s.disputes)
    ensures Structure(t)
    ensures SumMap(Recorded(t.book)) == SumMap(Recorded(s.book)) - SumMap(RoundRecorded(s.book, id))
  {
    var users := ParticipantsOf(s, id);
    ParticipantsAre(s, id);
    LeavesBooks(s.book, s.participants, s.lastRoundId, id, users);
    LeavesRounds(s.book, s.startLedgers, s.lastRoundId, id, users, s.active, s.disputes, t.active);
    LeavesOutcomes(s.outcomes, s.book, t.book, s.lastRoundId, s.now, id, outcomes, s.active, t.active);
    LeavesExits(s.exits, s.participants, s.active, s.disputes, s.lastRoundId, id, status, t.active);
  }

  /** A round that leaves takes exactly its own stakes, lists and markers with it. */
  lemma LeavesKeeps(s: State, t: State, id: nat, outcomes: seq<UserRoundOutcome>, status: ArchiveStatus)
    requires Inv(s) && Leaves(s, t, id, outcomes, status) && (IsActive(s.active, id) || id in s.disputes)
    requires Solvent(t) && t.minted == s.minted
    requires SumMap(t.balances) + SumMap(t.purse.amounts) + t.treasury + t.fund + t.dust
          == SumMap(s.balances) + SumMap(s.purse.amounts) + s.treasury + s.fund + s.dust + SumMap(RoundRecorded(s.book, id))
    ensures Inv(t)
  {
    LeavesStructure(s, t, id, outcomes, status);
  }

  // ----- structure: paying a round out -----

  ghost predicate Payable(outcomes: seq<UserRoundOutcome>) {
    forall i :: 0 <= i < |outcomes| ==>
      outcomes[i].payout >= 0 && (outcomes[i].kind.Loss? ==> outcomes[i].payout == 0)
  }

  lemma PayOutAdds(s: State, id: nat, outcomes: seq<UserRoundOutcome>)
    requires PurseOk(s.purse) && Payable(outcomes) && PayOut(s, id, outcomes).Ok?
    ensures var t := PayOut(s, id, outcomes).value;
            && t == s.(purse := t.purse, outcomes := PersistAll(s.outcomes, id, outcomes))
            && PurseOk(t.purse)
            && SumMap(t.purse.amounts) == SumMap(s.purse.amounts) + Paid(outcomes)
  {
    CreditsPay(outcomes);
    AccumulateAllAdds(s.purse, s.cfg.maxPending, s.now, Credits(outcomes));
  }

  predicate Competitive(rd: Round, price: nat) {
    rd.mode.UpDown? && rd.poolUp != 0 && rd.poolDown != 0 && price != rd.priceStart
  }

  /** Settling a round of the books: nothing is paid that was not staked, and only a
      competitive Up/Down round keeps anything back, less than one unit per winner. */
  lemma SettlementSums(b: Book, startLedgers: map<nat, nat>, last: nat, rd: Round, users: seq<Address>, price: nat, cfg: Config)
    requires StakesOk(b) && RoundOk(b, startLedgers, last, rd) && Members(b, rd.id, users) && ValidConfig(cfg)
    requires SettleRound(b, rd, users, price, cfg).Ok?
    ensures var st := SettleRound(b, rd, users, price, cfg).value;
            var kept := Pot(b, rd, users) - st.fee - Paid(st.outcomes);
            && st.fee >= 0 && Payable(st.outcomes) && |st.outcomes| == |users|
            && (forall i :: 0 <= i < |users| ==> st.outcomes[i].user == users[i])
            && 0 <= kept
            && (if Competitive(rd, price) then kept < CountWins(st.outcomes) else kept == 0)
  {
    PotIsRecorded(b, startLedgers, last, rd, users);
    if rd.mode.UpDown? {
      EntriesAligned(b, rd.id, users);
      UpDownSums(UpDownEntries(b, rd.id, users), rd, price, Terms(cfg));
    } else {
      PrecisionConserves(PrecisionEntries(b, rd.id, users), price, Terms(cfg), cfg.policy);
      NonNegativePayouts(SettleRound(b, rd, users, price, cfg).value.outcomes);
    }
  }

  lemma UpDownSums(es: seq<UpDownStake>, rd: Round, price: nat, terms: FeeTerms)
    requires UpDownBooked(es, rd.poolUp, rd.poolDown) && ValidFeeBps(terms.bps)
    requires SettleUpDown(es, rd.priceStart, price, rd.poolUp, rd.poolDown, terms).Ok? && rd.mode.UpDown?
    ensures var st := SettleUpDown(es, rd.priceStart, price, rd.poolUp, rd.poolDown, terms).value;
            var kept := rd.poolUp + rd.poolDown - st.fee - Paid(st.outcomes);
            && st.fee >= 0 && Payable(st.outcomes) && |st.outcomes| == |es|
            && (forall i :: 0 <= i < |es| ==> st.outcomes[i].user == es[i].user)
            && 0 <= kept
            && (if Competitive(rd, price) then kept < CountWins(st.outcomes) else kept == 0)
  {
    UpDownConserves(es, rd.priceStart, price, rd.poolUp, rd.poolDown, terms);
    BookedPools(es, rd.poolUp, rd.poolDown);
    NonNegativePayouts(SettleUpDown(es, rd.priceStart, price, rd.poolUp, rd.poolDown, terms).value.outcomes);
  }

  lemma NonNegativePayouts(outcomes: seq<UserRoundOutcome>)
    requires AllNonNegative(Payouts(outcomes))
    ensures forall i :: 0 <= i < |outcomes| ==> outcomes[i].payout >= 0
  {
    forall i | 0 <= i < |outcomes| ensures outcomes[i].payout >= 0 { assert Payouts(outcomes)[i] >= 0; }
  }

  // ----- the ways a round leaves -----

  lemma CompleteChanges(s: State, rd: Round, price: nat) returns (st: Settlement, charged: State)
    requires CompleteSettlement(s, rd, price).Ok?
    ensures SettleRound(s.book, rd, Sort(ParticipantsOf(s, rd.id)), price, s.cfg) == Ok(st)
    ensures CollectFee(s, st.fee) == Ok(charged) && PayOut(charged, rd.id, st.outcomes).Ok?
    ensures var t := CompleteSettlement(s, rd, price).value;
            && t.disputes == s.disputes
            && Leaves(s, t.(disputes := s.disputes - {rd.id}), rd.id, st.outcomes, Resolved)
            && t.balances == s.balances && t.minted == s.minted
            && t.treasury == charged.treasury && t.fund == charged.fund
            && t.purse == PayOut(charged, rd.id, st.outcomes).value.purse
            && t.dust == s.dust + Pot(s.book, rd, Sort(ParticipantsOf(s, rd.id))) - st.fee - Paid(st.outcomes)
  {
    st := SettleRound(s.book, rd, Sort(ParticipantsOf(s, rd.id)), price, s.cfg).value;
    charged := CollectFee(s, st.fee).value;
    FeeTouches(s, st.fee);
    PaidLeaves(s, charged, rd, st.outcomes, CompleteSettlement(s, rd, price).value);
  }

  lemma FeeTouches(s: State, fee: int)
    requires CollectFee(s, fee).Ok?
    ensures var t := CollectFee(s, fee).value; t == s.(treasury := t.treasury, fund := t.fund)
  {
  }

  lemma PaidLeaves(s: State, charged: State, rd: Round, outcomes: seq<UserRoundOutcome>, t: State)
    requires charged == s.(treasury := charged.treasury, fund := charged.fund) && PayOut(charged, rd.id, outcomes).Ok?
    requires t == CloseRound(PayOut(charged, rd.id, outcomes).value, rd.id, Resolved).(active := None, dust := t.dust)
    ensures t.disputes == s.disputes && t.balances == s.balances && t.minted == s.minted
    ensures Leaves(s, t.(disputes := s.disputes - {rd.id}), rd.id, outcomes, Resolved)
    ensures t.treasury == charged.treasury && t.fund == charged.fund
    ensures t.purse == PayOut(charged, rd.id, outcomes).value.purse
  {
  }

  lemma CompleteMoney(s: State, rd: Round, st: Settlement, charged: State, price: nat)
    requires Inv(s) && IsLive(s, rd)
    requires SettleRound(s.book, rd, Sort(ParticipantsOf(s, rd.id)), price, s.cfg) == Ok(st)
    requires CollectFee(s, st.fee) == Ok(charged) && PayOut(charged, rd.id, st.outcomes).Ok?
    ensures var paid := PayOut(charged, rd.id, st.outcomes).value;
            var kept := Pot(s.book, rd, Sort(ParticipantsOf(s, rd.id))) - st.fee - Paid(st.outcomes);
            && PurseOk(paid.purse) && charged.treasury >= 0 && charged.fund >= 0
            && (if Competitive(rd, price) then 0 <= kept < CountWins(st.outcomes) else kept == 0)
            && SumMap(paid.purse.amounts) + charged.treasury + charged.fund + kept
            == SumMap(s.purse.amounts) + s.treasury + s.fund + SumMap(RoundRecorded(s.book, rd.id))
  {
    var users := Sort(ParticipantsOf(s, rd.id));
    ParticipantsAre(s, rd.id);
    MembersSorted(s.book, rd.id, ParticipantsOf(s, rd.id));
    SettlementSums(s.book, s.startLedgers, s.lastRoundId, rd, users, price, s.cfg);
    FeeCollected(s, st.fee);
    PayOutAdds(charged, rd.id, st.outcomes);
    PotIsRecorded(s.book, s.startLedgers, s.lastRoundId, rd, users);
  }

  lemma CompleteKeeps(s: State, rd: Round, price: nat)
    requires Inv(s) && IsLive(s, rd) && CompleteSettlement(s, rd, price).Ok?
    ensures var t := CompleteSettlement(s, rd, price).value.(disputes := s.disputes - {rd.id});
            && Inv(t) && t.minted == s.minted
            && t.exits == s.exits + [Exit(rd.id, Resolved)]
    ensures rd.id !in s.disputes ==> Inv(CompleteSettlement(s, rd, price).value)
  {
    var st, charged := CompleteChanges(s, rd, price);
    CompleteMoney(s, rd, st, charged, price);
    var t := CompleteSettlement(s, rd, price).value;
    LeavesKeeps(s, t.(disputes := s.disputes - {rd.id}), rd.id, st.outcomes, Resolved);
    if rd.id !in s.disputes { assert s.disputes - {rd.id} == s.disputes; }
  }

  lemma RefundKeeps(s: State, rd: Round, kind: OutcomeKind, showPrice: bool, status: ArchiveStatus)
    requires Inv(s) && IsLive(s, rd) && !kind.Loss? && RefundRound(s, rd, kind, showPrice, status).Ok?
    ensures var t := RefundRound(s, rd, kind, showPrice, status).value;
            && t.minted == s.minted && t.dust == s.dust && t.exits == s.exits + [Exit(rd.id, status)]
            && Inv(t.(disputes := s.disputes - {rd.id}, active := if IsActive(s.active, rd.id) then None else s.active))
            && (rd.id !in s.disputes ==> Inv(t.(active := None)))
  {
    var users := ParticipantsOf(s, rd.id);
    ParticipantsAre(s, rd.id);
    var outcomes := Returns(s.book, rd, users, kind, showPrice);
    RefundMoney(s, rd, users, kind, showPrice);
    RefundLeaves(s, rd, outcomes, status);
    RefundIs(s, rd, kind, showPrice, status);
  }

  lemma RefundIs(s: State, rd: Round, kind: OutcomeKind, showPrice: bool, status: ArchiveStatus)
    requires RefundRound(s, rd, kind, showPrice, status).Ok?
    ensures var t := RefundRound(s, rd, kind, showPrice, status).value;
            && t.minted == s.minted && t.dust == s.dust && t.exits == s.exits + [Exit(rd.id, status)]
            && (s.active == Some(rd) && rd.id !in s.disputes ==>
                  t.(disputes := s.disputes - {rd.id}, active := None) == t.(active := None))
  {
    if rd.id !in s.disputes { assert s.disputes - {rd.id} == s.disputes; }
  }

  lemma RefundMoney(s: State, rd: Round, users: seq<Address>, kind: OutcomeKind, showPrice: bool)
    requires Inv(s) && IsLive(s, rd) && !kind.Loss? && Members(s.book, rd.id, users)
    requires PayOut(s, rd.id, Returns(s.book, rd, users, kind, showPrice)).Ok?
    ensures var purse := PayOut(s, rd.id, Returns(s.book, rd, users, kind, showPrice)).value.purse;
            && PurseOk(purse)
            && SumMap(purse.amounts) == SumMap(s.purse.amounts) + SumMap(RoundRecorded(s.book, rd.id))
  {
    ReturnsAligned(s.book, s.startLedgers, s.lastRoundId, rd, users, kind, showPrice);
    PotIsRecorded(s.book, s.startLedgers, s.lastRoundId, rd, users);
    PayOutAdds(s, rd.id, Returns(s.book, rd, users, kind, showPrice));
  }

  lemma RefundLeaves(s: State, rd: Round, outcomes: seq<UserRoundOutcome>, status: ArchiveStatus)
    requires Inv(s) && IsLive(s, rd) && PayOut(s, rd.id, outcomes).Ok?
    requires PurseOk(PayOut(s, rd.id, outcomes).value.purse)
    requires SumMap(PayOut(s, rd.id, outcomes).value.purse.amounts) == SumMap(s.purse.amounts) + SumMap(RoundRecorded(s.book, rd.id))
    ensures var t := CloseRound(PayOut(s, rd.id, outcomes).value, rd.id, status);
            Inv(t.(disputes := s.disputes - {rd.id}, active := if IsActive(s.active, rd.id) then None else s.active))
  {
    var t := CloseRound(PayOut(s, rd.id, outcomes).value, rd.id, status);
    LeavesKeeps(s, t.(disputes := s.disputes - {rd.id}, active := if IsActive(s.active, rd.id) then None else s.active),
                rd.id, outcomes, status);
  }
}
