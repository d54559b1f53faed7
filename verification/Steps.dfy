/** Every entrypoint keeps the invariant. */
module Steps {
  import opened Types
  import opened Arith
  import opened Sums
  import opened Engine
  import opened Ledger
  import opened Books
  import opened Invariants

  /** No account holds more than was ever minted. */
  lemma PartsBelowMinted(s: State)
    requires Inv(s)
    ensures 0 <= SumMap(s.balances) && 0 <= SumMap(s.purse.amounts) && 0 <= SumMap(Recorded(s.book))
    ensures SumMap(s.balances) + SumMap(s.purse.amounts) + s.treasury + s.fund + SumMap(Recorded(s.book)) <= s.minted
    ensures forall id :: 0 <= SumMap(RoundRecorded(s.book, id)) <= SumMap(Recorded(s.book))
    ensures forall u :: 0 <= BalanceOf(s, u) <= SumMap(s.balances)
    ensures forall u :: 0 <= PendingOf(s.purse, u) <= SumMap(s.purse.amounts)
  {
    SumMapNonNegative(s.balances);
    SumMapNonNegative(s.purse.amounts);
    forall k | k in Recorded(s.book) ensures Recorded(s.book)[k] >= 0 { }
    SumMapNonNegative(Recorded(s.book));
    forall id ensures 0 <= SumMap(RoundRecorded(s.book, id)) <= SumMap(Recorded(s.book)) {
      var part := RoundRecorded(s.book, id);
      SumMapNonNegative(part);
      SumMapNonNegative(Recorded(s.book) - part.Keys);
      SumMapMinus(Recorded(s.book), part);
    }
  }

  /** What the settlement and refund loops rely on when they read a round. */
  ghost predicate Readable(s: State, rd: Round) {
    var users := ParticipantsOf(s, rd.id);
    && InI128(s.fund) && Distinct(users)
    && (rd.mode.UpDown? ==> forall u :: u in users ==> Key(rd.id, u) in s.book.positions)
    && (rd.mode.Precision? ==>
          && PositivePrecision(PrecisionEntries(s.book, rd.id, users))
          && PositivePrecision(PrecisionEntries(s.book, rd.id, Sort(users))))
  }

  lemma LiveIsReadable(s: State, rd: Round)
    requires Inv(s) && s.minted <= I128_MAX && IsLive(s, rd)
    ensures Readable(s, rd)
  {
    PartsBelowMinted(s);
    ParticipantsAre(s, rd.id);
    var users := ParticipantsOf(s, rd.id);
    MembersSorted(s.book, rd.id, users);
    PotIsRecorded(s.book, s.startLedgers, s.lastRoundId, rd, users);
    PotIsRecorded(s.book, s.startLedgers, s.lastRoundId, rd, Sort(users));
  }

  // ----- cancelling, with insurance -----

  /** A coverage credit goes to a participant and stays within the rate on that stake. */
  ghost predicate Covered(b: Book, round: nat, users: seq<Address>, bps: nat, c: Credit) {
    exists i :: 0 <= i < |users| && c.user == users[i] && c.amount <= Bps(StakeAt(b, Key(round, users[i])), bps)
  }

  /** All the coverage credits of one user together stay within the rate on that user's
      stake, and nobody else gets any. */
  ghost predicate CoveredEach(b: Book, round: nat, users: seq<Address>, bps: nat, credits: seq<Credit>) {
    forall u: Address ::
      0 <= CreditedTo(credits, u) <= if u in users then Bps(StakeAt(b, Key(round, u)), bps) else 0
  }

  /** Coverage computed from an aligned stake list: out of the fund, less than one unit per
      participant lost, nobody covered beyond the rate on the own stake. */
  lemma CoverIsFair(s: State, round: nat, users: seq<Address>, outcomes: seq<UserRoundOutcome>, reason: nat)
    requires ValidConfig(s.cfg) && s.fund >= 0
    requires AlignedReturns(s.book, round, users, Void, outcomes) && Paid(outcomes) <= I128_MAX
    requires CancelCover(s, users, StakesOf(outcomes), reason).Ok?
    ensures var cover := CancelCover(s, users, StakesOf(outcomes), reason).value;
            && 0 <= cover.spent <= s.fund
            && AllNonNegative(Amounts(cover.credits))
            && 0 <= cover.spent - Sum(Amounts(cover.credits))
            && (if Insured(s.cfg, reason) && users != [] then cover.spent - Sum(Amounts(cover.credits)) < |users|
                else cover == Cover(0, []))
            && (forall c :: c in cover.credits ==> Covered(s.book, round, users, s.cfg.insuranceCoverageBps, c))
            && (Distinct(users) ==> CoveredEach(s.book, round, users, s.cfg.insuranceCoverageBps, cover.credits))
  {
    var bps := s.cfg.insuranceCoverageBps;
    var stakes := StakesOf(outcomes);
    assert stakes == Payouts(outcomes);
    CoverEach(s, round, users, outcomes, reason);
    if Insured(s.cfg, reason) {
      CoverageFair(users, stakes, bps, s.fund);
      forall c | c in Coverage(users, stakes, bps, s.fund).value.credits
        ensures Covered(s.book, round, users, bps, c)
      {
        var i :| 0 <= i < |users| && c.user == users[i] && c.amount <= Bps(stakes[i], bps);
      }
    }
  }

  lemma CoverEach(s: State, round: nat, users: seq<Address>, outcomes: seq<UserRoundOutcome>, reason: nat)
    requires ValidConfig(s.cfg) && s.fund >= 0
    requires AlignedReturns(s.book, round, users, Void, outcomes) && Paid(outcomes) <= I128_MAX
    requires CancelCover(s, users, StakesOf(outcomes), reason).Ok?
    ensures Distinct(users) ==>
              CoveredEach(s.book, round, users, s.cfg.insuranceCoverageBps, CancelCover(s, users, StakesOf(outcomes), reason).value.credits)
  {
    var bps, stakes := s.cfg.insuranceCoverageBps, StakesOf(outcomes);
    assert stakes == Payouts(outcomes);
    if Distinct(users) {
      if Insured(s.cfg, reason) { CoverageEach(users, stakes, bps, s.fund); }
      forall u: Address
        ensures 0 <= CreditedTo(CancelCover(s, users, stakes, reason).value.credits, u)
             <= if u in users then Bps(StakeAt(s.book, Key(round, u)), bps) else 0
      {
        if i :| 0 <= i < |users| && users[i] == u { BpsBounds(stakes[i], bps); }
      }
    }
  }

  /** What an insured cancellation pays: everybody gets the full stake, and on top of it at
      most the configured rate on the own stake, all of it out of the fund. */
  lemma CancelPays(s: State, reason: nat)
    requires Inv(s) && s.minted <= I128_MAX && CancelRound(s, reason).Ok?
    ensures var rd := s.active.value;
            var users := ParticipantsOf(s, rd.id);
            var outcomes := Returns(s.book, rd, users, Void, false);
            var cover := CancelCover(s, users, StakesOf(outcomes), reason).value;
            && AlignedReturns(s.book, rd.id, users, Void, outcomes)
            && Paid(outcomes) == SumMap(RoundRecorded(s.book, rd.id))
            && 0 <= cover.spent <= s.fund
            && AllNonNegative(Amounts(cover.credits))
            && 0 <= cover.spent - Sum(Amounts(cover.credits))
            && (if Insured(s.cfg, reason) && users != [] then cover.spent - Sum(Amounts(cover.credits)) < |users|
                else cover == Cover(0, []))
            && (forall c :: c in cover.credits ==> Covered(s.book, rd.id, users, s.cfg.insuranceCoverageBps, c))
            && CoveredEach(s.book, rd.id, users, s.cfg.insuranceCoverageBps, cover.credits)
  {
    var rd := s.active.value;
    var users := ParticipantsOf(s, rd.id);
    ParticipantsAre(s, rd.id);
    ReturnsAligned(s.book, s.startLedgers, s.lastRoundId, rd, users, Void, false);
    PotIsRecorded(s.book, s.startLedgers, s.lastRoundId, rd, users);
    PartsBelowMinted(s);
    CoverIsFair(s, rd.id, users, Returns(s.book, rd, users, Void, false), reason);
  }

  lemma CancelMoney(s: State, reason: nat)
    requires Inv(s) && s.minted <= I128_MAX && CancelRound(s, reason).Ok?
    ensures var t := CancelRound(s, reason).value;
            && Solvent(t)
            && SumMap(t.purse.amounts) + t.fund + t.dust
            == SumMap(s.purse.amounts) + s.fund + s.dust + SumMap(RoundRecorded(s.book, s.active.value.id))
  {
    CancelPays(s, reason);
    var rd := s.active.value;
    var users := ParticipantsOf(s, rd.id);
    var outcomes := Returns(s.book, rd, users, Void, false);
    PayOutAdds(s, rd.id, outcomes);
    var cover := CancelCover(s, users, StakesOf(outcomes), reason).value;
    AccumulateAllAdds(PayOut(s, rd.id, outcomes).value.purse, s.cfg.maxPending, s.now, cover.credits);
  }

  lemma CancelKeeps(s: State, reason: nat)
    requires Inv(s) && s.minted <= I128_MAX && CancelRound(s, reason).Ok?
    ensures Inv(CancelRound(s, reason).value)
  {
    CancelChanges(s, reason);
    CancelMoney(s, reason);
    var rd := s.active.value;
    LeavesKeeps(s, CancelRound(s, reason).value, rd.id, Returns(s.book, rd, ParticipantsOf(s, rd.id), Void, false), Cancelled);
  }

  lemma CancelChanges(s: State, reason: nat)
    requires CancelRound(s, reason).Ok? && s.active.Some? && s.active.value.id !in s.disputes
    ensures var t := CancelRound(s, reason).value;
            var rd := s.active.value;
            && Leaves(s, t, rd.id, Returns(s.book, rd, ParticipantsOf(s, rd.id), Void, false), Cancelled)
            && t.minted == s.minted && t.balances == s.balances && t.treasury == s.treasury
  {
    assert s.disputes - {s.active.value.id} == s.disputes;
  }

  // ----- resolving, voiding, finalizing -----

  /** Staging a result moves the round from active to disputed and nothing else. */
  lemma StagingKeeps(s: State, d: Dispute)
    requires Inv(s) && s.active == Some(d.round)
    ensures Inv(s.(active := None, disputes := s.disputes[d.round.id := d]))
  {
  }

  lemma SettleKeeps(s: State, rd: Round, price: nat)
    requires Inv(s) && s.active == Some(rd) && SettleWithPrice(s, rd, price).Ok?
    ensures Inv(SettleWithPrice(s, rd, price).value)
  {
    if s.cfg.minParticipants.Some? && |ParticipantsOf(s, rd.id)| < s.cfg.minParticipants.value {
      FallbackKeeps(s, rd, price);
    } else if s.cfg.disputeLedgers > 0 {
      StagedKeeps(s, rd, price);
    } else {
      CompleteKeeps(s, rd, price);
    }
  }

  lemma FallbackKeeps(s: State, rd: Round, price: nat)
    requires Inv(s) && s.active == Some(rd) && SettleWithPrice(s, rd, price).Ok?
    requires s.cfg.minParticipants.Some? && |ParticipantsOf(s, rd.id)| < s.cfg.minParticipants.value
    ensures Inv(SettleWithPrice(s, rd, price).value)
  {
    RefundKeeps(s, rd, Refund, false, FallbackRefund);
  }

  lemma StagedKeeps(s: State, rd: Round, price: nat)
    requires Inv(s) && s.active == Some(rd) && SettleWithPrice(s, rd, price).Ok? && s.cfg.disputeLedgers > 0
    requires s.cfg.minParticipants.Some? ==> |ParticipantsOf(s, rd.id)| >= s.cfg.minParticipants.value
    ensures Inv(SettleWithPrice(s, rd, price).value)
  {
    StagingKeeps(s, Dispute(rd, price, s.now + s.cfg.disputeLedgers));
  }

  lemma VoidKeeps(s: State, id: nat)
    requires Inv(s) && VoidRound(s, id).Ok?
    ensures Inv(VoidRound(s, id).value)
  {
    VoidIsRefund(s, id);
    RefundKeeps(s, s.disputes[id].round, Void, true, Voided);
  }

  lemma VoidIsRefund(s: State, id: nat)
    requires id in s.disputes && s.disputes[id].round.id == id && VoidRound(s, id).Ok?
    ensures var refunded := RefundRound(s, s.disputes[id].round, Void, true, Voided);
            && refunded.Ok? && refunded.value.active == s.active
            && VoidRound(s, id) == Ok(refunded.value.(disputes := s.disputes - {id}))
  {
    assert s.disputes[id].round.(id := id) == s.disputes[id].round;
  }

  lemma FinalizeKeeps(s: State, id: nat)
    requires Inv(s) && FinalizeRound(s, id).Ok?
    ensures Inv(FinalizeRound(s, id).value)
  {
    CompleteKeeps(s, s.disputes[id].round, s.disputes[id].price);
  }

  // ----- what smaller changes keep -----

  /** Lists and markers may change for the active round, or for a round newer than all. */
  lemma ExitsKept(exits: seq<Exit>, p: map<nat, seq<Address>>, q: map<nat, seq<Address>>,
                  active: Option<Round>, other: Option<Round>, disputes: map<nat, Dispute>, last: nat, newLast: nat)
    requires ExitsOk(exits, p, active, disputes, last) && last <= newLast
    requires forall id: nat :: id in q ==> id in p || IsActive(active, id)
    requires forall id: nat :: IsActive(other, id) ==> IsActive(active, id) || id > last
    ensures ExitsOk(exits, q, other, disputes, newLast)
  {
  }

  /** Rounds other than `id` do not see changes to the records of `id`. */
  lemma OtherRounds(b: Book, c: Book, startLedgers: map<nat, nat>, last: nat, active: Option<Round>,
                    disputes: map<nat, Dispute>, id: nat)
    requires RoundsOk(b, startLedgers, last, active, disputes) && id !in disputes
    requires forall k: Key :: k.round != id ==> (InBook(c, k) <==> InBook(b, k)) && (k in c.positions <==> k in b.positions)
    requires forall r, side :: r != id ==> SideRecorded(c, r, side) == SideRecorded(b, r, side)
    ensures forall r :: r in disputes ==> RoundOk(c, startLedgers, last, disputes[r].round)
  {
  }

  // ----- joining a round -----

  /** `c` is `b` with one more stake, recorded under a key that was free. */
  ghost predicate Recording(b: Book, c: Book, k: Key, amount: int) {
    && amount > 0 && !InBook(b, k) && InBook(c, k) && StakeAt(c, k) == amount
    && (forall j :: j != k ==>
          && (InBook(c, j) <==> InBook(b, j)) && (j in c.positions <==> j in b.positions)
          && StakeAt(c, j) == StakeAt(b, j))
    && (forall r, side :: r != k.round ==> SideRecorded(c, r, side) == SideRecorded(b, r, side))
  }

  lemma RecordingAdds(b: Book, c: Book, k: Key, amount: int)
    requires Recording(b, c, k, amount)
    ensures SumMap(Recorded(c)) == SumMap(Recorded(b)) + amount
  {
    assert Recorded(c) == Recorded(b)[k := amount];
    SumMapUpdate(Recorded(b), k, amount);
  }

  lemma JoinRounds(b: Book, c: Book, k: Key, amount: int, startLedgers: map<nat, nat>, last: nat,
                   active: Option<Round>, joined: Option<Round>, disputes: map<nat, Dispute>)
    requires RoundsOk(b, startLedgers, last, active, disputes) && Recording(b, c, k, amount)
    requires active.Some? && joined.Some? && joined.value.id == active.value.id == k.round
    requires RoundOk(c, startLedgers, last, joined.value)
    ensures RoundsOk(c, startLedgers, last, joined, disputes)
  {
    OtherRounds(b, c, startLedgers, last, active, disputes, k.round);
  }

  /** Before betting closes nobody has a result in the active round yet. */
  lemma JoinOutcomes(m: map<Key, UserRoundOutcome>, b: Book, c: Book, k: Key, amount: int,
                     active: Option<Round>, joined: Option<Round>, last: nat, now: nat)
    requires OutcomesOk(m, b, active, last, now) && Recording(b, c, k, amount)
    requires IsActive(active, k.round) && now < active.value.betEnd
    requires joined.Some? && joined.value.id == active.value.id
    ensures OutcomesOk(m, c, joined, last, now)
  {
    assert k !in m;
  }

  lemma JoinStructure(s: State, t: State, user: Address, amount: int)
    requires Structure(s) && s.active.Some? && t.active.Some? && t.active.value.id == s.active.value.id
    requires s.now < s.active.value.betEnd
    requires Recording(s.book, t.book, Key(s.active.value.id, user), amount)
    requires t == Join(s, s.active.value.id, user, amount).(book := t.book, active := t.active)
    requires StakesOk(t.book) && RoundOk(t.book, s.startLedgers, s.lastRoundId, t.active.value)
    ensures Structure(t)
  {
    var k := Key(s.active.value.id, user);
    JoinLists(s, t, k, amount);
    JoinRounds(s.book, t.book, k, amount, s.startLedgers, s.lastRoundId, s.active, t.active, s.disputes);
    JoinOutcomes(s.outcomes, s.book, t.book, k, amount, s.active, t.active, s.lastRoundId, s.now);
    ExitsKept(s.exits, s.participants, t.participants, s.active, t.active, s.disputes, s.lastRoundId, s.lastRoundId);
  }

  /** A user that joins the active round: the stake moves from the balance to the book and
      the participant list grows by one name. */
  lemma JoinKeeps(s: State, t: State, user: Address, amount: int)
    requires Inv(s) && s.active.Some? && t.active.Some? && t.active.value.id == s.active.value.id
    requires s.now < s.active.value.betEnd
    requires Recording(s.book, t.book, Key(s.active.value.id, user), amount) && amount <= BalanceOf(s, user)
    requires t == Join(s, s.active.value.id, user, amount).(book := t.book, active := t.active)
    requires StakesOk(t.book) && RoundOk(t.book, s.startLedgers, s.lastRoundId, t.active.value)
    ensures Inv(t)
  {
    JoinStructure(s, t, user, amount);
    JoinMoney(s, t, Key(s.active.value.id, user), amount);
  }

  lemma JoinMoney(s: State, t: State, k: Key, amount: int)
    requires Solvent(s) && Recording(s.book, t.book, k, amount) && amount <= BalanceOf(s, k.user)
    requires t == Join(s, k.round, k.user, amount).(book := t.book, active := t.active)
    ensures Solvent(t) && Total(t) == Total(s)
  {
    RecordingAdds(s.book, t.book, k, amount);
    SumMapUpdate(s.balances, k.user, BalanceOf(s, k.user) - amount);
  }

  lemma JoinLists(s: State, t: State, k: Key, amount: int)
    requires ListsOk(s.book, s.participants, s.lastRoundId) && 1 <= k.round <= s.lastRoundId
    requires Recording(s.book, t.book, k, amount)
    requires t.participants == s.participants[k.round := ParticipantsOf(s, k.round) + [k.user]]
    ensures ListsOk(t.book, t.participants, s.lastRoundId)
  {
    ParticipantsAre(s, k.round);
    var old_ := ParticipantsOf(s, k.round);
    assert k.user !in old_ by { assert k == Key(k.round, k.user); }
    forall r | r in t.participants ensures Members(t.book, r, t.participants[r]) {
      var users := t.participants[r];
      forall j | InBook(t.book, j) && j.round == r ensures j.user in users {
        if j == k { assert users[|old_|] == k.user; } else { assert InBook(s.book, j); }
      }
      forall u | u in users ensures InBook(t.book, Key(r, u)) {
        if Key(r, u) != k { assert InBook(s.book, Key(r, u)); }
      }
    }
    forall j | InBook(t.book, j) ensures j.round in t.participants {
      if j != k { assert InBook(s.book, j); }
    }
  }

  lemma BetKeeps(s: State, user: Address, amount: int, side: BetSide)
    requires Inv(s) && PlaceBet(s, user, amount, side).Ok?
    ensures Inv(PlaceBet(s, user, amount, side).value)
  {
    var t := PlaceBet(s, user, amount, side).value;
    var k := Key(s.active.value.id, user);
    BetRecords(s.book, t.book, k, amount, side);
    BetRound(s.book, t.book, k, amount, side);
    JoinKeeps(s, t, user, amount);
  }

  lemma BetRecords(b: Book, c: Book, k: Key, amount: int, side: BetSide)
    requires StakesOk(b) && !InBook(b, k) && amount > 0
    requires c == b.(positions := b.positions[k := UserPosition(amount, side)])
    ensures StakesOk(c) && Recording(b, c, k, amount)
  {
    assert forall r, x :: r != k.round ==> SideRecorded(c, r, x) == SideRecorded(b, r, x);
  }

  lemma BetRound(b: Book, c: Book, k: Key, amount: int, side: BetSide)
    requires k !in b.positions && c == b.(positions := b.positions[k := UserPosition(amount, side)])
    ensures SumMap(SideRecorded(c, k.round, side)) == SumMap(SideRecorded(b, k.round, side)) + amount
    ensures forall x :: x != side ==> SumMap(SideRecorded(c, k.round, x)) == SumMap(SideRecorded(b, k.round, x))
  {
    forall x: BetSide
      ensures SumMap(SideRecorded(c, k.round, x)) == SumMap(SideRecorded(b, k.round, x)) + if x == side then amount else 0
    {
      var v := if x == side then amount else 0;
      assert SideRecorded(c, k.round, x) == SideRecorded(b, k.round, x)[k := v];
      SumMapUpdate(SideRecorded(b, k.round, x), k, v);
    }
  }

  lemma PredictKeeps(s: State, user: Address, amount: int, price: nat)
    requires Inv(s) && PlacePrediction(s, user, amount, price).Ok?
    ensures Inv(PlacePrediction(s, user, amount, price).value)
  {
    var t := PlacePrediction(s, user, amount, price).value;
    PredictionRecords(s.book, t.book, Key(s.active.value.id, user), amount);
    JoinKeeps(s, t, user, amount);
  }

  lemma CommitKeeps(s: State, user: Address, hash: Digest, amount: int)
    requires Inv(s) && CommitPrediction(s, user, hash, amount).Ok?
    ensures Inv(CommitPrediction(s, user, hash, amount).value)
  {
    var t := CommitPrediction(s, user, hash, amount).value;
    PredictionRecords(s.book, t.book, Key(s.active.value.id, user), amount);
    JoinKeeps(s, t, user, amount);
  }

  lemma PredictionRecords(b: Book, c: Book, k: Key, amount: int)
    requires StakesOk(b) && !InBook(b, k) && amount > 0
    requires (exists p: PrecisionPrediction :: p.amount == amount && c == b.(predictions := b.predictions[k := p]))
          || (exists m: PrecisionCommitment :: m.amount == amount && !m.revealed && c == b.(commitments := b.commitments[k := m]))
    ensures StakesOk(c) && Recording(b, c, k, amount)
  {
    assert c.positions == b.positions;
    assert forall r, x :: SideRecorded(c, r, x) == SideRecorded(b, r, x);
  }

  /** Revealing changes no amount: the prediction carries the committed stake, counted once. */
  lemma RevealKeeps(s: State, user: Address, price: nat, salt: seq<nat>)
    requires Inv(s) && RevealPrediction(s, user, price, salt).Ok?
    ensures var t := RevealPrediction(s, user, price, salt).value;
            Inv(t) && Recorded(t.book) == Recorded(s.book)
  {
    var t := RevealPrediction(s, user, price, salt).value;
    var k := Key(s.active.value.id, user);
    RevealRecords(s.book, t.book, k, price);
    SameKeys(s, t);
  }

  /** Rewriting records without adding, dropping or revaluing any. */
  lemma SameKeys(s: State, t: State)
    requires Inv(s) && StakesOk(t.book) && t == s.(book := t.book) && t.book.positions == s.book.positions
    requires forall j :: InBook(t.book, j) <==> InBook(s.book, j)
    requires Recorded(t.book) == Recorded(s.book)
    requires forall r, side :: SideRecorded(t.book, r, side) == SideRecorded(s.book, r, side)
    ensures Inv(t)
  {
    SameKeysLists(s.book, t.book, s.participants, s.lastRoundId);
    SameKeysRounds(s.book, t.book, s.startLedgers, s.lastRoundId, s.active, s.disputes);
  }

  lemma SameKeysRounds(b: Book, c: Book, startLedgers: map<nat, nat>, last: nat, active: Option<Round>, disputes: map<nat, Dispute>)
    requires RoundsOk(b, startLedgers, last, active, disputes) && c.positions == b.positions
    requires forall j :: InBook(c, j) <==> InBook(b, j)
    requires forall r, side :: SideRecorded(c, r, side) == SideRecorded(b, r, side)
    ensures RoundsOk(c, startLedgers, last, active, disputes)
  {
  }

  lemma RevealRecords(b: Book, c: Book, k: Key, price: nat)
    requires StakesOk(b) && k in b.commitments && !b.commitments[k].revealed && k !in b.positions
    requires c == b.(commitments := b.commitments[k := b.commitments[k].(revealed := true)],
                     predictions := b.predictions[k := PrecisionPrediction(price, b.commitments[k].amount)])
    ensures StakesOk(c) && Recorded(c) == Recorded(b)
    ensures forall j :: InBook(c, j) <==> InBook(b, j)
    ensures forall r, side :: SideRecorded(c, r, side) == SideRecorded(b, r, side)
  {
    assert c.positions == b.positions;
    RevealedStakes(b, c, k, price);
  }

  lemma RevealedStakes(b: Book, c: Book, k: Key, price: nat)
    requires StakesOk(b) && k in b.commitments && !b.commitments[k].revealed && k !in b.positions
    requires c == b.(commitments := b.commitments[k := b.commitments[k].(revealed := true)],
                     predictions := b.predictions[k := PrecisionPrediction(price, b.commitments[k].amount)])
    ensures Recorded(c) == Recorded(b)
  {
    assert forall j :: StakeAt(c, j) == StakeAt(b, j);
    assert Recorded(c).Keys == Recorded(b).Keys;
  }

  lemma SameKeysLists(b: Book, c: Book, participants: map<nat, seq<Address>>, last: nat)
    requires ListsOk(b, participants, last) && forall j :: InBook(c, j) <==> InBook(b, j)
    ensures ListsOk(c, participants, last)
  {
  }

  // ----- cashing out early -----

  lemma {:induction false} WithoutDrops(users: seq<Address>, user: Address)
    requires Distinct(users)
    ensures Distinct(Without(users, user))
    ensures forall u :: u in Without(users, user) <==> u in users && u != user
  {
    if users != [] {
      var n := |users| - 1;
      WithoutDrops(users[..n], user);
      assert users[n] !in users[..n];
      assert forall u :: u in users <==> u in users[..n] || u == users[n];
    }
  }

  lemma CashOutKeeps(s: State, user: Address)
    requires Inv(s) && CashOutEarly(s, user).Ok?
    ensures Inv(CashOutEarly(s, user).value)
  {
    CashOutChanges(s, user);
    CashOutMoney(s, user);
    CashOutState(s, CashOutEarly(s, user).value, Key(s.active.value.id, user));
  }

  lemma CashOutChanges(s: State, user: Address)
    requires CashOutEarly(s, user).Ok?
    ensures s.active.Some? && s.active.value.mode.UpDown? && s.now >= s.active.value.betEnd
    ensures Key(s.active.value.id, user) in s.book.positions
    ensures var t := CashOutEarly(s, user).value;
            var k := Key(s.active.value.id, user);
            && t == s.(active := t.active, purse := t.purse, treasury := t.treasury, fund := t.fund,
                       outcomes := t.outcomes, book := t.book, participants := t.participants)
            && t.active.Some? && SmallerPool(s.active.value, t.active.value, s.book.positions[k])
            && t.book == s.book.(positions := s.book.positions - {k})
            && t.participants == s.participants[k.round := Without(ParticipantsOf(s, k.round), k.user)]
            && forall j :: j in t.outcomes ==> j == k || j in s.outcomes
  {
  }

  ghost predicate SmallerPool(rd: Round, left: Round, p: UserPosition) {
    left == if p.side.Up? then rd.(poolUp := rd.poolUp - p.amount) else rd.(poolDown := rd.poolDown - p.amount)
  }

  /** What a cash-out does to the books, apart from where the money goes. */
  lemma CashOutStructure(s: State, t: State, k: Key)
    requires Structure(s) && k in s.book.positions && IsActive(s.active, k.round)
    requires s.active.value.mode.UpDown? && s.now >= s.active.value.betEnd
    requires t.now == s.now && t.lastRoundId == s.lastRoundId && t.startLedgers == s.startLedgers
    requires t.disputes == s.disputes && t.exits == s.exits
    requires t.active.Some? && SmallerPool(s.active.value, t.active.value, s.book.positions[k])
    requires t.book == s.book.(positions := s.book.positions - {k})
    requires t.participants == s.participants[k.round := Without(ParticipantsOf(s, k.round), k.user)]
    requires forall j :: j in t.outcomes ==> j == k || j in s.outcomes
    ensures Structure(t)
  {
    CashOutBook(s.book, t.book, k);
    CashOutLists(s, t, k);
    CashOutRounds(s.book, t.book, k, s.startLedgers, s.lastRoundId, s.active.value, t.active.value, s.disputes);
    CashOutOutcomes(s, t, k);
    ExitsKept(s.exits, s.participants, t.participants, s.active, t.active, s.disputes, s.lastRoundId, s.lastRoundId);
  }

  lemma CashOutState(s: State, t: State, k: Key)
    requires Inv(s) && k in s.book.positions && IsActive(s.active, k.round)
    requires s.active.value.mode.UpDown? && s.now >= s.active.value.betEnd
    requires t == s.(active := t.active, purse := t.purse, treasury := t.treasury, fund := t.fund,
                     outcomes := t.outcomes, book := t.book, participants := t.participants)
    requires t.active.Some? && SmallerPool(s.active.value, t.active.value, s.book.positions[k])
    requires t.book == s.book.(positions := s.book.positions - {k})
    requires t.participants == s.participants[k.round := Without(ParticipantsOf(s, k.round), k.user)]
    requires forall j :: j in t.outcomes ==> j == k || j in s.outcomes
    requires Solvent(t)
    requires SumMap(t.purse.amounts) + t.treasury + t.fund
          == SumMap(s.purse.amounts) + s.treasury + s.fund + s.book.positions[k].amount
    ensures Inv(t)
  {
    CashOutStructure(s, t, k);
    CashOutBook(s.book, t.book, k);
  }

  lemma CashOutOutcomes(s: State, t: State, k: Key)
    requires OutcomesOk(s.outcomes, s.book, s.active, s.lastRoundId, s.now)
    requires IsActive(s.active, k.round) && 1 <= k.round <= s.lastRoundId && s.now >= s.active.value.betEnd
    requires t.active.Some? && t.active.value.id == s.active.value.id && t.active.value.betEnd == s.active.value.betEnd
    requires forall j :: InBook(t.book, j) ==> j != k && InBook(s.book, j)
    requires forall j :: j in t.outcomes ==> j == k || j in s.outcomes
    ensures OutcomesOk(t.outcomes, t.book, t.active, s.lastRoundId, s.now)
  {
  }

  /** The cash-out and the forfeited part are together the stake. */
  lemma CashOutMoney(s: State, user: Address)
    requires Inv(s) && CashOutEarly(s, user).Ok?
    ensures var t := CashOutEarly(s, user).value;
            var stake := s.book.positions[Key(s.active.value.id, user)].amount;
            && PurseOk(t.purse) && t.treasury >= 0 && t.fund >= 0
            && SumMap(t.purse.amounts) + t.treasury + t.fund == SumMap(s.purse.amounts) + s.treasury + s.fund + stake
  {
    var forfeit := CashOutSplit(s, user);
    CashOutParts(s, user, s.book.positions[Key(s.active.value.id, user)].amount, s.cfg.cashoutBps.value, forfeit);
  }

  lemma CashOutParts(s: State, user: Address, stake: int, bps: nat, forfeit: int)
    requires ValidConfig(s.cfg) && Solvent(s) && stake > 0 && bps <= BPS_DENOMINATOR && forfeit == Bps(stake, bps)
    requires CollectFee(s, forfeit).Ok?
    ensures 0 <= forfeit <= stake
    ensures var charged := CollectFee(s, forfeit).value;
            var purse := CashOutCredit(s.purse, s.cfg.maxPending, s.now, Credit(user, stake - forfeit));
            charged.treasury >= 0 && charged.fund >= 0 &&
            (purse.Ok? ==>
              && PurseOk(purse.value)
              && SumMap(purse.value.amounts) + charged.treasury + charged.fund == SumMap(s.purse.amounts) + s.treasury + s.fund + stake)
  {
    BpsBounds(stake, bps);
    FeeCollected(s, forfeit);
    if stake - forfeit > 0 && Accumulate(s.purse, s.cfg.maxPending, s.now, Credit(user, stake - forfeit)).Ok? {
      AccumulateAdds(s.purse, s.cfg.maxPending, s.now, Credit(user, stake - forfeit));
    }
  }

  lemma CashOutSplit(s: State, user: Address) returns (forfeit: int)
    requires CashOutEarly(s, user).Ok? && s.active.Some? && Key(s.active.value.id, user) in s.book.positions
    ensures s.cfg.cashoutBps.Some?
    ensures var t := CashOutEarly(s, user).value;
            var stake := s.book.positions[Key(s.active.value.id, user)].amount;
            && forfeit == Bps(stake, s.cfg.cashoutBps.value)
            && CollectFee(s, forfeit).Ok?
            && t.treasury == CollectFee(s, forfeit).value.treasury && t.fund == CollectFee(s, forfeit).value.fund
            && CashOutCredit(s.purse, s.cfg.maxPending, s.now, Credit(user, stake - forfeit)) == Ok(t.purse)
  {
    forfeit := Bps(s.book.positions[Key(s.active.value.id, user)].amount, s.cfg.cashoutBps.value);
  }

  lemma CashOutBook(b: Book, c: Book, k: Key)
    requires StakesOk(b) && k in b.positions && c == b.(positions := b.positions - {k})
    ensures StakesOk(c) && !InBook(c, k)
    ensures forall j :: j != k ==> (InBook(c, j) <==> InBook(b, j)) && (j in c.positions <==> j in b.positions)
    ensures SumMap(Recorded(c)) == SumMap(Recorded(b)) - b.positions[k].amount
  {
    assert Recorded(c) == Recorded(b) - {k};
    SumMapRemove(Recorded(b), k);
  }

  lemma CashOutLists(s: State, t: State, k: Key)
    requires ListsOk(s.book, s.participants, s.lastRoundId) && StakesOk(s.book) && k in s.book.positions
    requires t.book == s.book.(positions := s.book.positions - {k})
    requires t.participants == s.participants[k.round := Without(ParticipantsOf(s, k.round), k.user)]
    ensures ListsOk(t.book, t.participants, s.lastRoundId)
    ensures !InBook(t.book, k) && forall j :: j != k ==> (InBook(t.book, j) <==> InBook(s.book, j))
  {
    ParticipantsAre(s, k.round);
    WithoutDrops(ParticipantsOf(s, k.round), k.user);
    forall r | r in t.participants ensures Members(t.book, r, t.participants[r]) {
      forall u | u in t.participants[r] ensures InBook(t.book, Key(r, u)) {
        assert InBook(s.book, Key(r, u)) && Key(r, u) != k;
      }
    }
  }

  lemma CashOutSide(b: Book, c: Book, k: Key, side: BetSide)
    requires k in b.positions && c == b.(positions := b.positions - {k})
    ensures SumMap(SideRecorded(c, k.round, side))
         == SumMap(SideRecorded(b, k.round, side)) - if side == b.positions[k].side then b.positions[k].amount else 0
  {
    assert SideRecorded(c, k.round, side) == SideRecorded(b, k.round, side) - {k};
    SumMapRemove(SideRecorded(b, k.round, side), k);
  }

  lemma CashOutRounds(b: Book, c: Book, k: Key, startLedgers: map<nat, nat>, last: nat,
                      rd: Round, left: Round, disputes: map<nat, Dispute>)
    requires RoundsOk(b, startLedgers, last, Some(rd), disputes) && StakesOk(b)
    requires k.round == rd.id && k in b.positions && rd.mode.UpDown?
    requires c == b.(positions := b.positions - {k})
    requires forall j :: InBook(c, j) <==> j != k && InBook(b, j)
    requires SmallerPool(rd, left, b.positions[k])
    ensures RoundsOk(c, startLedgers, last, Some(left), disputes)
  {
    CashOutRound(b, c, k, startLedgers, last, rd, left);
    forall r, x | r != rd.id ensures SideRecorded(c, r, x) == SideRecorded(b, r, x) { }
    OtherRounds(b, c, startLedgers, last, Some(rd), disputes, rd.id);
  }

  lemma CashOutRound(b: Book, c: Book, k: Key, startLedgers: map<nat, nat>, last: nat, rd: Round, left: Round)
    requires RoundOk(b, startLedgers, last, rd) && StakesOk(b)
    requires k.round == rd.id && k in b.positions && rd.mode.UpDown?
    requires c == b.(positions := b.positions - {k})
    requires forall j :: InBook(c, j) <==> j != k && InBook(b, j)
    requires SmallerPool(rd, left, b.positions[k])
    ensures RoundOk(c, startLedgers, last, left)
  {
    CashOutSide(b, c, k, Up);
    CashOutSide(b, c, k, Down);
  }

  // ----- rounds and money -----

  lemma CreateKeeps(s: State, price: nat, mode: Option<nat>)
    requires Inv(s) && CreateRound(s, price, mode).Ok?
    ensures Inv(CreateRound(s, price, mode).value)
  {
    CreateChanges(s, price, mode);
    CreatedKeeps(s, CreateRound(s, price, mode).value);
  }

  /** `t` is `s` with a new round, numbered and started now. */
  ghost predicate Created(s: State, t: State) {
    && s.active.None? && t.active.Some? && s.now !in s.startLedgers
    && t == s.(active := t.active, lastRoundId := s.lastRoundId + 1, startLedgers := s.startLedgers[s.now := s.lastRoundId + 1])
    && t.active.value.id == s.lastRoundId + 1 && t.active.value.startLedger == s.now
    && t.active.value.poolUp == 0 && t.active.value.poolDown == 0
    && s.now < t.active.value.betEnd < t.active.value.end
  }

  lemma CreateChanges(s: State, price: nat, mode: Option<nat>)
    requires ValidConfig(s.cfg) && CreateRound(s, price, mode).Ok?
    ensures Created(s, CreateRound(s, price, mode).value)
  {
  }

  lemma CreatedKeeps(s: State, t: State)
    requires Inv(s) && Created(s, t)
    ensures Inv(t)
  {
    CreateRounds(s.book, s.participants, s.startLedgers, s.lastRoundId, t.active.value, s.disputes);
    CreateStarts(s.startLedgers, s.lastRoundId, s.now);
    CreateOutcomes(s.outcomes, s.book, s.lastRoundId, s.now, t.active);
    ExitsKept(s.exits, s.participants, s.participants, s.active, t.active, s.disputes, s.lastRoundId, t.lastRoundId);
  }

  lemma CreateStarts(startLedgers: map<nat, nat>, last: nat, now: nat)
    requires StartsOk(startLedgers, last, now) && now !in startLedgers
    ensures StartsOk(startLedgers[now := last + 1], last + 1, now)
  {
  }

  lemma CreateOutcomes(m: map<Key, UserRoundOutcome>, b: Book, last: nat, now: nat, created: Option<Round>)
    requires OutcomesOk(m, b, None, last, now) && created.Some? && created.value.id == last + 1
    ensures OutcomesOk(m, b, created, last + 1, now)
  {
  }

  /** A new round starts with nothing in the books. */
  lemma CreateRounds(b: Book, participants: map<nat, seq<Address>>, startLedgers: map<nat, nat>, last: nat,
                     rd: Round, disputes: map<nat, Dispute>)
    requires ListsOk(b, participants, last) && RoundsOk(b, startLedgers, last, None, disputes)
    requires rd.id == last + 1 && rd.startLedger !in startLedgers && rd.poolUp == 0 && rd.poolDown == 0
    requires rd.startLedger < rd.betEnd < rd.end
    ensures ListsOk(b, participants, rd.id)
    ensures RoundsOk(b, startLedgers[rd.startLedger := rd.id], rd.id, Some(rd), disputes)
  {
    assert forall k :: InBook(b, k) ==> k.round != rd.id;
    assert SideRecorded(b, rd.id, Up).Keys == {} && SideRecorded(b, rd.id, Down).Keys == {};
  }

  /** Moving money between accounts, with nothing else touched, only has to keep the total. */
  lemma MoneyMoves(s: State, t: State)
    requires Inv(s) && ValidConfig(t.cfg) && Solvent(t) && t.now >= s.now
    requires t == s.(now := t.now, cfg := t.cfg, balances := t.balances, purse := t.purse,
                     treasury := t.treasury, fund := t.fund, minted := t.minted)
    requires SumMap(t.balances) + SumMap(t.purse.amounts) + t.treasury + t.fund - t.minted
          == SumMap(s.balances) + SumMap(s.purse.amounts) + s.treasury + s.fund - s.minted
    ensures Inv(t)
  {
  }

  lemma ClockKeeps(s: State, ledgers: nat)
    requires Inv(s)
    ensures Inv(s.(now := s.now + ledgers))
  {
    MoneyMoves(s, s.(now := s.now + ledgers));
  }

  lemma ConfigKeeps(s: State, cfg: Config)
    requires Inv(s) && ValidConfig(cfg)
    ensures Inv(s.(cfg := cfg))
  {
    MoneyMoves(s, s.(cfg := cfg));
  }

  lemma MintKeeps(s: State, user: Address, allowed: bool)
    requires Inv(s) && Mint(s, user, allowed).Ok?
    ensures Inv(Mint(s, user, allowed).value)
  {
    SumMapUpdate(s.balances, user, INITIAL_MINT);
    MoneyMoves(s, Mint(s, user, allowed).value);
  }

  lemma ClaimOneKeeps(s: State, user: Address)
    requires Inv(s) && ClaimOne(s, user).Ok?
    ensures Inv(ClaimOne(s, user).value.0)
  {
    var t := ClaimOne(s, user).value.0;
    if PendingOf(s.purse, user) != 0 {
      SumMapRemove(s.purse.amounts, user);
      SumMapUpdate(s.balances, user, t.balances[user]);
    }
    MoneyMoves(s, t);
  }

  lemma {:induction false} ClaimAllKeeps(s: State, users: seq<Address>)
    requires Inv(s) && ClaimAll(s, users).Ok?
    ensures Inv(ClaimAll(s, users).value.0)
  {
    if users != [] {
      ClaimAllKeeps(s, users[..|users| - 1]);
      ClaimOneKeeps(ClaimAll(s, users[..|users| - 1]).value.0, users[|users| - 1]);
    }
  }

  lemma WithdrawFeeKeeps(s: State, who: Address, amount: int)
    requires Inv(s) && WithdrawFee(s, who, amount).Ok?
    ensures Inv(WithdrawFee(s, who, amount).value)
  {
    SumMapUpdate(s.balances, who, BalanceOf(s, who) + amount);
    MoneyMoves(s, WithdrawFee(s, who, amount).value);
  }

  lemma WithdrawInsuranceKeeps(s: State, who: Address, amount: int)
    requires Inv(s) && WithdrawInsurance(s, who, amount).Ok?
    ensures Inv(WithdrawInsurance(s, who, amount).value)
  {
    SumMapUpdate(s.balances, who, BalanceOf(s, who) + amount);
    MoneyMoves(s, WithdrawInsurance(s, who, amount).value);
  }

  lemma TopUpKeeps(s: State, amount: int)
    requires Inv(s) && TopUpInsurance(s, amount).Ok?
    ensures Inv(TopUpInsurance(s, amount).value)
  {
    SumMapUpdate(s.balances, s.cfg.admin, BalanceOf(s, s.cfg.admin) - amount);
    MoneyMoves(s, TopUpInsurance(s, amount).value);
  }

  lemma ReclaimKeeps(s: State, user: Address)
    requires Inv(s) && ReclaimExpired(s, user).Ok?
    ensures Inv(ReclaimExpired(s, user).value)
  {
    SumMapRemove(s.purse.amounts, user);
    SumMapUpdate(s.balances, s.cfg.admin, BalanceOf(s, s.cfg.admin) + PendingOf(s.purse, user));
    MoneyMoves(s, ReclaimExpired(s, user).value);
  }

  lemma MoneyStepKeeps(s: State, c: Command)
    requires Inv(s) && Step(s, c).Ok?
    requires c.DoClaim? || c.DoClaimMany? || c.DoWithdrawFee? || c.DoTopUp? || c.DoWithdrawInsurance? || c.DoReclaim?
    ensures Inv(Step(s, c).value)
  {
    match c
    case DoClaim(user) => ClaimOneKeeps(s, user);
    case DoClaimMany(users) => ClaimAllKeeps(s, users);
    case DoWithdrawFee(who, amount) => WithdrawFeeKeeps(s, who, amount);
    case DoTopUp(amount) => TopUpKeeps(s, amount);
    case DoWithdrawInsurance(who, amount) => WithdrawInsuranceKeeps(s, who, amount);
    case DoReclaim(user) => ReclaimKeeps(s, user);
  }

  lemma SetupStepKeeps(s: State, c: Command)
    requires Inv(s) && Step(s, c).Ok?
    requires c.Advance? || c.Configure? || c.DoMint? || c.DoCreate?
    ensures Inv(Step(s, c).value)
  {
    match c
    case Advance(ledgers) => ClockKeeps(s, ledgers);
    case Configure(cfg) => ConfigKeeps(s, cfg);
    case DoMint(user, allowed) => MintKeeps(s, user, allowed);
    case DoCreate(price, mode) => CreateKeeps(s, price, mode);
  }

  lemma StakeStepKeeps(s: State, c: Command)
    requires Inv(s) && Step(s, c).Ok?
    requires c.DoBet? || c.DoPredict? || c.DoCommit? || c.DoReveal? || c.DoCashOut?
    ensures Inv(Step(s, c).value)
  {
    match c
    case DoBet(user, amount, side) => BetKeeps(s, user, amount, side);
    case DoPredict(user, amount, price) => PredictKeeps(s, user, amount, price);
    case DoCommit(user, hash, amount) => CommitKeeps(s, user, hash, amount);
    case DoReveal(user, price, salt) => RevealKeeps(s, user, price, salt);
    case DoCashOut(user) => CashOutKeeps(s, user);
  }

  lemma EndStepKeeps(s: State, c: Command)
    requires Inv(s) && s.minted <= I128_MAX && Step(s, c).Ok?
    requires c.DoCancel? || c.DoResolve? || c.DoVoid? || c.DoFinalize?
    ensures Inv(Step(s, c).value)
  {
    match c
    case DoCancel(reason) => CancelKeeps(s, reason);
    case DoResolve(price, start, ok) => SettleKeeps(s, s.active.value, price);
    case DoVoid(id) => VoidKeeps(s, id);
    case DoFinalize(id) => FinalizeKeeps(s, id);
  }

  /** Every committed step of every entrypoint keeps the invariant. */
  lemma StepKeeps(s: State, c: Command)
    requires Inv(s) && s.minted <= I128_MAX && Step(s, c).Ok?
    ensures Inv(Step(s, c).value)
  {
    if c.Advance? || c.Configure? || c.DoMint? || c.DoCreate? {
      SetupStepKeeps(s, c);
    } else if c.DoBet? || c.DoPredict? || c.DoCommit? || c.DoReveal? || c.DoCashOut? {
      StakeStepKeeps(s, c);
    } else if c.DoCancel? || c.DoResolve? || c.DoVoid? || c.DoFinalize? {
      EndStepKeeps(s, c);
    } else {
      MoneyStepKeeps(s, c);
    }
  }
}
