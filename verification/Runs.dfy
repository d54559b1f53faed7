/** Theorems about whole runs of the ledger: conservation, settling once, binding of oracle
    payloads, arithmetic safety. */
module Runs {
  import opened Types
  import opened Sums
  import opened Engine
  import opened Ledger
  import opened Books
  import opened Invariants
  import opened Steps

  // ----- the shapes a step can have -----

  /** Nothing begins or ends, and only the active round's books may change. */
  ghost predicate Quiet(s: State, t: State) {
    && t.lastRoundId == s.lastRoundId && t.startLedgers == s.startLedgers
    && t.exits == s.exits && t.disputes == s.disputes && t.dust == s.dust
    && s.minted <= t.minted && s.now <= t.now
    && t.active.Some? == s.active.Some? && (s.active.Some? ==> t.active.value.id == s.active.value.id)
    && (forall k: Key :: !IsActive(s.active, k.round) ==>
          (InBook(t.book, k) <==> InBook(s.book, k)) && StakeAt(t.book, k) == StakeAt(s.book, k))
  }

  ghost predicate Begins(s: State, t: State) {
    && s.active.None? && s.now !in s.startLedgers
    && t == s.(active := t.active, lastRoundId := s.lastRoundId + 1, startLedgers := s.startLedgers[s.now := s.lastRoundId + 1])
    && IsActive(t.active, s.lastRoundId + 1) && t.active.value.startLedger == s.now
  }

  ghost predicate Stages(s: State, t: State) {
    && s.active.Some?
    && t == s.(active := None, disputes := t.disputes)
    && t.disputes.Keys == s.disputes.Keys + {s.active.value.id}
  }

  /** The only ways out: an oracle result (at once or finalized), too few participants, an
      administrator's cancellation, or a void during the dispute window. */
  predicate LeavesBy(s: State, c: Command, e: Exit) {
    || (e.status.Cancelled? && c.DoCancel? && IsActive(s.active, e.round))
    || (e.status.FallbackRefund? && c.DoResolve? && IsActive(s.active, e.round))
    || (e.status.Resolved? && c.DoResolve? && IsActive(s.active, e.round))
    || (e.status.Resolved? && c.DoFinalize? && c.id == e.round && e.round in s.disputes && s.now >= s.disputes[e.round].deadline)
    || (e.status.Voided? && c.DoVoid? && c.id == e.round && e.round in s.disputes && s.now < s.disputes[e.round].deadline)
  }

  ghost predicate Ends(s: State, t: State, c: Command, e: Exit) {
    && LeavesBy(s, c, e)
    && (exists outcomes :: Leaves(s, t, e.round, outcomes, e.status))
    && t.minted == s.minted
    && t.active == if c.DoVoid? then s.active else None
  }

  ghost predicate Shaped(s: State, t: State, c: Command) {
    || (Quiet(s, t) && !c.DoFinalize?)
    || (Begins(s, t) && c.DoCreate?)
    || (Stages(s, t) && c.DoResolve?)
    || (exists e :: Ends(s, t, c, e))
  }

  lemma {:induction false} ClaimAllMoves(s: State, users: seq<Address>)
    requires ClaimAll(s, users).Ok?
    ensures var t := ClaimAll(s, users).value.0;
            t == s.(purse := t.purse, balances := t.balances)
  {
    if users != [] { ClaimAllMoves(s, users[..|users| - 1]); }
  }

  predicate IsStaking(c: Command) {
    c.DoBet? || c.DoPredict? || c.DoCommit? || c.DoReveal? || c.DoCashOut?
  }

  predicate IsEnding(c: Command) {
    c.DoCancel? || c.DoResolve? || c.DoVoid? || c.DoFinalize?
  }

  lemma StepShape(s: State, c: Command)
    requires Inv(s) && Step(s, c).Ok?
    ensures Shaped(s, Step(s, c).value, c)
  {
    if IsStaking(c) {
      StakingShape(s, c);
    } else if IsEnding(c) {
      EndingShape(s, c);
    } else if c.DoClaimMany? {
      ClaimManyShape(s, c.users);
    } else {
      MoneyShape(s, c);
    }
  }

  lemma ClaimManyShape(s: State, users: seq<Address>)
    requires ClaimMany(s, users).Ok?
    ensures Quiet(s, ClaimMany(s, users).value.0)
  {
    ClaimAllMoves(s, users);
  }

  lemma MoneyShape(s: State, c: Command)
    requires Step(s, c).Ok? && !IsStaking(c) && !IsEnding(c) && !c.DoClaimMany?
    ensures if c.DoCreate? then Begins(s, Step(s, c).value) else Quiet(s, Step(s, c).value)
  {
    if c.DoCreate? {
      CreateShape(s, c.price, c.mode);
    } else {
      MoneyIsQuiet(s, c);
    }
  }

  lemma CreateShape(s: State, price: nat, mode: Option<nat>)
    requires CreateRound(s, price, mode).Ok?
    ensures Begins(s, CreateRound(s, price, mode).value)
  {
  }

  lemma MoneyIsQuiet(s: State, c: Command)
    requires Step(s, c).Ok? && !IsStaking(c) && !IsEnding(c) && !c.DoClaimMany? && !c.DoCreate?
    ensures Quiet(s, Step(s, c).value)
  {
  }

  lemma StakingShape(s: State, c: Command)
    requires Inv(s) && Step(s, c).Ok? && IsStaking(c)
    ensures Quiet(s, Step(s, c).value)
  {
    match c
    case DoBet(user, amount, side) => BetShape(s, user, amount, side);
    case DoPredict(user, amount, price) => PredictShape(s, user, amount, price);
    case DoCommit(user, hash, amount) => CommitShape(s, user, hash, amount);
    case DoReveal(user, price, salt) => RevealShape(s, user, price, salt);
    case DoCashOut(user) => CashOutShape(s, user);
  }

  lemma BetShape(s: State, user: Address, amount: int, side: BetSide)
    requires PlaceBet(s, user, amount, side).Ok?
    ensures Quiet(s, PlaceBet(s, user, amount, side).value)
  {
  }

  lemma PredictShape(s: State, user: Address, amount: int, price: nat)
    requires PlacePrediction(s, user, amount, price).Ok?
    ensures Quiet(s, PlacePrediction(s, user, amount, price).value)
  {
  }

  lemma CommitShape(s: State, user: Address, hash: Digest, amount: int)
    requires CommitPrediction(s, user, hash, amount).Ok?
    ensures Quiet(s, CommitPrediction(s, user, hash, amount).value)
  {
  }

  lemma RevealShape(s: State, user: Address, price: nat, salt: seq<nat>)
    requires RevealPrediction(s, user, price, salt).Ok?
    ensures Quiet(s, RevealPrediction(s, user, price, salt).value)
  {
  }

  lemma CashOutShape(s: State, user: Address)
    requires CashOutEarly(s, user).Ok?
    ensures Quiet(s, CashOutEarly(s, user).value)
  {
    CashOutChanges(s, user);
  }

  lemma EndingShape(s: State, c: Command)
    requires Inv(s) && Step(s, c).Ok? && IsEnding(c)
    ensures (Stages(s, Step(s, c).value) && c.DoResolve?) || exists e :: Ends(s, Step(s, c).value, c, e)
  {
    match c
    case DoCancel(reason) => CancelShape(s, reason);
    case DoResolve(price, start, ok) => ResolveShape(s, c, s.active.value, price);
    case DoVoid(id) => VoidShape(s, id);
    case DoFinalize(id) => FinalizeShape(s, id);
  }

  lemma CancelShape(s: State, reason: nat)
    requires Inv(s) && CancelRound(s, reason).Ok?
    ensures Ends(s, CancelRound(s, reason).value, DoCancel(reason), Exit(s.active.value.id, Cancelled))
  {
    CancelChanges(s, reason);
  }

  lemma FinalizeShape(s: State, id: nat)
    requires Inv(s) && FinalizeRound(s, id).Ok?
    ensures Ends(s, FinalizeRound(s, id).value, DoFinalize(id), Exit(id, Resolved))
  {
    var st, charged := CompleteChanges(s, s.disputes[id].round, s.disputes[id].price);
    assert Leaves(s, FinalizeRound(s, id).value, id, st.outcomes, Resolved);
  }

  lemma VoidShape(s: State, id: nat)
    requires Inv(s) && VoidRound(s, id).Ok?
    ensures Ends(s, VoidRound(s, id).value, DoVoid(id), Exit(id, Voided))
  {
    VoidIsRefund(s, id);
    assert Leaves(s, VoidRound(s, id).value, id,
                  Returns(s.book, s.disputes[id].round, ParticipantsOf(s, id), Void, true), Voided);
  }

  lemma ResolveShape(s: State, c: Command, rd: Round, price: nat)
    requires Inv(s) && s.active == Some(rd) && SettleWithPrice(s, rd, price).Ok? && c.DoResolve?
    ensures var t := SettleWithPrice(s, rd, price).value;
            Stages(s, t) || exists e :: Ends(s, t, c, e)
  {
    if s.cfg.minParticipants.Some? && |ParticipantsOf(s, rd.id)| < s.cfg.minParticipants.value {
      FallbackLeaves(s, rd, price);
      assert Ends(s, SettleWithPrice(s, rd, price).value, c, Exit(rd.id, FallbackRefund));
    } else if s.cfg.disputeLedgers == 0 {
      SettledLeaves(s, rd, price);
      assert Ends(s, SettleWithPrice(s, rd, price).value, c, Exit(rd.id, Resolved));
    } else {
      StagedShape(s, rd, price);
    }
  }

  lemma FallbackLeaves(s: State, rd: Round, price: nat)
    requires s.active == Some(rd) && rd.id !in s.disputes && SettleWithPrice(s, rd, price).Ok?
    requires s.cfg.minParticipants.Some? && |ParticipantsOf(s, rd.id)| < s.cfg.minParticipants.value
    ensures var t := SettleWithPrice(s, rd, price).value;
            && Leaves(s, t, rd.id, Returns(s.book, rd, ParticipantsOf(s, rd.id), Refund, false), FallbackRefund)
            && t.minted == s.minted && t.active == None
  {
    assert s.disputes - {rd.id} == s.disputes;
  }

  lemma SettledLeaves(s: State, rd: Round, price: nat)
    requires s.active == Some(rd) && rd.id !in s.disputes && CompleteSettlement(s, rd, price).Ok?
    ensures var t := CompleteSettlement(s, rd, price).value;
            && (exists outcomes :: Leaves(s, t, rd.id, outcomes, Resolved))
            && t.minted == s.minted && t.active == None
  {
    var st, charged := CompleteChanges(s, rd, price);
    assert s.disputes - {rd.id} == s.disputes;
    var t := CompleteSettlement(s, rd, price).value;
    assert t.(disputes := s.disputes - {rd.id}) == t;
  }

  lemma StagedShape(s: State, rd: Round, price: nat)
    requires s.active == Some(rd) && SettleWithPrice(s, rd, price).Ok? && s.cfg.disputeLedgers > 0
    requires s.cfg.minParticipants.Some? ==> |ParticipantsOf(s, rd.id)| >= s.cfg.minParticipants.value
    ensures Stages(s, SettleWithPrice(s, rd, price).value)
  {
  }

  // ----- the invariant over runs -----

  /** Only minting mints, and then one allowance for a user who has no balance yet. */
  lemma MintedGrows(s: State, c: Command)
    requires Step(s, c).Ok?
    ensures Step(s, c).value.minted == s.minted + if c.DoMint? && c.user !in s.balances then INITIAL_MINT else 0
  {
    if IsStaking(c) {
      StakingMints(s, c);
    } else if IsEnding(c) {
      EndingMints(s, c);
    } else if c.DoClaimMany? {
      ClaimAllMoves(s, c.users);
    } else {
      MoneyMints(s, c);
    }
  }

  lemma MoneyMints(s: State, c: Command)
    requires Step(s, c).Ok? && !IsStaking(c) && !IsEnding(c) && !c.DoClaimMany?
    ensures Step(s, c).value.minted == s.minted + if c.DoMint? && c.user !in s.balances then INITIAL_MINT else 0
  {
  }

  lemma StakingMints(s: State, c: Command)
    requires Step(s, c).Ok? && IsStaking(c)
    ensures Step(s, c).value.minted == s.minted
  {
    if c.DoCashOut? { CashOutMints(s, c.user); }
  }

  lemma CashOutMints(s: State, user: Address)
    requires CashOutEarly(s, user).Ok?
    ensures CashOutEarly(s, user).value.minted == s.minted
  {
  }

  lemma EndingMints(s: State, c: Command)
    requires Step(s, c).Ok? && IsEnding(c)
    ensures Step(s, c).value.minted == s.minted
  {
    match c
    case DoResolve(price, start, ok) => SettleMinted(s, s.active.value, price);
    case DoFinalize(id) => var st, charged := CompleteChanges(s, s.disputes[id].round, s.disputes[id].price);
    case _ =>
  }

  lemma SettleMinted(s: State, rd: Round, price: nat)
    requires SettleWithPrice(s, rd, price).Ok?
    ensures SettleWithPrice(s, rd, price).value.minted == s.minted
  {
    if s.cfg.minParticipants.Some? && |ParticipantsOf(s, rd.id)| < s.cfg.minParticipants.value {
    } else if s.cfg.disputeLedgers > 0 {
    } else {
      var st, charged := CompleteChanges(s, rd, price);
    }
  }

  /** Every step but minting leaves the total minted alone, and every step keeps the rest. */
  lemma StepSafe(s: State, c: Command)
    requires Inv(s) && s.minted <= I128_MAX && Step(s, c).Ok?
    ensures Inv(Step(s, c).value)
    ensures !c.DoMint? ==> Step(s, c).value.minted == s.minted
  {
    StepKeeps(s, c);
    MintedGrows(s, c);
  }

  /** Every run from a state of the invariant stays in it. The total ever minted must fit the
      ledger's own integer type; nothing else is assumed of the commands. */
  lemma {:induction false} RunKeeps(s: State, cs: seq<Command>)
    requires Inv(s) && Run(s, cs).minted <= I128_MAX
    ensures Inv(Run(s, cs))
  {
    if cs != [] {
      var mid := Run(s, cs[..|cs| - 1]);
      var c := cs[|cs| - 1];
      if Step(mid, c).Ok? { MintedGrows(mid, c); }
      RunKeeps(s, cs[..|cs| - 1]);
      if Step(mid, c).Ok? { StepKeeps(mid, c); }
    }
  }

  /** Conservation: after any run, balances, pending winnings, the treasury, the insurance
      fund, the recorded stakes and the rounding dust add up to what was minted, and none of
      them is negative. */
  lemma Conservation(admin: Address, cfg: Config, cs: seq<Command>)
    requires ValidConfig(cfg) && Run(Initial(admin, cfg), cs).minted <= I128_MAX
    ensures var t := Run(Initial(admin, cfg), cs);
            && SumMap(t.balances) + SumMap(t.purse.amounts) + t.treasury + t.fund
             + SumMap(Recorded(t.book)) + t.dust == t.minted
            && Solvent(t)
  {
    InitialInv(admin, cfg);
    RunKeeps(Initial(admin, cfg), cs);
  }

  // ----- what never goes back -----

  /** Round numbers, start ledgers and exits are only ever added to. */
  ghost predicate Later(s: State, t: State) {
    && s.now <= t.now && s.lastRoundId <= t.lastRoundId
    && (forall l :: l in s.startLedgers ==> l in t.startLedgers && t.startLedgers[l] == s.startLedgers[l])
    && s.exits <= t.exits
  }

  lemma {:induction false} RunLater(s: State, cs: seq<Command>)
    requires Inv(s) && Run(s, cs).minted <= I128_MAX
    ensures Later(s, Run(s, cs))
  {
    if cs != [] {
      var mid, c := Run(s, cs[..|cs| - 1]), cs[|cs| - 1];
      if Step(mid, c).Ok? { MintedGrows(mid, c); }
      RunLater(s, cs[..|cs| - 1]);
      RunKeeps(s, cs[..|cs| - 1]);
      if Step(mid, c).Ok? { StepShape(mid, c); ShapeLater(mid, Step(mid, c).value, c); }
    }
  }

  lemma ShapeLater(s: State, t: State, c: Command)
    requires Shaped(s, t, c)
    ensures Later(s, t)
  {
  }

  // ----- dust -----

  function WinnersOf(s: State, rd: Round, price: nat): nat {
    var r := SettleRound(s.book, rd, Sort(ParticipantsOf(s, rd.id)), price, s.cfg);
    if r.Ok? then CountWins(r.value.outcomes) else 0
  }

  /** The command settles round `rd` at `price`, at once or after its dispute window. */
  predicate Settles(s: State, c: Command, rd: Round, price: nat) {
    || (c.DoResolve? && s.active == Some(rd) && price == c.price && s.cfg.disputeLedgers == 0)
    || (c.DoFinalize? && c.id in s.disputes && rd == s.disputes[c.id].round && price == s.disputes[c.id].price)
  }

  /** Rounding leaves something outside every account only when a competitive Up/Down round
      is settled, and then less than one unit per winner, or when a round is cancelled with
      insurance, and then less than one unit per participant. */
  lemma DustOnly(s: State, c: Command)
    requires Inv(s) && s.minted <= I128_MAX && Step(s, c).Ok?
    ensures DustExplained(s, c, Step(s, c).value.dust - s.dust)
  {
    if !IsEnding(c) {
      StepShape(s, c);
    } else {
      EndingDust(s, c);
    }
  }

  ghost predicate DustExplained(s: State, c: Command, lost: int) {
    && 0 <= lost
    && (lost > 0 ==>
         || (c.DoCancel? && s.active.Some? && Insured(s.cfg, c.reason) && lost < |ParticipantsOf(s, s.active.value.id)|)
         || (exists rd, price :: Settles(s, c, rd, price) && Competitive(rd, price) && lost < WinnersOf(s, rd, price)))
  }

  lemma EndingDust(s: State, c: Command)
    requires Inv(s) && s.minted <= I128_MAX && Step(s, c).Ok? && IsEnding(c)
    ensures DustExplained(s, c, Step(s, c).value.dust - s.dust)
  {
    match c
    case DoCancel(reason) => CancelDust(s, reason);
    case DoResolve(price, start, ok) => ResolveDust(s, c, s.active.value);
    case DoFinalize(id) => FinalizeDust(s, id);
    case DoVoid(id) => VoidDust(s, id);
  }

  lemma CancelDust(s: State, reason: nat)
    requires Inv(s) && s.minted <= I128_MAX && CancelRound(s, reason).Ok?
    ensures DustExplained(s, DoCancel(reason), CancelRound(s, reason).value.dust - s.dust)
  {
    CancelPays(s, reason);
  }

  lemma ResolveDust(s: State, c: Command, rd: Round)
    requires Inv(s) && c.DoResolve? && s.active == Some(rd) && SettleWithPrice(s, rd, c.price).Ok?
    ensures DustExplained(s, c, SettleWithPrice(s, rd, c.price).value.dust - s.dust)
  {
    SettleDust(s, rd, c.price);
    assert s.cfg.disputeLedgers == 0 ==> Settles(s, c, rd, c.price);
  }

  lemma FinalizeDust(s: State, id: nat)
    requires Inv(s) && FinalizeRound(s, id).Ok?
    ensures DustExplained(s, DoFinalize(id), FinalizeRound(s, id).value.dust - s.dust)
  {
    CompleteDust(s, s.disputes[id].round, s.disputes[id].price);
    assert Settles(s, DoFinalize(id), s.disputes[id].round, s.disputes[id].price);
  }

  lemma VoidDust(s: State, id: nat)
    requires VoidRound(s, id).Ok?
    ensures VoidRound(s, id).value.dust == s.dust
  {
  }

  lemma CompleteDust(s: State, rd: Round, price: nat)
    requires Inv(s) && IsLive(s, rd) && CompleteSettlement(s, rd, price).Ok?
    ensures var lost := CompleteSettlement(s, rd, price).value.dust - s.dust;
            if Competitive(rd, price) then 0 <= lost < WinnersOf(s, rd, price) else lost == 0
  {
    var st, charged := CompleteChanges(s, rd, price);
    CompleteMoney(s, rd, st, charged, price);
  }

  lemma SettleDust(s: State, rd: Round, price: nat)
    requires Inv(s) && s.active == Some(rd) && SettleWithPrice(s, rd, price).Ok?
    ensures var lost := SettleWithPrice(s, rd, price).value.dust - s.dust;
            && (lost != 0 ==> s.cfg.disputeLedgers == 0)
            && (if Competitive(rd, price) then lost == 0 || 0 <= lost < WinnersOf(s, rd, price) else lost == 0)
  {
    if s.cfg.minParticipants.Some? && |ParticipantsOf(s, rd.id)| < s.cfg.minParticipants.value {
    } else if s.cfg.disputeLedgers > 0 {
    } else {
      CompleteDust(s, rd, price);
    }
  }

  // ----- a round leaves once -----

  /** Settled once over whole runs: once a round has left the ledger it never leaves again,
      is never live again, and no stake of it is ever recorded again. */
  lemma SettledOnce(admin: Address, cfg: Config, before: seq<Command>, after: seq<Command>, i: nat)
    requires ValidConfig(cfg)
    requires Run(Initial(admin, cfg), before).minted <= I128_MAX
    requires Run(Run(Initial(admin, cfg), before), after).minted <= I128_MAX
    requires i < |Run(Initial(admin, cfg), before).exits|
    ensures var s := Run(Initial(admin, cfg), before);
            var t := Run(s, after);
            var id := s.exits[i].round;
            && i < |t.exits| && t.exits[i] == s.exits[i]
            && (forall j :: 0 <= j < |t.exits| && t.exits[j].round == id ==> j == i)
            && !IsActive(t.active, id) && id !in t.disputes
            && RoundRecorded(t.book, id) == map[]
  {
    var s := Run(Initial(admin, cfg), before);
    InitialInv(admin, cfg);
    RunKeeps(Initial(admin, cfg), before);
    RunLater(s, after);
    RunKeeps(s, after);
    GoneForGood(Run(s, after), i);
  }

  lemma GoneForGood(t: State, i: nat)
    requires Structure(t) && i < |t.exits|
    ensures var id := t.exits[i].round;
            && (forall j :: 0 <= j < |t.exits| && t.exits[j].round == id ==> j == i)
            && !IsActive(t.active, id) && id !in t.disputes && RoundRecorded(t.book, id) == map[]
  {
    assert HasExited(t.exits, t.exits[i].round);
  }

  // ----- every created round is accounted for, or orphaned -----

  predicate IsAccounted(s: State, id: nat) {
    IsActive(s.active, id) || id in s.disputes || HasExited(s.exits, id)
  }

  /** Every round ever created is active, in dispute, or has left. */
  predicate Accounted(s: State) {
    forall id | 1 <= id <= s.lastRoundId :: IsAccounted(s, id)
  }

  /** Finalizing removes the active round marker even when it belongs to a newer round, so a
      committed step keeps every round accounted for exactly when it is not a finalization
      made while another round is active. */
  lemma StepAccounts(s: State, c: Command)
    requires Inv(s) && Accounted(s) && Step(s, c).Ok?
    ensures Accounted(Step(s, c).value) <==> !(c.DoFinalize? && s.active.Some?)
  {
    StepShape(s, c);
    ShapeAccountsFor(s, Step(s, c).value, c);
  }

  lemma ShapeAccountsFor(s: State, t: State, c: Command)
    requires Structure(s) && Accounted(s) && Shaped(s, t, c)
    ensures Accounted(t) <==> !(c.DoFinalize? && s.active.Some?)
  {
    if c.DoFinalize? && s.active.Some? {
      assert !HasExited(s.exits, s.active.value.id);
      var e :| Ends(s, t, c, e);
      assert !IsAccounted(t, s.active.value.id);
    } else {
      forall id | 1 <= id <= t.lastRoundId ensures IsAccounted(t, id) {
        if id <= s.lastRoundId {
          assert IsAccounted(s, id);
          ShapeAccounts(s, t, c, id);
        }
      }
    }
  }

  lemma ShapeAccounts(s: State, t: State, c: Command, id: nat)
    requires Shaped(s, t, c) && IsAccounted(s, id) && !(c.DoFinalize? && s.active.Some?)
    ensures IsAccounted(t, id)
  {
    if e :| Ends(s, t, c, e) {
      assert t.exits[|s.exits|] == e;
      if HasExited(s.exits, id) {
        var i :| 0 <= i < |s.exits| && s.exits[i].round == id;
        assert t.exits[i].round == id;
      }
    }
  }

  /** A round that is no longer active, not in dispute and has not left. */
  predicate Orphaned(s: State, id: nat) {
    1 <= id <= s.lastRoundId && !IsAccounted(s, id)
  }

  /** An orphaned round is stuck: whatever happens afterwards, it stays orphaned and its
      stakes stay recorded and unpaid. */
  lemma {:induction false} OrphanStuck(s: State, cs: seq<Command>, id: nat)
    requires Inv(s) && Orphaned(s, id) && Run(s, cs).minted <= I128_MAX
    ensures Orphaned(Run(s, cs), id)
    ensures RoundRecorded(Run(s, cs).book, id) == RoundRecorded(s.book, id)
  {
    if cs != [] {
      var front, c := cs[..|cs| - 1], cs[|cs| - 1];
      var mid := Run(s, front);
      if Step(mid, c).Ok? { MintedGrows(mid, c); }
      OrphanStuck(s, front, id);
      RunKeeps(s, front);
      if Step(mid, c).Ok? {
        StepShape(mid, c);
        OrphanStep(mid, Step(mid, c).value, c, id);
      }
    }
  }

  lemma OrphanStep(s: State, t: State, c: Command, id: nat)
    requires Structure(s) && Shaped(s, t, c) && Orphaned(s, id)
    ensures Orphaned(t, id)
    ensures RoundRecorded(t.book, id) == RoundRecorded(s.book, id)
  {
    if e :| Ends(s, t, c, e) {
      OrphanOutlasts(s, t, c, e, id);
    } else if Quiet(s, t) {
      QuietElsewhere(s, t, id);
    }
  }

  /** The end of another round neither pays nor clears an orphaned one. */
  lemma OrphanOutlasts(s: State, t: State, c: Command, e: Exit, id: nat)
    requires Structure(s) && Ends(s, t, c, e) && Orphaned(s, id)
    ensures Orphaned(t, id)
    ensures RoundRecorded(t.book, id) == RoundRecorded(s.book, id)
  {
    EndsElsewhere(s.book, e.round, ParticipantsOf(s, e.round), id);
    forall i | 0 <= i < |t.exits| ensures t.exits[i].round != id {
      if i < |s.exits| { assert t.exits[i] == s.exits[i]; assert !HasExited(s.exits, id); }
    }
  }

  lemma QuietElsewhere(s: State, t: State, id: nat)
    requires Quiet(s, t) && !IsActive(s.active, id)
    ensures RoundRecorded(t.book, id) == RoundRecorded(s.book, id)
  {
    forall k: Key | k.round == id
      ensures (InBook(t.book, k) <==> InBook(s.book, k)) && StakeAt(t.book, k) == StakeAt(s.book, k)
    { }
  }

  lemma EndsElsewhere(b: Book, closed: nat, users: seq<Address>, id: nat)
    requires closed != id
    ensures RoundRecorded(ClearUsers(b, closed, users), id) == RoundRecorded(b, id)
  {
    var c := ClearUsers(b, closed, users);
    forall k: Key | k.round == id
      ensures (InBook(c, k) <==> InBook(b, k)) && StakeAt(c, k) == StakeAt(b, k)
    {
      ClearedStake(b, closed, users, k);
    }
  }

  lemma ClearedStake(b: Book, round: nat, users: seq<Address>, k: Key)
    requires k.round != round
    ensures StakeAt(ClearUsers(b, round, users), k) == StakeAt(b, k)
    ensures InBook(ClearUsers(b, round, users), k) <==> InBook(b, k)
  {
    var gone := set u | u in users :: Key(round, u);
    assert k !in gone;
  }

  // ----- one oracle payload, one round -----

  /** Round numbers strictly increase, and no two rounds of a history share a start ledger:
      a payload that names a start ledger matches at most one round, then and ever after. */
  lemma PayloadBindsOnce(s: State, cs: seq<Command>)
    requires Inv(s) && Run(s, cs).minted <= I128_MAX
    requires s.active.Some? && Run(s, cs).active.Some?
    ensures var a, b := s.active.value, Run(s, cs).active.value;
            && a.id <= b.id
            && (a.startLedger == b.startLedger <==> a.id == b.id)
  {
    RunLater(s, cs);
    RunKeeps(s, cs);
    RunNumbers(s, cs);
  }

  lemma {:induction false} RunNumbers(s: State, cs: seq<Command>)
    requires Inv(s) && Run(s, cs).minted <= I128_MAX && s.active.Some?
    ensures Run(s, cs).active.Some? ==> Run(s, cs).active.value.id >= s.active.value.id
    ensures Run(s, cs).lastRoundId >= s.active.value.id
  {
    if cs != [] {
      var mid, c := Run(s, cs[..|cs| - 1]), cs[|cs| - 1];
      if Step(mid, c).Ok? { MintedGrows(mid, c); }
      RunNumbers(s, cs[..|cs| - 1]);
      RunKeeps(s, cs[..|cs| - 1]);
      if Step(mid, c).Ok? { StepShape(mid, c); }
    }
  }

  /** A round created after a run has a new number and a start ledger no earlier round had. */
  lemma CreatedRoundIsNew(s: State, cs: seq<Command>, price: nat, mode: Option<nat>)
    requires Inv(s) && Run(s, cs).minted <= I128_MAX && CreateRound(Run(s, cs), price, mode).Ok?
    ensures var rd := CreateRound(Run(s, cs), price, mode).value.active.value;
            rd.id > s.lastRoundId && rd.startLedger !in s.startLedgers
  {
    RunLater(s, cs);
    RunKeeps(s, cs);
    CreateChanges(Run(s, cs), price, mode);
  }

  /** With no round active, whatever is active later was created later. */
  lemma {:induction false} LaterIsNewer(s: State, cs: seq<Command>)
    requires Inv(s) && Run(s, cs).minted <= I128_MAX && s.active.None?
    ensures Run(s, cs).active.Some? ==> Run(s, cs).active.value.id > s.lastRoundId
    ensures Run(s, cs).lastRoundId >= s.lastRoundId
  {
    if cs != [] {
      var mid, c := Run(s, cs[..|cs| - 1]), cs[|cs| - 1];
      if Step(mid, c).Ok? { MintedGrows(mid, c); }
      LaterIsNewer(s, cs[..|cs| - 1]);
      RunKeeps(s, cs[..|cs| - 1]);
      if Step(mid, c).Ok? { StepShape(mid, c); }
    }
  }

  /** Resolving leaves no round active, and the payload names the round that was. */
  lemma ResolvingEnds(s: State, c: Command)
    requires Inv(s) && c.DoResolve? && Step(s, c).Ok?
    ensures var t := Step(s, c).value;
            && t.active.None? && t.startLedgers == s.startLedgers && c.startLedger in t.startLedgers
  {
    EndingShape(s, c);
  }

  /** With no round active, no start ledger used so far is ever the active round's again. */
  lemma SpentStartLedger(t: State, cs: seq<Command>, ledger: nat)
    requires Inv(t) && t.active.None? && ledger in t.startLedgers && Run(t, cs).minted <= I128_MAX
    ensures Run(t, cs).active.Some? ==> Run(t, cs).active.value.startLedger != ledger
  {
    RunKeeps(t, cs);
    RunLater(t, cs);
    LaterIsNewer(t, cs);
  }

  /** Once a payload has resolved a round, no payload bound to the same start ledger resolves
      anything again, however the ledger goes on. */
  lemma PayloadResolvesOnce(s: State, first: Command, cs: seq<Command>, price: nat, pass: bool)
    requires Inv(s) && s.minted <= I128_MAX && first.DoResolve? && Step(s, first).Ok?
    requires Run(Step(s, first).value, cs).minted <= I128_MAX
    ensures ResolveRound(Run(Step(s, first).value, cs), price, first.startLedger, pass).Err?
  {
    StepKeeps(s, first);
    ResolvingEnds(s, first);
    SpentStartLedger(Step(s, first).value, cs, first.startLedger);
  }
}
