/** When each call goes through: stakes before betting closes, reveals and cash-outs between
    the close and the end, results from the end on, voids and finalizations around the deadline. */
module Timing {
  import opened Types
  import opened Ledger
  import opened Invariants
  import opened Runs

  /** Only rounds that are over are in dispute. */
  ghost predicate DisputesAreOver(s: State) {
    forall id :: id in s.disputes ==> s.disputes[id].round.end <= s.now
  }

  predicate IsStake(c: Command) {
    c.DoBet? || c.DoPredict? || c.DoCommit?
  }

  /** The clock at which the call is made. `t` is the state after it. */
  predicate InTime(s: State, c: Command, t: State) {
    match c
    case DoBet(_, _, _) => s.active.Some? && s.now + s.cfg.closeBuffer < s.active.value.betEnd
    case DoPredict(_, _, _) => s.active.Some? && s.now + s.cfg.closeBuffer < s.active.value.betEnd
    case DoCommit(_, _, _) => s.active.Some? && s.now + s.cfg.closeBuffer < s.active.value.betEnd
    case DoReveal(_, _, _) => s.active.Some? && s.active.value.betEnd <= s.now < s.active.value.end
    case DoCashOut(_) => s.active.Some? && s.active.value.betEnd <= s.now < s.active.value.end
    case DoResolve(price, start, pass) =>
      && s.active.Some? && s.active.value.end <= s.now && s.active.value.startLedger == start && price > 0 && pass
      && ResolvesTo(s, t, s.active.value, price)
    case DoVoid(id) => id in s.disputes && s.disputes[id].round.end <= s.now < s.disputes[id].deadline
    case DoFinalize(id) => id in s.disputes && s.disputes[id].deadline <= s.now && s.disputes[id].round.end <= s.now
    case _ => true
  }

  /** The result waits for the dispute window to pass. */
  predicate Staged(s: State, t: State, rd: Round, price: nat) {
    rd.id in t.disputes && t.disputes[rd.id] == Dispute(rd, price, s.now + s.cfg.disputeLedgers)
  }

  /** With fewer participants than the configured minimum the stakes go back at once; otherwise the
      result is staged if there is a dispute window, and settled if there is none. */
  predicate ResolvesTo(s: State, t: State, rd: Round, price: nat) {
    if s.cfg.minParticipants.Some? && |ParticipantsOf(s, rd.id)| < s.cfg.minParticipants.value then
      t.exits == s.exits + [Exit(rd.id, FallbackRefund)]
    else if s.cfg.disputeLedgers > 0 then t.exits == s.exits && Staged(s, t, rd, price)
    else t.exits == s.exits + [Exit(rd.id, Resolved)]
  }

  lemma StakeInTime(s: State, c: Command)
    requires Step(s, c).Ok? && IsStake(c)
    ensures InTime(s, c, Step(s, c).value)
  {
  }

  lemma WindowInTime(s: State, c: Command)
    requires Step(s, c).Ok? && (c.DoReveal? || c.DoCashOut?)
    ensures InTime(s, c, Step(s, c).value)
  {
  }

  lemma ResolveInTime(s: State, price: nat, start: nat, pass: bool)
    requires Inv(s) && ResolveRound(s, price, start, pass).Ok?
    ensures InTime(s, DoResolve(price, start, pass), ResolveRound(s, price, start, pass).value)
  {
    var rd := s.active.value;
    if s.cfg.minParticipants.Some? && |ParticipantsOf(s, rd.id)| < s.cfg.minParticipants.value {
      FallbackLeaves(s, rd, price);
    } else if s.cfg.disputeLedgers == 0 {
      SettledLeaves(s, rd, price);
    }
  }

  lemma EndInTime(s: State, c: Command)
    requires Inv(s) && DisputesAreOver(s) && Step(s, c).Ok? && IsEnding(c)
    ensures InTime(s, c, Step(s, c).value)
  {
    match c
    case DoCancel(reason) =>
    case DoResolve(price, start, pass) => ResolveInTime(s, price, start, pass);
    case DoVoid(id) =>
    case DoFinalize(id) =>
  }

  lemma StagesOver(s: State, t: State, c: Command)
    requires Inv(s) && DisputesAreOver(s) && Step(s, c) == Ok(t) && IsEnding(c)
    ensures DisputesAreOver(t)
  {
    EndInTime(s, c);
    EndingShape(s, c);
    if Stages(s, t) { StagedKeepsOthers(s, c); }
  }

  /** Staging adds one dispute and leaves the others alone. */
  lemma StagedKeepsOthers(s: State, c: Command)
    requires Step(s, c).Ok? && c.DoResolve? && Step(s, c).value.exits == s.exits && s.active.Some?
    ensures forall id :: id in s.disputes && id != s.active.value.id ==>
              id in Step(s, c).value.disputes && Step(s, c).value.disputes[id] == s.disputes[id]
  {
    SettleKeepsOthers(s, s.active.value, c.price);
  }

  lemma SettleKeepsOthers(s: State, rd: Round, price: nat)
    requires SettleWithPrice(s, rd, price).Ok?
    ensures forall id :: id in s.disputes && id != rd.id ==>
              id in SettleWithPrice(s, rd, price).value.disputes && SettleWithPrice(s, rd, price).value.disputes[id] == s.disputes[id]
  {
    if s.cfg.minParticipants.Some? && |ParticipantsOf(s, rd.id)| < s.cfg.minParticipants.value {
    } else if s.cfg.disputeLedgers > 0 {
    } else {
      var st, charged := CompleteChanges(s, rd, price);
    }
  }

  /** Every committed call is made in its own time, and only rounds that are over are ever in
      dispute: a round is settled, staged or refunded on an oracle result, voided or finalized only
      at or after its end ledger. */
  lemma StepTiming(s: State, c: Command)
    requires Inv(s) && DisputesAreOver(s) && Step(s, c).Ok?
    ensures InTime(s, c, Step(s, c).value) && DisputesAreOver(Step(s, c).value)
  {
    if IsEnding(c) {
      EndInTime(s, c);
      StagesOver(s, Step(s, c).value, c);
    } else {
      StepShape(s, c);
      if IsStake(c) { StakeInTime(s, c); } else if IsStaking(c) { WindowInTime(s, c); }
    }
  }

  lemma {:induction false} RunTiming(s: State, cs: seq<Command>)
    requires Inv(s) && DisputesAreOver(s) && Run(s, cs).minted <= I128_MAX
    ensures DisputesAreOver(Run(s, cs))
  {
    if cs != [] {
      var mid, c := Run(s, cs[..|cs| - 1]), cs[|cs| - 1];
      if Step(mid, c).Ok? { MintedGrows(mid, c); }
      RunTiming(s, cs[..|cs| - 1]);
      RunKeeps(s, cs[..|cs| - 1]);
      if Step(mid, c).Ok? { StepTiming(mid, c); }
    }
  }

  /** In a reachable state no round leaves on a price, a void or a refund before its end ledger:
      only an administrator's cancellation can end it sooner. */
  lemma NothingEndsEarly(admin: Address, cfg: Config, cs: seq<Command>, c: Command)
    requires ValidConfig(cfg) && Run(Initial(admin, cfg), cs).minted <= I128_MAX
    requires Step(Run(Initial(admin, cfg), cs), c).Ok?
    ensures var s := Run(Initial(admin, cfg), cs);
            && InTime(s, c, Step(s, c).value)
            && (c.DoFinalize? || c.DoVoid? ==> c.id in s.disputes && s.disputes[c.id].round.end <= s.now)
  {
    InitialInv(admin, cfg);
    RunKeeps(Initial(admin, cfg), cs);
    RunTiming(Initial(admin, cfg), cs);
    StepTiming(Run(Initial(admin, cfg), cs), c);
  }
}
