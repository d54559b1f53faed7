/** The participant cap of Precision rounds: direct predictions respect it, commitments do not
    look at it (contracts/src/betting.rs). */
module Caps {
  import opened Types
  import opened Ledger
  import opened Invariants
  import opened Runs

  /** An active Precision round lists no more users than the configured maximum. */
  predicate Capped(s: State) {
    s.active.Some? && s.active.value.mode.Precision? ==> |ParticipantsOf(s, s.active.value.id)| <= s.cfg.maxPrecision
  }

  /** The condition on a call: no commitment to a full round, and no reconfiguration below the
      users already in the round. */
  predicate RespectsCap(s: State, c: Command) {
    match c
    case DoCommit(user, hash, amount) => s.active.Some? ==> |ParticipantsOf(s, s.active.value.id)| < s.cfg.maxPrecision
    case Configure(cfg) => Capped(s.(cfg := cfg))
    case _ => true
  }

  /** What the lists of users and the active round look like after a call that is neither a
      stake nor the end of a round. */
  lemma MoneyKeepsLists(s: State, c: Command)
    requires Step(s, c).Ok? && !IsStaking(c) && !IsEnding(c) && !c.DoClaimMany?
    ensures var t := Step(s, c).value;
            && t.participants == s.participants && t.cfg == (if c.Configure? then c.cfg else s.cfg)
            && (!c.DoCreate? ==> t.active == s.active)
  {
  }

  lemma MoneyCaps(s: State, c: Command)
    requires Inv(s) && Step(s, c).Ok? && !IsStaking(c) && !IsEnding(c) && Capped(s)
    ensures Capped(Step(s, c).value) <==> RespectsCap(s, c)
  {
    var t := Step(s, c).value;
    if c.DoClaimMany? {
      ClaimAllMoves(s, c.users);
    } else {
      MoneyKeepsLists(s, c);
      if c.DoCreate? { CreatedIsEmpty(s, c); }
    }
    ListsDecide(s, t, c);
  }

  /** Only the active round, its list and the configured maximum matter. */
  lemma ListsDecide(s: State, t: State, c: Command)
    requires Capped(s) && !IsStaking(c) && t.participants == s.participants && t.cfg == (if c.Configure? then c.cfg else s.cfg)
    requires t.active == s.active || (c.DoCreate? && t.active.Some? && t.active.value.id !in s.participants)
    ensures Capped(t) <==> RespectsCap(s, c)
  {
  }

  /** A new round starts without users. */
  lemma CreatedIsEmpty(s: State, c: Command)
    requires Inv(s) && Step(s, c).Ok? && c.DoCreate?
    ensures var t := Step(s, c).value;
            t.active.Some? && t.active.value.id !in s.participants
  {
  }

  /** A direct prediction is refused when the round is full, a commitment is not. */
  lemma PredictCaps(s: State, user: Address, amount: int, price: nat)
    requires PlacePrediction(s, user, amount, price).Ok?
    ensures Capped(PlacePrediction(s, user, amount, price).value)
  {
  }

  lemma CommitCaps(s: State, user: Address, hash: Digest, amount: int)
    requires CommitPrediction(s, user, hash, amount).Ok?
    ensures Capped(CommitPrediction(s, user, hash, amount).value) <==> RespectsCap(s, DoCommit(user, hash, amount))
  {
  }

  lemma CashOutCaps(s: State, user: Address)
    requires CashOutEarly(s, user).Ok?
    ensures Capped(CashOutEarly(s, user).value)
  {
  }

  lemma StakingCaps(s: State, c: Command)
    requires Step(s, c).Ok? && IsStaking(c) && Capped(s)
    ensures Capped(Step(s, c).value) <==> RespectsCap(s, c)
  {
    match c
    case DoBet(user, amount, side) =>
    case DoPredict(user, amount, price) => PredictCaps(s, user, amount, price);
    case DoCommit(user, hash, amount) => CommitCaps(s, user, hash, amount);
    case DoReveal(user, price, salt) =>
    case DoCashOut(user) => CashOutCaps(s, user);
  }

  lemma EndingCaps(s: State, c: Command)
    requires Inv(s) && Step(s, c).Ok? && IsEnding(c) && Capped(s)
    ensures Capped(Step(s, c).value)
  {
    EndingShape(s, c);
  }

  /** A committed call keeps the number of users in a Precision round within the configured
      maximum exactly when it is not a commitment to a round that is already full, nor a
      reconfiguration below the users already there. */
  lemma StepCaps(s: State, c: Command)
    requires Inv(s) && Step(s, c).Ok? && Capped(s)
    ensures Capped(Step(s, c).value) <==> RespectsCap(s, c)
  {
    if IsStaking(c) {
      StakingCaps(s, c);
    } else if IsEnding(c) {
      EndingCaps(s, c);
    } else {
      MoneyCaps(s, c);
    }
  }

  /** Every committed call of the run respects the cap where it is made. */
  predicate RunRespectsCap(s: State, cs: seq<Command>) {
    cs == [] ||
    var n := |cs| - 1;
    RunRespectsCap(s, cs[..n]) && (Step(Run(s, cs[..n]), cs[n]).Ok? ==> RespectsCap(Run(s, cs[..n]), cs[n]))
  }

  /** The cap holds in every state of the run. */
  predicate CappedThroughout(s: State, cs: seq<Command>) {
    Capped(Run(s, cs)) && (cs == [] || CappedThroughout(s, cs[..|cs| - 1]))
  }

  /** The cap holds throughout a run exactly when every committed call respects it. */
  lemma {:induction false} RunCaps(s: State, cs: seq<Command>)
    requires Inv(s) && Run(s, cs).minted <= I128_MAX && Capped(s)
    ensures CappedThroughout(s, cs) <==> RunRespectsCap(s, cs)
  {
    if cs != [] {
      var n := |cs| - 1;
      var mid, c := Run(s, cs[..n]), cs[n];
      if Step(mid, c).Ok? { MintedGrows(mid, c); }
      RunCaps(s, cs[..n]);
      RunKeeps(s, cs[..n]);
      ApplyCaps(mid, c);
    }
  }

  lemma ApplyCaps(s: State, c: Command)
    requires Inv(s)
    ensures Capped(s) ==> (Capped(Apply(s, c)) <==> (Step(s, c).Ok? ==> RespectsCap(s, c)))
  {
    if Capped(s) && Step(s, c).Ok? { StepCaps(s, c); }
  }
}
