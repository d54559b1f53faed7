/** How long pending winnings are safe from the administrator: the whole expiry period after the
    last time they grew. */
module Expiry {
  import opened Types
  import opened Engine
  import opened Ledger
  import opened Books
  import opened Invariants
  import opened Steps
  import opened Runs

  /** Whatever grew is stamped with this ledger, and no other stamp is made. */
  ghost predicate Stamped(p: Purse, q: Purse, now: nat) {
    && (forall u :: PendingOf(q, u) > PendingOf(p, u) ==> u in q.writtenAt && q.writtenAt[u] == now)
    && (forall u :: u in q.writtenAt ==> q.writtenAt[u] == now || (u in p.writtenAt && q.writtenAt[u] == p.writtenAt[u]))
  }

  lemma {:induction false} AccumulateStamps(p: Purse, cap: Option<int>, now: nat, credits: seq<Credit>)
    requires AccumulateAll(p, cap, now, credits).Ok?
    ensures Stamped(p, AccumulateAll(p, cap, now, credits).value, now)
    ensures p.writtenAt.Keys <= AccumulateAll(p, cap, now, credits).value.writtenAt.Keys
  {
    if credits != [] { AccumulateStamps(p, cap, now, credits[..|credits| - 1]); }
  }

  /** One set of credits after the other, at the same ledger. */
  lemma StampedTwice(p: Purse, q: Purse, r: Purse, now: nat)
    requires Stamped(p, q, now) && Stamped(q, r, now) && q.writtenAt.Keys <= r.writtenAt.Keys
    ensures Stamped(p, r, now)
  {
  }

  lemma RefundStamps(s: State, rd: Round, kind: OutcomeKind, showPrice: bool, status: ArchiveStatus)
    requires RefundRound(s, rd, kind, showPrice, status).Ok?
    ensures Stamped(s.purse, RefundRound(s, rd, kind, showPrice, status).value.purse, s.now)
  {
    AccumulateStamps(s.purse, s.cfg.maxPending, s.now, Credits(Returns(s.book, rd, ParticipantsOf(s, rd.id), kind, showPrice)));
  }

  lemma CompleteStamps(s: State, rd: Round, price: nat)
    requires CompleteSettlement(s, rd, price).Ok?
    ensures Stamped(s.purse, CompleteSettlement(s, rd, price).value.purse, s.now)
  {
    var st, charged := CompleteChanges(s, rd, price);
    FeeTouches(s, st.fee);
    AccumulateStamps(s.purse, s.cfg.maxPending, s.now, Credits(st.outcomes));
  }

  lemma SettleStamps(s: State, rd: Round, price: nat)
    requires SettleWithPrice(s, rd, price).Ok?
    ensures Stamped(s.purse, SettleWithPrice(s, rd, price).value.purse, s.now)
  {
    if s.cfg.minParticipants.Some? && |ParticipantsOf(s, rd.id)| < s.cfg.minParticipants.value {
      RefundStamps(s, rd, Refund, false, FallbackRefund);
    } else if s.cfg.disputeLedgers == 0 {
      CompleteStamps(s, rd, price);
    }
  }

  lemma CancelStamps(s: State, reason: nat)
    requires CancelRound(s, reason).Ok?
    ensures Stamped(s.purse, CancelRound(s, reason).value.purse, s.now)
  {
    var rd := s.active.value;
    var outcomes := Returns(s.book, rd, ParticipantsOf(s, rd.id), Void, false);
    var paid := PayOut(s, rd.id, outcomes).value;
    var cover := CancelCover(s, ParticipantsOf(s, rd.id), StakesOf(outcomes), reason).value;
    AccumulateStamps(s.purse, s.cfg.maxPending, s.now, Credits(outcomes));
    AccumulateStamps(paid.purse, s.cfg.maxPending, s.now, cover.credits);
    StampedTwice(s.purse, paid.purse, CancelRound(s, reason).value.purse, s.now);
  }

  lemma EndStamps(s: State, c: Command)
    requires Step(s, c).Ok? && IsEnding(c)
    ensures Stamped(s.purse, Step(s, c).value.purse, s.now)
  {
    match c
    case DoCancel(reason) => CancelStamps(s, reason);
    case DoResolve(price, start, pass) => SettleStamps(s, s.active.value, price);
    case DoVoid(id) => RefundStamps(s, s.disputes[id].round.(id := id), Void, true, Voided);
    case DoFinalize(id) => CompleteStamps(s, s.disputes[id].round, s.disputes[id].price);
  }

  lemma CashOutStamps(s: State, user: Address)
    requires CashOutEarly(s, user).Ok?
    ensures Stamped(s.purse, CashOutEarly(s, user).value.purse, s.now)
  {
    CashOutChanges(s, user);
    var forfeit := CashOutSplit(s, user);
  }

  lemma {:induction false} ClaimAllStamps(s: State, users: seq<Address>)
    requires PurseOk(s.purse) && ClaimAll(s, users).Ok?
    ensures var q := ClaimAll(s, users).value.0.purse;
            && PurseOk(q) && q.writtenAt.Keys <= s.purse.writtenAt.Keys
            && (forall u :: PendingOf(q, u) <= PendingOf(s.purse, u))
            && (forall u :: u in q.writtenAt ==> q.writtenAt[u] == s.purse.writtenAt[u])
  {
    if users != [] { ClaimAllStamps(s, users[..|users| - 1]); }
  }

  lemma StakeStamps(s: State, c: Command)
    requires Step(s, c).Ok? && IsStaking(c) && !c.DoCashOut?
    ensures Step(s, c).value.purse == s.purse
  {
  }

  lemma MoneyStamps(s: State, c: Command)
    requires PurseOk(s.purse) && Step(s, c).Ok? && !IsStaking(c) && !IsEnding(c) && !c.DoClaimMany?
    ensures Stamped(s.purse, Step(s, c).value.purse, s.now)
  {
  }

  lemma StepStamps(s: State, c: Command)
    requires PurseOk(s.purse) && Step(s, c).Ok?
    ensures Stamped(s.purse, Step(s, c).value.purse, s.now)
  {
    if IsEnding(c) {
      EndStamps(s, c);
    } else if c.DoCashOut? {
      CashOutStamps(s, c.user);
    } else if IsStaking(c) {
      StakeStamps(s, c);
    } else if c.DoClaimMany? {
      ClaimAllStamps(s, c.users);
    } else {
      MoneyStamps(s, c);
    }
  }

  // ----- runs -----

  /** The winnings of this user grew in call `i` of the run. */
  ghost predicate GrewAt(s: State, cs: seq<Command>, user: Address, i: nat)
    requires i < |cs|
  {
    PendingOf(Run(s, cs[..i + 1]).purse, user) > PendingOf(Run(s, cs[..i]).purse, user)
  }

  lemma CallStamps(s: State, front: seq<Command>, c: Command)
    requires Inv(s) && Apply(Run(s, front), c).minted <= I128_MAX
    ensures var mid, t := Run(s, front), Apply(Run(s, front), c);
            Stamped(mid.purse, t.purse, mid.now) && mid.now <= t.now && mid.minted <= I128_MAX
  {
    var mid := Run(s, front);
    if Step(mid, c).Ok? {
      MintedGrows(mid, c);
      RunKeeps(s, front);
      StepStamps(mid, c);
      StepShape(mid, c);
      ShapeLater(mid, Step(mid, c).value, c);
    }
  }

  lemma {:induction false} LastGrowth(s: State, cs: seq<Command>, user: Address, i: nat)
    requires Inv(s) && Run(s, cs).minted <= I128_MAX && i < |cs| && GrewAt(s, cs, user, i)
    ensures Run(s, cs[..i]).now <= Run(s, cs).now
    ensures user in Run(s, cs).purse.writtenAt ==> Run(s, cs[..i]).now <= Run(s, cs).purse.writtenAt[user]
  {
    var front, c := cs[..|cs| - 1], cs[|cs| - 1];
    CallStamps(s, front, c);
    if i == |front| {
      assert cs[..i + 1] == cs && cs[..i] == front;
    } else {
      assert cs[..i + 1] == front[..i + 1] && cs[..i] == front[..i];
      LastGrowth(s, front, user, i);
    }
  }

  /** Over a whole run: if the administrator can reclaim a user's pending winnings, they have not
      grown in any call of the last `pendingExpiry` ledgers. */
  lemma NothingReclaimedEarly(s: State, cs: seq<Command>, user: Address, i: nat)
    requires Inv(s) && Run(s, cs).minted <= I128_MAX && ReclaimExpired(Run(s, cs), user).Ok?
    requires i < |cs| && GrewAt(s, cs, user, i)
    ensures Run(s, cs[..i]).now + Run(s, cs).cfg.pendingExpiry <= Run(s, cs).now
  {
    LastGrowth(s, cs, user, i);
  }
}
