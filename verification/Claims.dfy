/** Claiming in batches: `claim_many` against `claim_winnings` called one user at a time. */
module Claims {
  import opened Types
  import opened Sums
  import opened Ledger
  import opened Invariants
  import opened Safety

  // ----- duplicates -----

  /** The test `claim_many` makes on the sorted list. */
  predicate HasEqualNeighbours(s: seq<nat>) {
    exists i | 1 <= i < |s| :: s[i] == s[i - 1]
  }

  /** After sorting, comparing neighbours finds exactly the lists with a duplicate. */
  lemma NeighboursFindDuplicates(users: seq<Address>)
    ensures HasEqualNeighbours(Sort(users)) <==> !Distinct(users)
  {
    SortKeepsMembers(users);
    var t := Sort(users);
    if !Distinct(t) {
      var i, j :| 0 <= i < j < |t| && t[i] == t[j];
      assert t[i] <= t[i + 1] <= t[j];
      assert t[i + 1] == t[i + 1 - 1];
    }
  }

  // ----- the state after a batch -----

  /** The users of a set that have something to claim. */
  ghost function Paying(p: Purse, users: set<Address>): set<Address> {
    set u | u in users && PendingOf(p, u) != 0
  }

  /** The state once a set of users has claimed, in no particular order. */
  ghost function AfterClaims(s: State, users: set<Address>): State {
    var paid := Paying(s.purse, users);
    s.(purse := Purse(s.purse.amounts - paid, s.purse.writtenAt - paid),
       balances := map u | u in s.balances.Keys + paid ::
                     BalanceOf(s, u) + if u in paid then PendingOf(s.purse, u) else 0)
  }

  /** A batch without duplicates succeeds exactly when every single credit fits, and then its
      state depends only on who claims; the amounts are the pending winnings, in list order. */
  lemma {:induction false} ClaimAllIs(s: State, users: seq<Address>)
    requires Distinct(users)
    ensures ClaimAll(s, users).Ok? <==> forall u :: u in users ==> ClaimOne(s, u).Ok?
    ensures ClaimAll(s, users).Ok? ==>
              && ClaimAll(s, users).value.0 == AfterClaims(s, SetOf(users))
              && ClaimAll(s, users).value.1 == seq(|users|, i requires 0 <= i < |users| => PendingOf(s.purse, users[i]))
  {
    if users == [] {
      assert SetOf(users) == {};
      AfterNobody(s);
    } else {
      var n := |users| - 1;
      var u := users[n];
      ClaimAllIs(s, users[..n]);
      assert u !in users[..n];
      assert SetOf(users) == SetOf(users[..n]) + {u};
      assert forall x :: x in users <==> x in users[..n] || x == u;
      if ClaimAll(s, users[..n]).Ok? {
        ClaimNext(s, SetOf(users[..n]), u);
      }
    }
  }

  lemma AfterNobody(s: State)
    ensures AfterClaims(s, {}) == s
  {
    assert Paying(s.purse, {}) == {};
    assert s.purse.amounts - {} == s.purse.amounts && s.purse.writtenAt - {} == s.purse.writtenAt;
    assert AfterClaims(s, {}).balances == s.balances;
  }

  lemma ClaimNext(s: State, before: set<Address>, u: Address)
    requires u !in before
    ensures var t := AfterClaims(s, before);
            && (ClaimOne(t, u).Ok? <==> ClaimOne(s, u).Ok?)
            && (ClaimOne(t, u).Ok? ==> ClaimOne(t, u).value == (AfterClaims(s, before + {u}), PendingOf(s.purse, u)))
  {
    var t := AfterClaims(s, before);
    assert PendingOf(t.purse, u) == PendingOf(s.purse, u);
    assert BalanceOf(t, u) == BalanceOf(s, u);
    if PendingOf(s.purse, u) == 0 {
      assert Paying(s.purse, before + {u}) == Paying(s.purse, before);
    } else {
      OneMorePaid(s, before, u);
    }
  }

  lemma OneMorePaid(s: State, before: set<Address>, u: Address)
    requires u !in before && PendingOf(s.purse, u) != 0
    ensures var t, after := AfterClaims(s, before), AfterClaims(s, before + {u});
            && t.purse.amounts - {u} == after.purse.amounts
            && t.purse.writtenAt - {u} == after.purse.writtenAt
            && t.balances[u := BalanceOf(s, u) + PendingOf(s.purse, u)] == after.balances
  {
    assert Paying(s.purse, before + {u}) == Paying(s.purse, before) + {u};
    PaidBalances(s, before, u);
  }

  lemma PaidBalances(s: State, before: set<Address>, u: Address)
    requires u !in before && PendingOf(s.purse, u) != 0
    ensures AfterClaims(s, before).balances[u := BalanceOf(s, u) + PendingOf(s.purse, u)] == AfterClaims(s, before + {u}).balances
  {
    assert Paying(s.purse, before + {u}) == Paying(s.purse, before) + {u};
  }

  /** The order of a batch does not matter to the ledger. */
  lemma ClaimOrderIrrelevant(s: State, users: seq<Address>, others: seq<Address>)
    requires Distinct(users) && Distinct(others) && SetOf(users) == SetOf(others)
    ensures ClaimAll(s, users).Ok? <==> ClaimAll(s, others).Ok?
    ensures ClaimAll(s, users).Ok? ==> ClaimAll(s, users).value.0 == ClaimAll(s, others).value.0
  {
    ClaimAllIs(s, users);
    ClaimAllIs(s, others);
    assert forall u :: u in users <==> u in SetOf(users);
    assert forall u :: u in others <==> u in SetOf(others);
  }

  function Singles(users: seq<Address>): seq<Command> {
    seq(|users|, i requires 0 <= i < |users| => DoClaim(users[i]))
  }

  /** A batch that goes through leaves the ledger as the single claims would. */
  lemma {:induction false} BatchIsSingles(s: State, users: seq<Address>)
    requires !s.cfg.mode.FullyPaused? && ClaimAll(s, users).Ok?
    ensures Run(s, Singles(users)) == ClaimAll(s, users).value.0
    ensures ClaimAll(s, users).value.0.cfg == s.cfg
  {
    if users != [] {
      var n := |users| - 1;
      BatchIsSingles(s, users[..n]);
      assert Singles(users)[..n] == Singles(users[..n]);
    }
  }

  /** In a reachable state every list of at most fifty different users is accepted, and it
      does what the single claims do; a list with a duplicate, or longer, changes nothing. */
  lemma ClaimManyIs(s: State, users: seq<Address>)
    requires Inv(s) && s.minted <= I128_MAX && !s.cfg.mode.FullyPaused?
    ensures ClaimMany(s, users).Ok? <==> |users| <= MAX_CLAIM_BATCH_SIZE && Distinct(users)
    ensures ClaimMany(s, users).Ok? ==>
              && ClaimMany(s, users).value.0 == Run(s, Singles(users)) == AfterClaims(s, SetOf(users))
              && ClaimMany(s, users).value.1 == seq(|users|, i requires 0 <= i < |users| => PendingOf(s.purse, users[i]))
    ensures ClaimMany(s, users).Err? ==> Apply(s, DoClaimMany(users)) == s
  {
    if Distinct(users) {
      forall u | u in users ensures ClaimOne(s, u).Ok? { ClaimSafe(s, u); }
      ClaimAllIs(s, users);
      BatchIsSingles(s, users);
    }
  }
}
