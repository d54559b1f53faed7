/** What the ledger's books are worth: the sums behind every account, and how the building
    blocks of the entrypoints change them. */
module Books {
  import opened Types
  import opened Arith
  import opened Sums
  import opened Shares
  import opened Engine
  import opened Ledger

  // ----- recorded stakes -----

  predicate InBook(b: Book, k: Key) {
    k in b.positions || k in b.predictions || k in b.commitments
  }

  /** The stake recorded under a key; a revealed commitment counts once. */
  function StakeAt(b: Book, k: Key): int {
    if k in b.positions then b.positions[k].amount
    else if k in b.predictions then b.predictions[k].amount
    else if k in b.commitments then b.commitments[k].amount
    else 0
  }

  ghost function Recorded(b: Book): map<Key, int> {
    map k | k in b.positions.Keys + b.predictions.Keys + b.commitments.Keys :: StakeAt(b, k)
  }

  ghost function RoundRecorded(b: Book, round: nat): map<Key, int> {
    map k | k in Recorded(b) && k.round == round :: StakeAt(b, k)
  }

  /** The Up/Down positions of a round, worth their stake on one side and 0 on the other. */
  ghost function SideRecorded(b: Book, round: nat, side: BetSide): map<Key, int> {
    map k | k in b.positions && k.round == round ::
      if b.positions[k].side == side then b.positions[k].amount else 0
  }

  ghost predicate Members(b: Book, round: nat, users: seq<Address>) {
    && Distinct(users)
    && (forall k :: InBook(b, k) && k.round == round ==> k.user in users)
    && (forall u :: u in users ==> InBook(b, Key(round, u)))
  }

  lemma MembersSorted(b: Book, round: nat, users: seq<Address>)
    requires Members(b, round, users)
    ensures Members(b, round, Sort(users)) && |Sort(users)| == |users|
    ensures forall u :: u in Sort(users) <==> u in users
  {
    SortKeepsMembers(users);
  }

  lemma ListedSum(b: Book, round: nat, users: seq<Address>, m: map<Key, int>, vals: seq<int>)
    requires Distinct(users) && |vals| == |users|
    requires forall k :: k in m <==> k.round == round && k.user in users
    requires forall i :: 0 <= i < |users| ==> m[Key(round, users[i])] == vals[i]
    ensures SumMap(m) == Sum(vals)
  {
    var keys := seq(|users|, i requires 0 <= i < |users| => Key(round, users[i]));
    forall k ensures k in m <==> k in keys {
      if k in m {
        var i :| 0 <= i < |users| && users[i] == k.user;
        assert keys[i] == k;
      }
    }
    SumMapListed(m, keys, vals);
  }

  /** In an Up/Down round every member has a position, so no entry is skipped. */
  lemma {:induction false} EntriesAligned(b: Book, round: nat, users: seq<Address>)
    requires forall u :: u in users ==> Key(round, u) in b.positions
    ensures var es := UpDownEntries(b, round, users);
            && |es| == |users|
            && forall i :: 0 <= i < |users| ==>
                 var p := b.positions[Key(round, users[i])];
                 es[i] == UpDownStake(users[i], p.amount, p.side)
  {
    if users != [] {
      var n := |users| - 1;
      assert users[n] in users;
      forall u | u in users[..n] ensures Key(round, u) in b.positions { assert u in users; }
      EntriesAligned(b, round, users[..n]);
    }
  }

  lemma UpDownRoundSums(b: Book, round: nat, users: seq<Address>)
    requires Members(b, round, users)
    requires forall k :: InBook(b, k) && k.round == round ==> k in b.positions
    ensures var es := UpDownEntries(b, round, users);
            && SumMap(RoundRecorded(b, round)) == Sum(UpDownAmounts(es))
            && SumMap(SideRecorded(b, round, Up)) == SideTotal(es, Up)
            && SumMap(SideRecorded(b, round, Down)) == SideTotal(es, Down)
  {
    EntriesAligned(b, round, users);
    var es := UpDownEntries(b, round, users);
    ListedSum(b, round, users, RoundRecorded(b, round), UpDownAmounts(es));
    ListedSum(b, round, users, SideRecorded(b, round, Up), SideAmounts(es, Up));
    ListedSum(b, round, users, SideRecorded(b, round, Down), SideAmounts(es, Down));
  }

  lemma PrecisionRoundSum(b: Book, round: nat, users: seq<Address>)
    requires Members(b, round, users)
    requires forall k :: InBook(b, k) && k.round == round ==> k !in b.positions
    ensures SumMap(RoundRecorded(b, round)) == Sum(PrecisionAmounts(PrecisionEntries(b, round, users)))
  {
    ListedSum(b, round, users, RoundRecorded(b, round), PrecisionAmounts(PrecisionEntries(b, round, users)));
  }

  // ----- clearing a round -----

  lemma ClearedBook(b: Book, round: nat, users: seq<Address>, k: Key)
    requires Members(b, round, users)
    ensures InBook(ClearUsers(b, round, users), k) <==> InBook(b, k) && k.round != round
    ensures k.round != round ==>
              var c := ClearUsers(b, round, users);
              && (k in c.positions <==> k in b.positions) && (k in c.predictions <==> k in b.predictions)
              && (k in c.commitments <==> k in b.commitments)
  {
    var gone := set u | u in users :: Key(round, u);
    assert k in gone <==> k.round == round && k.user in users by {
      if k.round == round && k.user in users { assert k == Key(round, k.user); }
    }
  }

  lemma ClearedSum(b: Book, round: nat, users: seq<Address>)
    requires Members(b, round, users)
    ensures SumMap(Recorded(ClearUsers(b, round, users))) == SumMap(Recorded(b)) - SumMap(RoundRecorded(b, round))
  {
    var c := ClearUsers(b, round, users);
    forall k ensures k in Recorded(c) <==> k in Recorded(b) && k.round != round {
      ClearedBook(b, round, users, k);
    }
    forall k | k in Recorded(c) ensures Recorded(c)[k] == Recorded(b)[k] {
      ClearedBook(b, round, users, k);
    }
    SumMapMinus(Recorded(b), RoundRecorded(b, round));
    assert Recorded(c) == Recorded(b) - RoundRecorded(b, round).Keys;
  }

  lemma ClearedSides(b: Book, round: nat, users: seq<Address>, r: nat, side: BetSide)
    requires Members(b, round, users) && r != round
    ensures SideRecorded(ClearUsers(b, round, users), r, side) == SideRecorded(b, r, side)
  {
    var c := ClearUsers(b, round, users);
    forall k: Key | k.round == r ensures k in c.positions <==> k in b.positions {
      ClearedBook(b, round, users, k);
    }
  }

  // ----- pending winnings -----

  ghost predicate PurseOk(p: Purse) {
    forall u :: u in p.amounts ==> p.amounts[u] >= 0
  }

  lemma AccumulateAdds(p: Purse, cap: Option<int>, now: nat, c: Credit)
    requires PurseOk(p) && c.amount >= 0 && Accumulate(p, cap, now, c).Ok?
    ensures PurseOk(Accumulate(p, cap, now, c).value)
    ensures SumMap(Accumulate(p, cap, now, c).value.amounts) == SumMap(p.amounts) + c.amount
  {
    SumMapUpdate(p.amounts, c.user, PendingOf(p, c.user) + c.amount);
  }

  lemma {:induction false} AccumulateAllAdds(p: Purse, cap: Option<int>, now: nat, credits: seq<Credit>)
    requires PurseOk(p) && AllNonNegative(Amounts(credits)) && AccumulateAll(p, cap, now, credits).Ok?
    ensures PurseOk(AccumulateAll(p, cap, now, credits).value)
    ensures SumMap(AccumulateAll(p, cap, now, credits).value.amounts) == SumMap(p.amounts) + Sum(Amounts(credits))
  {
    if credits != [] {
      var n := |credits| - 1;
      assert Amounts(credits)[..n] == Amounts(credits[..n]);
      assert Amounts(credits)[n] == credits[n].amount;
      assert AllNonNegative(Amounts(credits[..n])) by {
        forall i | 0 <= i < n ensures Amounts(credits[..n])[i] >= 0 { assert Amounts(credits)[i] >= 0; }
      }
      AccumulateAllAdds(p, cap, now, credits[..n]);
      AccumulateAdds(AccumulateAll(p, cap, now, credits[..n]).value, cap, now, credits[n]);
    }
  }

  /** While everything fits, the only way a credit can fail is the cap on pending winnings. */
  lemma {:induction false} OnlyTheCapFails(p: Purse, cap: Option<int>, now: nat, credits: seq<Credit>)
    requires PurseOk(p) && AllNonNegative(Amounts(credits))
    requires SumMap(p.amounts) + Sum(Amounts(credits)) <= I128_MAX
    ensures AccumulateAll(p, cap, now, credits).Err? ==>
              cap.Some? && AccumulateAll(p, cap, now, credits).error == PendingWinningsCapExceeded
  {
    if credits != [] {
      var n := |credits| - 1;
      assert Amounts(credits)[..n] == Amounts(credits[..n]);
      assert Amounts(credits)[n] == credits[n].amount;
      SumPrefix(Amounts(credits), n);
      forall i | 0 <= i < n ensures Amounts(credits[..n])[i] >= 0 { assert Amounts(credits)[i] >= 0; }
      OnlyTheCapFails(p, cap, now, credits[..n]);
      if AccumulateAll(p, cap, now, credits[..n]).Ok? {
        AccumulateAllAdds(p, cap, now, credits[..n]);
        var q := AccumulateAll(p, cap, now, credits[..n]).value;
        SumMapNonNegative(q.amounts);
        assert PendingOf(q, credits[n].user) <= SumMap(q.amounts);
      }
    }
  }

  lemma AmountsSnoc(cs: seq<Credit>, c: Credit)
    requires AllNonNegative(Amounts(cs)) && c.amount >= 0
    ensures AllNonNegative(Amounts(cs + [c]))
    ensures Sum(Amounts(cs + [c])) == Sum(Amounts(cs)) + c.amount
  {
    assert Amounts(cs + [c]) == Amounts(cs) + [c.amount];
    SumSnoc(Amounts(cs), c.amount);
  }

  lemma {:induction false} CreditsPay(outcomes: seq<UserRoundOutcome>)
    requires forall i :: 0 <= i < |outcomes| ==> outcomes[i].payout >= 0 && (outcomes[i].kind.Loss? ==> outcomes[i].payout == 0)
    ensures AllNonNegative(Amounts(Credits(outcomes)))
    ensures Sum(Amounts(Credits(outcomes))) == Paid(outcomes)
  {
    if outcomes != [] {
      var n := |outcomes| - 1;
      CreditsPay(outcomes[..n]);
      assert Payouts(outcomes)[..n] == Payouts(outcomes[..n]);
      var o := outcomes[n];
      assert o.payout >= 0;
      if o.kind.Loss? {
        assert Credits(outcomes) == Credits(outcomes[..n]);
      } else {
        AmountsSnoc(Credits(outcomes[..n]), Credit(o.user, o.payout));
      }
    }
  }

  lemma {:induction false} PersistAllKeys(m: map<Key, UserRoundOutcome>, round: nat, outcomes: seq<UserRoundOutcome>, k: Key)
    ensures var r := PersistAll(m, round, outcomes);
            && (k in r <==> k in m || (k.round == round && exists i :: 0 <= i < |outcomes| && outcomes[i].user == k.user))
            && (k in m ==> r[k] == m[k])
  {
    if outcomes != [] {
      var n := |outcomes| - 1;
      PersistAllKeys(m, round, outcomes[..n], k);
      assert (exists i :: 0 <= i < |outcomes| && outcomes[i].user == k.user)
        <==> (exists i :: 0 <= i < n && outcomes[..n][i].user == k.user) || outcomes[n].user == k.user by {
        if i :| 0 <= i < |outcomes| && outcomes[i].user == k.user {
          if i < n { assert outcomes[..n][i].user == k.user; }
        }
      }
    }
  }

  /** With one outcome per user and nothing recorded before, every outcome is what is kept. */
  lemma {:induction false} PersistAllAt(m: map<Key, UserRoundOutcome>, round: nat, outcomes: seq<UserRoundOutcome>, i: nat)
    requires i < |outcomes| && Key(round, outcomes[i].user) !in m
    requires forall a, b :: 0 <= a < b < |outcomes| ==> outcomes[a].user != outcomes[b].user
    ensures Key(round, outcomes[i].user) in PersistAll(m, round, outcomes)
    ensures PersistAll(m, round, outcomes)[Key(round, outcomes[i].user)] == outcomes[i]
  {
    var n := |outcomes| - 1;
    if i < n {
      PersistAllAt(m, round, outcomes[..n], i);
    } else {
      PersistAllKeys(m, round, outcomes[..n], Key(round, outcomes[i].user));
    }
  }

  // ----- fees -----

  lemma FeeCollected(s: State, fee: int)
    requires ValidConfig(s.cfg) && s.treasury >= 0 && s.fund >= 0 && fee >= 0 && CollectFee(s, fee).Ok?
    ensures var t := CollectFee(s, fee).value;
            && t == s.(treasury := t.treasury, fund := t.fund)
            && t.treasury >= s.treasury && t.fund >= s.fund
            && t.treasury + t.fund == s.treasury + s.fund + fee
  {
    BpsBounds(fee, s.cfg.insuranceSplitBps);
  }

  lemma FeeFits(s: State, fee: int)
    requires ValidConfig(s.cfg) && s.treasury >= 0 && s.fund >= 0
    requires 0 <= fee < MAX_POT && s.treasury + s.fund + fee <= I128_MAX
    ensures CollectFee(s, fee).Ok?
  {
    BpsBounds(fee, s.cfg.insuranceSplitBps);
    MulBound(fee, s.cfg.insuranceSplitBps, MAX_POT, BPS_DENOMINATOR);
  }

  // ----- what one user is credited -----

  function CreditedTo(credits: seq<Credit>, u: Address): int {
    if credits == [] then 0
    else
      var last := credits[|credits| - 1];
      CreditedTo(credits[..|credits| - 1], u) + if last.user == u then last.amount else 0
  }

  /** Crediting a list moves each user by the sum of that user's own credits. */
  lemma {:induction false} EachIsCredited(p: Purse, cap: Option<int>, now: nat, credits: seq<Credit>, u: Address)
    requires AccumulateAll(p, cap, now, credits).Ok?
    ensures PendingOf(AccumulateAll(p, cap, now, credits).value, u) == PendingOf(p, u) + CreditedTo(credits, u)
  {
    if credits != [] { EachIsCredited(p, cap, now, credits[..|credits| - 1], u); }
  }

  lemma CreditedSnoc(credits: seq<Credit>, c: Credit, u: Address)
    ensures CreditedTo(credits + [c], u) == CreditedTo(credits, u) + if c.user == u then c.amount else 0
  {
    assert (credits + [c])[..|credits|] == credits;
  }

  lemma {:induction false} NothingForOthers(outcomes: seq<UserRoundOutcome>, u: Address)
    requires forall j :: 0 <= j < |outcomes| ==> outcomes[j].user != u
    ensures CreditedTo(Credits(outcomes), u) == 0
  {
    if outcomes != [] {
      var n := |outcomes| - 1;
      NothingForOthers(outcomes[..n], u);
      CreditedSnoc(Credits(outcomes[..n]), Credit(outcomes[n].user, outcomes[n].payout), u);
      assert Credits(outcomes[..n]) + [] == Credits(outcomes[..n]);
    }
  }

  /** With one outcome per user, the credits of user `i` are outcome `i`. */
  lemma {:induction false} OwnCredit(outcomes: seq<UserRoundOutcome>, i: nat)
    requires i < |outcomes| && forall a, b :: 0 <= a < b < |outcomes| ==> outcomes[a].user != outcomes[b].user
    ensures CreditedTo(Credits(outcomes), outcomes[i].user) == if outcomes[i].kind.Loss? then 0 else outcomes[i].payout
  {
    var n := |outcomes| - 1;
    CreditedSnoc(Credits(outcomes[..n]), Credit(outcomes[n].user, outcomes[n].payout), outcomes[i].user);
    assert Credits(outcomes[..n]) + [] == Credits(outcomes[..n]);
    if i < n {
      OwnCredit(outcomes[..n], i);
    } else {
      NothingForOthers(outcomes[..n], outcomes[n].user);
    }
  }

  // ----- insurance coverage -----

  lemma {:induction false} CoverageCreditsAre(users: seq<Address>, stakes: seq<int>, total: int, spent: int)
    requires |users| <= |stakes| && total > 0 && spent >= 0
    requires forall i :: 0 <= i < |stakes| ==> stakes[i] > 0
    requires CoverageCredits(users, stakes, total, spent).Ok?
    ensures var cs := CoverageCredits(users, stakes, total, spent).value;
            && AllNonNegative(Amounts(cs))
            && Sum(Amounts(cs)) == Sum(SharesOf(stakes[..|users|], total, spent))
            && (forall c :: c in cs ==> exists i :: 0 <= i < |users| && c == Credit(users[i], Share(stakes[i], total, spent)))
  {
    if users != [] {
      var n := |users| - 1;
      CoverageCreditsAre(users[..n], stakes, total, spent);
      var front := CoverageCredits(users[..n], stakes, total, spent).value;
      var share := Share(stakes[n], total, spent);
      MulBound(spent, stakes[n], spent, stakes[n]);
      assert spent * stakes[n] == stakes[n] * spent;
      FloorBounds(stakes[n] * spent, total);
      assert SharesOf(stakes[..n + 1], total, spent)[..n] == SharesOf(stakes[..n], total, spent);
      var cs := CoverageCredits(users, stakes, total, spent).value;
      if share > 0 {
        AmountsSnoc(front, Credit(users[n], share));
      } else {
        assert cs == front;
      }
      forall c | c in cs
        ensures exists i :: 0 <= i < |users| && c == Credit(users[i], Share(stakes[i], total, spent))
      {
        if c in front {
          var i :| 0 <= i < n && c == Credit(users[..n][i], Share(stakes[i], total, spent));
          assert users[i] == users[..n][i];
        }
      }
    }
  }

  lemma {:induction false} NoCoverForOthers(users: seq<Address>, stakes: seq<int>, total: int, spent: int, u: Address)
    requires total != 0 && CoverageCredits(users, stakes, total, spent).Ok? && u !in users
    ensures CreditedTo(CoverageCredits(users, stakes, total, spent).value, u) == 0
  {
    if users != [] {
      var n := |users| - 1;
      NoCoverForOthers(users[..n], stakes, total, spent, u);
      var front := CoverageCredits(users[..n], stakes, total, spent).value;
      var share := CoverageShare(if n < |stakes| then stakes[n] else 0, total, spent).value;
      CreditedSnoc(front, Credit(users[n], share), u);
      assert front + [] == front;
    }
  }

  /** With each user named once, the coverage of user `i` is the share of stake `i`. */
  lemma {:induction false} OwnCover(users: seq<Address>, stakes: seq<int>, total: int, spent: int, i: nat)
    requires i < |users| <= |stakes| && Distinct(users) && total > 0 && spent >= 0
    requires forall j :: 0 <= j < |stakes| ==> stakes[j] > 0
    requires CoverageCredits(users, stakes, total, spent).Ok?
    ensures CreditedTo(CoverageCredits(users, stakes, total, spent).value, users[i]) == Share(stakes[i], total, spent)
  {
    var n := |users| - 1;
    var front := CoverageCredits(users[..n], stakes, total, spent).value;
    MulBound(spent, stakes[n], spent, stakes[n]);
    assert spent * stakes[n] == stakes[n] * spent;
    FloorBounds(stakes[n] * spent, total);
    CreditedSnoc(front, Credit(users[n], Share(stakes[n], total, spent)), users[i]);
    assert front + [] == front;
    if i < n {
      OwnCover(users[..n], stakes, total, spent, i);
    } else {
      NoCoverForOthers(users[..n], stakes, total, spent, users[n]);
    }
  }

  lemma {:induction false} CoverageTotalBound(stakes: seq<int>, bps: nat)
    requires AllNonNegative(stakes) && bps <= BPS_DENOMINATOR && CoverageTotal(stakes, bps).Ok?
    ensures 0 <= BPS_DENOMINATOR * CoverageTotal(stakes, bps).value <= bps * Sum(stakes)
    ensures CoverageTotal(stakes, bps).value <= Sum(stakes)
  {
    if stakes != [] {
      var n := |stakes| - 1;
      CoverageTotalBound(stakes[..n], bps);
      MulBound(stakes[n], bps, stakes[n], BPS_DENOMINATOR);
      FloorBounds(stakes[n] * bps, BPS_DENOMINATOR);
      SumNonNegative(stakes);
      assert bps * (Sum(stakes[..n]) + stakes[n]) == bps * Sum(stakes[..n]) + stakes[n] * bps;
      BpsBounds(stakes[n], bps);
    } else {
      assert bps * 0 == 0;
    }
  }

  lemma {:induction false} StakeTotalIs(stakes: seq<int>)
    requires AllNonNegative(stakes) && Sum(stakes) <= I128_MAX
    ensures StakeTotal(stakes) == Sum(stakes)
  {
    if stakes != [] {
      SumPrefix(stakes, |stakes| - 1);
      StakeTotalIs(stakes[..|stakes| - 1]);
    }
  }

  /** Insurance coverage: no more than the fund is spent, less than one unit per participant
      is lost to rounding, and nobody is covered beyond the configured rate on the own stake. */
  lemma CoverageFair(users: seq<Address>, stakes: seq<int>, bps: nat, fund: int)
    requires |users| == |stakes| && 0 < bps <= BPS_DENOMINATOR && fund >= 0
    requires forall i :: 0 <= i < |stakes| ==> stakes[i] > 0
    requires Sum(stakes) <= I128_MAX && Coverage(users, stakes, bps, fund).Ok?
    ensures var c := Coverage(users, stakes, bps, fund).value;
            && 0 <= c.spent <= fund
            && AllNonNegative(Amounts(c.credits))
            && 0 <= c.spent - Sum(Amounts(c.credits)) <= |users|
            && (users != [] ==> c.spent - Sum(Amounts(c.credits)) < |users|)
            && (forall x :: x in c.credits ==>
                  exists i :: 0 <= i < |users| && x.user == users[i] && x.amount <= Bps(stakes[i], bps))
    ensures var c := Coverage(users, stakes, bps, fund).value;
            && (forall u :: u !in users ==> CreditedTo(c.credits, u) == 0)
            && (Distinct(users) ==> forall i :: 0 <= i < |users| ==> 0 <= CreditedTo(c.credits, users[i]) <= Bps(stakes[i], bps))
  {
    CoverageEach(users, stakes, bps, fund);
    CoverageTotalBound(stakes, bps);
    StakeTotalIs(stakes);
    SumNonNegative(stakes);
    var c := Coverage(users, stakes, bps, fund).value;
    if c.spent > 0 {
      if stakes != [] { assert stakes[0] > 0; }
      var total := Sum(stakes);
      CoverageCreditsAre(users, stakes, total, c.spent);
      assert stakes[..|users|] == stakes;
      SharesOfWhole(stakes, total, c.spent);
      PositiveSome(stakes);
      forall x | x in c.credits
        ensures exists i :: 0 <= i < |users| && x.user == users[i] && x.amount <= Bps(stakes[i], bps)
      {
        var i :| 0 <= i < |users| && x == Credit(users[i], Share(stakes[i], total, c.spent));
        ShareBelowRate(stakes[i], total, c.spent, bps);
      }
    }
  }

  /** What one user gets in all, not only in each credit. */
  lemma CoverageEach(users: seq<Address>, stakes: seq<int>, bps: nat, fund: int)
    requires |users| == |stakes| && 0 < bps <= BPS_DENOMINATOR && fund >= 0
    requires forall i :: 0 <= i < |stakes| ==> stakes[i] > 0
    requires Sum(stakes) <= I128_MAX && Coverage(users, stakes, bps, fund).Ok?
    ensures var c := Coverage(users, stakes, bps, fund).value;
            && (forall u :: u !in users ==> CreditedTo(c.credits, u) == 0)
            && (Distinct(users) ==> forall i :: 0 <= i < |users| ==> 0 <= CreditedTo(c.credits, users[i]) <= Bps(stakes[i], bps))
  {
    CoverageTotalBound(stakes, bps);
    StakeTotalIs(stakes);
    SumNonNegative(stakes);
    var spent, total := Coverage(users, stakes, bps, fund).value.spent, Sum(stakes);
    if spent > 0 {
      if stakes != [] { assert stakes[0] > 0; }
      forall u | u !in users ensures CreditedTo(CoverageCredits(users, stakes, total, spent).value, u) == 0 {
        NoCoverForOthers(users, stakes, total, spent, u);
      }
      if Distinct(users) {
        forall i | 0 <= i < |users|
          ensures 0 <= CreditedTo(CoverageCredits(users, stakes, total, spent).value, users[i]) <= Bps(stakes[i], bps)
        {
          OwnCover(users, stakes, total, spent, i);
          ShareBelowRate(stakes[i], total, spent, bps);
          MulBound(stakes[i], spent, stakes[i], spent);
          FloorBounds(stakes[i] * spent, total);
        }
      }
    } else {
      forall i | 0 <= i < |users| ensures 0 <= Bps(stakes[i], bps) { BpsBounds(stakes[i], bps); }
    }
  }

  /** A proportional share of a sum that is itself below the rate stays below the rate. */
  lemma ShareBelowRate(stake: int, total: int, spent: int, bps: nat)
    requires stake > 0 && total > 0 && spent >= 0
    requires BPS_DENOMINATOR * spent <= bps * total
    ensures Share(stake, total, spent) <= Bps(stake, bps)
  {
    MulBound(stake, spent, stake, spent);
    MulBound(stake, bps, stake, bps);
    FloorBounds(stake * spent, total);
    FloorBounds(stake * bps, BPS_DENOMINATOR);
    var q := Share(stake, total, spent);
    MulMono(BPS_DENOMINATOR * spent, bps * total, stake);
    assert total * (BPS_DENOMINATOR * q) <= total * (stake * bps) by {
      assert total * (BPS_DENOMINATOR * q) == BPS_DENOMINATOR * (total * q);
      assert stake * (BPS_DENOMINATOR * spent) == BPS_DENOMINATOR * (stake * spent);
      assert stake * (bps * total) == total * (stake * bps);
    }
    if BPS_DENOMINATOR * q > stake * bps { MulMono(stake * bps + 1, BPS_DENOMINATOR * q, total); }
    FloorAtMost(BPS_DENOMINATOR * q, BPS_DENOMINATOR, q);
    FloorMono(BPS_DENOMINATOR * q, stake * bps, BPS_DENOMINATOR);
    FloorBounds(BPS_DENOMINATOR * q, BPS_DENOMINATOR);
  }
}
