/** What the one-pass settlement loops know after each participant, and why that is enough. */
module Streaming {
  import opened Types
  import opened Arith
  import opened Engine
  import opened Ledger
  import opened Books

  // ----- crediting along a list -----

  lemma CreditsSnoc(outcomes: seq<UserRoundOutcome>, i: nat)
    requires i < |outcomes|
    ensures Credits(outcomes[..i + 1])
         == Credits(outcomes[..i]) + if outcomes[i].kind.Loss? then [] else [Credit(outcomes[i].user, outcomes[i].payout)]
  {
    assert outcomes[..i + 1][..i] == outcomes[..i];
  }

  lemma PersistSnoc(m: map<Key, UserRoundOutcome>, round: nat, outcomes: seq<UserRoundOutcome>, i: nat)
    requires i < |outcomes|
    ensures PersistAll(m, round, outcomes[..i + 1]) == Persist(PersistAll(m, round, outcomes[..i]), round, outcomes[i])
  {
    assert outcomes[..i + 1][..i] == outcomes[..i];
  }

  lemma AccumulateSnoc(p: Purse, cap: Option<int>, now: nat, credits: seq<Credit>, c: Credit)
    ensures AccumulateAll(p, cap, now, credits + [c])
         == var q := AccumulateAll(p, cap, now, credits);
            if q.Ok? then Accumulate(q.value, cap, now, c) else q
  {
    assert (credits + [c])[..|credits|] == credits;
  }

  /** The first credit that fails decides the result of the whole list. */
  lemma {:induction false} FailureStays(p: Purse, cap: Option<int>, now: nat, credits: seq<Credit>, n: nat)
    requires n <= |credits| && AccumulateAll(p, cap, now, credits[..n]).Err?
    ensures AccumulateAll(p, cap, now, credits) == AccumulateAll(p, cap, now, credits[..n])
    decreases |credits| - n
  {
    if n == |credits| {
      assert credits[..n] == credits;
    } else {
      assert credits[..n + 1] == credits[..n] + [credits[n]];
      AccumulateSnoc(p, cap, now, credits[..n], credits[n]);
      FailureStays(p, cap, now, credits, n + 1);
    }
  }

  lemma {:induction false} CreditsPrefix(outcomes: seq<UserRoundOutcome>, i: nat)
    requires i <= |outcomes|
    ensures Credits(outcomes[..i]) <= Credits(outcomes)
    decreases |outcomes| - i
  {
    if i == |outcomes| {
      assert outcomes[..i] == outcomes;
    } else {
      CreditsSnoc(outcomes, i);
      CreditsPrefix(outcomes, i + 1);
    }
  }

  /** If crediting fails on the way, it fails for the whole list in the same way. */
  lemma PayOutStops(p: Purse, cap: Option<int>, now: nat, outcomes: seq<UserRoundOutcome>, i: nat)
    requires i <= |outcomes| && AccumulateAll(p, cap, now, Credits(outcomes[..i])).Err?
    ensures AccumulateAll(p, cap, now, Credits(outcomes)) == AccumulateAll(p, cap, now, Credits(outcomes[..i]))
  {
    CreditsPrefix(outcomes, i);
    var n := |Credits(outcomes[..i])|;
    assert Credits(outcomes)[..n] == Credits(outcomes[..i]);
    FailureStays(p, cap, now, Credits(outcomes), n);
  }

  // ----- recording in another order -----

  lemma {:induction false} PersistAllFrom(m: map<Key, UserRoundOutcome>, round: nat, outcomes: seq<UserRoundOutcome>, k: Key)
    requires k in PersistAll(m, round, outcomes) && k !in m
    ensures k.round == round
    ensures exists i :: 0 <= i < |outcomes| && outcomes[i].user == k.user && PersistAll(m, round, outcomes)[k] == outcomes[i]
  {
    var n := |outcomes| - 1;
    var front := PersistAll(m, round, outcomes[..n]);
    if k in front {
      PersistAllFrom(m, round, outcomes[..n], k);
      var i :| 0 <= i < n && outcomes[..n][i].user == k.user && front[k] == outcomes[..n][i];
      assert outcomes[i].user == k.user;
    } else {
      assert outcomes[n].user == k.user;
    }
  }

  /** With one outcome per user, recording first some and then the others records them all. */
  lemma PersistInTwo(m: map<Key, UserRoundOutcome>, round: nat, outcomes: seq<UserRoundOutcome>,
                     first: seq<UserRoundOutcome>, second: seq<UserRoundOutcome>)
    requires forall a, b :: 0 <= a < b < |outcomes| ==> outcomes[a].user != outcomes[b].user
    requires forall o :: o in first || o in second <==> o in outcomes
    ensures PersistAll(PersistAll(m, round, first), round, second) == PersistAll(m, round, outcomes)
  {
    var mid := PersistAll(m, round, first);
    var l, r := PersistAll(mid, round, second), PersistAll(m, round, outcomes);
    forall k ensures k in l <==> k in r {
      SameKeysInTwo(m, round, outcomes, first, second, k);
    }
    forall k | k in l ensures l[k] == r[k] {
      PersistAllKeys(mid, round, second, k);
      PersistAllKeys(m, round, first, k);
      PersistAllKeys(m, round, outcomes, k);
      if k !in m {
        PersistAllFrom(m, round, outcomes, k);
        if k in mid { PersistAllFrom(m, round, first, k); } else { PersistAllFrom(mid, round, second, k); }
        assert l[k] in outcomes && r[k] in outcomes && l[k].user == r[k].user;
      }
    }
  }

  lemma SameKeysInTwo(m: map<Key, UserRoundOutcome>, round: nat, outcomes: seq<UserRoundOutcome>,
                      first: seq<UserRoundOutcome>, second: seq<UserRoundOutcome>, k: Key)
    requires forall o :: o in first || o in second <==> o in outcomes
    ensures k in PersistAll(PersistAll(m, round, first), round, second) <==> k in PersistAll(m, round, outcomes)
  {
    PersistAllKeys(m, round, first, k);
    PersistAllKeys(PersistAll(m, round, first), round, second, k);
    PersistAllKeys(m, round, outcomes, k);
    if i :| 0 <= i < |first| && first[i].user == k.user { assert first[i] in outcomes; }
    if i :| 0 <= i < |second| && second[i].user == k.user { assert second[i] in outcomes; }
    if i :| 0 <= i < |outcomes| && outcomes[i].user == k.user { assert outcomes[i] in first || outcomes[i] in second; }
  }

  // ----- the closest-guess scan -----

  /** The stakes whose mask bit is set, in order. */
  function Picked(es: seq<PrecisionStake>, mask: seq<bool>): seq<PrecisionStake>
    requires |mask| <= |es|
  {
    if mask == [] then []
    else
      var n := |mask| - 1;
      Picked(es, mask[..n]) + if mask[n] then [es[n]] else []
  }

  /** After `|mask|` participants: the least distance among those that revealed, the mask of
      those that attain it, and the list of them. */
  ghost predicate Scanned(es: seq<PrecisionStake>, final: nat, least: Option<nat>, mask: seq<bool>, winners: seq<PrecisionStake>) {
    && |mask| <= |es|
    && (least.None? <==> forall i :: 0 <= i < |mask| ==> !es[i].revealed)
    && (forall i :: 0 <= i < |mask| && es[i].revealed ==> least.value <= Distance(es[i].price, final))
    && (least.Some? ==> exists i :: 0 <= i < |mask| && es[i].revealed && Distance(es[i].price, final) == least.value)
    && (forall i :: 0 <= i < |mask| ==> (mask[i] <==> es[i].revealed && Distance(es[i].price, final) == least.value))
    && winners == Picked(es, mask)
  }

  lemma {:induction false} PickedNone(es: seq<PrecisionStake>, mask: seq<bool>)
    requires |mask| <= |es| && forall i :: 0 <= i < |mask| ==> !mask[i]
    ensures Picked(es, mask) == []
  {
    if mask != [] { PickedNone(es, mask[..|mask| - 1]); }
  }

  lemma PickedSnoc(es: seq<PrecisionStake>, mask: seq<bool>, b: bool)
    requires |mask| < |es|
    ensures Picked(es, mask + [b]) == Picked(es, mask) + if b then [es[|mask|]] else []
  {
    assert (mask + [b])[..|mask|] == mask;
  }

  function AllFalse(n: nat): seq<bool> {
    seq(n, _ => false)
  }

  /** A commitment that was never revealed, or a worse guess, changes nothing. */
  lemma ScanSkips(es: seq<PrecisionStake>, final: nat, least: Option<nat>, mask: seq<bool>, winners: seq<PrecisionStake>)
    requires |mask| < |es| && Scanned(es, final, least, mask, winners)
    requires es[|mask|].revealed ==> least.Some? && Distance(es[|mask|].price, final) > least.value
    ensures Scanned(es, final, least, mask + [false], winners)
  {
    PickedSnoc(es, mask, false);
  }

  /** An equally good guess joins the winners. */
  lemma ScanTies(es: seq<PrecisionStake>, final: nat, least: Option<nat>, mask: seq<bool>, winners: seq<PrecisionStake>)
    requires |mask| < |es| && Scanned(es, final, least, mask, winners)
    requires es[|mask|].revealed && least == Some(Distance(es[|mask|].price, final))
    ensures Scanned(es, final, least, mask + [true], winners + [es[|mask|]])
  {
    PickedSnoc(es, mask, true);
  }

  /** A better guess replaces them all. */
  lemma ScanImproves(es: seq<PrecisionStake>, final: nat, least: Option<nat>, mask: seq<bool>, winners: seq<PrecisionStake>)
    requires |mask| < |es| && Scanned(es, final, least, mask, winners)
    requires es[|mask|].revealed && (least.None? || Distance(es[|mask|].price, final) < least.value)
    ensures Scanned(es, final, Some(Distance(es[|mask|].price, final)), AllFalse(|mask|) + [true], [es[|mask|]])
  {
    var none := AllFalse(|mask|);
    PickedSnoc(es, none, true);
    PickedNone(es, none);
    assert (none + [true])[|mask|];
  }

  lemma CheckedSumSnoc(s: seq<int>, x: int)
    ensures CheckedSum(s + [x]) == var r := CheckedSum(s); if r.Ok? then Checked(r.value + x, PayoutOverflow) else r
  {
    assert (s + [x])[..|s|] == s;
  }

  lemma {:induction false} CheckedSumStops(s: seq<int>, n: nat)
    requires n <= |s| && CheckedSum(s[..n]).Err?
    ensures CheckedSum(s) == Err(PayoutOverflow)
    decreases |s| - n
  {
    CheckedSumIs(s[..n]);
    if n == |s| {
      assert s[..n] == s;
    } else {
      assert s[..n + 1] == s[..n] + [s[n]];
      CheckedSumSnoc(s[..n], s[n]);
      CheckedSumStops(s, n + 1);
    }
  }

  /** At the end the mask marks exactly the winners, and the list is the winners in order. */
  lemma {:induction false} PickedAreWinners(es: seq<PrecisionStake>, final: nat, mask: seq<bool>, n: nat)
    requires n <= |mask| <= |es| && forall i :: 0 <= i < n ==> (mask[i] <==> Wins(es, i, final))
    ensures var w := WinnersBelow(es, final, n);
            && |Picked(es, mask[..n])| == |w|
            && forall j :: 0 <= j < |w| ==> w[j] < n && Picked(es, mask[..n])[j] == es[w[j]]
  {
    if n > 0 {
      PickedAreWinners(es, final, mask, n - 1);
      assert mask[..n][..n - 1] == mask[..n - 1];
    }
  }

  /** The mask marks exactly the winning positions, and the list holds them in order. */
  ghost predicate MarksWinners(es: seq<PrecisionStake>, final: nat, mask: seq<bool>, winners: seq<PrecisionStake>) {
    var w := Winners(es, final);
    && |mask| == |es| && |winners| == |w|
    && (forall i :: 0 <= i < |es| ==> (mask[i] <==> Wins(es, i, final)))
    && forall j :: 0 <= j < |w| ==> w[j] < |es| && winners[j] == es[w[j]]
  }

  lemma ScanFindsWinners(es: seq<PrecisionStake>, final: nat, least: Option<nat>, mask: seq<bool>, winners: seq<PrecisionStake>)
    requires Scanned(es, final, least, mask, winners) && |mask| == |es|
    ensures MarksWinners(es, final, mask, winners)
    ensures PrecisionAmounts(winners) == AmountsAt(es, Winners(es, final))
  {
    forall i | 0 <= i < |es| ensures mask[i] <==> Wins(es, i, final) {
      if least.Some? {
        var j :| 0 <= j < |mask| && es[j].revealed && Distance(es[j].price, final) == least.value;
      }
    }
    PickedAreWinners(es, final, mask, |es|);
    assert mask[..|es|] == mask;
  }

  // ----- paying the winners first -----

  /** The winners' outcomes, in the order of the winner list. */
  function WinnerOutcomes(winners: seq<PrecisionStake>, pays: seq<int>): seq<UserRoundOutcome>
    requires |winners| == |pays|
  {
    seq(|winners|, j requires 0 <= j < |winners| => PrecisionOutcome(winners[j], pays[j], Win))
  }

  function LoserOutcomes(es: seq<PrecisionStake>, mask: seq<bool>): seq<UserRoundOutcome>
    requires |mask| <= |es|
  {
    if mask == [] then []
    else
      var n := |mask| - 1;
      LoserOutcomes(es, mask[..n]) + if mask[n] then [] else [PrecisionOutcome(es[n], 0, Loss)]
  }

  lemma {:induction false} LosersIn(es: seq<PrecisionStake>, mask: seq<bool>, o: UserRoundOutcome)
    requires |mask| <= |es|
    ensures o in LoserOutcomes(es, mask) <==>
              exists i :: 0 <= i < |mask| && !mask[i] && o == PrecisionOutcome(es[i], 0, Loss)
  {
    if mask != [] {
      var n := |mask| - 1;
      LosersIn(es, mask[..n], o);
      if i :| 0 <= i < |mask| && !mask[i] && o == PrecisionOutcome(es[i], 0, Loss) {
        assert i < n ==> !mask[..n][i];
      }
      if o in LoserOutcomes(es, mask[..n]) {
        var i :| 0 <= i < n && !mask[..n][i] && o == PrecisionOutcome(es[i], 0, Loss);
        assert !mask[i];
      }
    }
  }

  lemma {:induction false} NoCredits(outcomes: seq<UserRoundOutcome>)
    requires forall i :: 0 <= i < |outcomes| ==> outcomes[i].kind.Loss?
    ensures Credits(outcomes) == []
  {
    if outcomes != [] { NoCredits(outcomes[..|outcomes| - 1]); }
  }

  /** Crediting along the participant list is crediting the winner list. */
  lemma {:induction false} PrizeCredits(es: seq<PrecisionStake>, final: nat, pays: seq<int>, winners: seq<PrecisionStake>, n: nat)
    requires n <= |es| && |pays| == |winners| == |Winners(es, final)|
    requires var w := Winners(es, final); forall j :: 0 <= j < |w| ==> w[j] < |es| && winners[j] == es[w[j]]
    ensures |WinnersBelow(es, final, n)| <= |winners|
    ensures Credits(Prizes(es, final, pays)[..n]) == Credits(WinnerOutcomes(winners, pays)[..|WinnersBelow(es, final, n)|])
  {
    WinnersGrow(es, final, n);
    if n > 0 {
      PrizeCredits(es, final, pays, winners, n - 1);
      CreditsSnoc(Prizes(es, final, pays), n - 1);
      if Wins(es, n - 1, final) {
        RankOf(es, final, n - 1);
        CreditsSnoc(WinnerOutcomes(winners, pays), |WinnersBelow(es, final, n - 1)|);
      }
    }
  }

  lemma PrizesSplit(es: seq<PrecisionStake>, final: nat, pays: seq<int>, winners: seq<PrecisionStake>, mask: seq<bool>, o: UserRoundOutcome)
    requires MarksWinners(es, final, mask, winners) && |pays| == |winners|
    ensures o in WinnerOutcomes(winners, pays) || o in LoserOutcomes(es, mask) <==> o in Prizes(es, final, pays)
  {
    LosersIn(es, mask, o);
    if o in WinnerOutcomes(winners, pays) { WinnerHasPrize(es, final, pays, winners, mask, o); }
    if o in LoserOutcomes(es, mask) {
      var i :| 0 <= i < |mask| && !mask[i] && o == PrecisionOutcome(es[i], 0, Loss);
      assert Prizes(es, final, pays)[i] == o;
    }
    if o in Prizes(es, final, pays) { PrizeIsSplit(es, final, pays, winners, mask, o); }
  }

  lemma WinnerHasPrize(es: seq<PrecisionStake>, final: nat, pays: seq<int>, winners: seq<PrecisionStake>, mask: seq<bool>, o: UserRoundOutcome)
    requires MarksWinners(es, final, mask, winners) && |pays| == |winners| && o in WinnerOutcomes(winners, pays)
    ensures o in Prizes(es, final, pays)
  {
    WinnersBelowFacts(es, final, |es|);
    var j :| 0 <= j < |winners| && o == PrecisionOutcome(winners[j], pays[j], Win);
    RankAt(es, final, j);
    assert Prizes(es, final, pays)[Winners(es, final)[j]] == o;
  }

  lemma PrizeIsSplit(es: seq<PrecisionStake>, final: nat, pays: seq<int>, winners: seq<PrecisionStake>, mask: seq<bool>, o: UserRoundOutcome)
    requires MarksWinners(es, final, mask, winners) && |pays| == |winners| && o in Prizes(es, final, pays)
    ensures o in WinnerOutcomes(winners, pays) || o in LoserOutcomes(es, mask)
  {
    LosersIn(es, mask, o);
    var i :| 0 <= i < |es| && o == Prizes(es, final, pays)[i];
    if Wins(es, i, final) {
      RankOf(es, final, i);
      assert WinnerOutcomes(winners, pays)[|WinnersBelow(es, final, i)|] == o;
    }
  }

  /** The rank of the `j`-th winner is `j`. */
  lemma RankAt(es: seq<PrecisionStake>, final: nat, j: nat)
    requires j < |Winners(es, final)|
    ensures var i := Winners(es, final)[j];
            i < |es| && Wins(es, i, final) && |WinnersBelow(es, final, i)| == j
  {
    WinnersBelowFacts(es, final, |es|);
    var w := Winners(es, final);
    assert w[j] in w;
    RankOf(es, final, w[j]);
    var r := |WinnersBelow(es, final, w[j])|;
    assert w[r] == w[j];
  }

  /** Winners first and losers after them, or everybody in address order: the same records
      and the same credits. */
  lemma WinnersFirst(m: map<Key, UserRoundOutcome>, round: nat, es: seq<PrecisionStake>, final: nat,
                     pays: seq<int>, winners: seq<PrecisionStake>, mask: seq<bool>)
    requires MarksWinners(es, final, mask, winners) && |pays| == |winners|
    requires forall a, b :: 0 <= a < b < |es| ==> es[a].user != es[b].user
    ensures Credits(Prizes(es, final, pays)) == Credits(WinnerOutcomes(winners, pays))
    ensures PersistAll(PersistAll(m, round, WinnerOutcomes(winners, pays)), round, LoserOutcomes(es, mask))
         == PersistAll(m, round, Prizes(es, final, pays))
  {
    PrizeCredits(es, final, pays, winners, |es|);
    assert Prizes(es, final, pays)[..|es|] == Prizes(es, final, pays);
    assert WinnerOutcomes(winners, pays)[..|winners|] == WinnerOutcomes(winners, pays);
    forall o ensures o in WinnerOutcomes(winners, pays) || o in LoserOutcomes(es, mask) <==> o in Prizes(es, final, pays) {
      PrizesSplit(es, final, pays, winners, mask, o);
    }
    PersistInTwo(m, round, Prizes(es, final, pays), WinnerOutcomes(winners, pays), LoserOutcomes(es, mask));
  }
}
