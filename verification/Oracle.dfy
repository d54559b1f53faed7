/** Choosing a settlement price: the median of many feeds and the window of recent prices
    (contracts/src/settlement.rs, contracts/src/settlement_math.rs). */
module Oracle {
  import opened Types
  import opened Arith
  import opened Sums

  // ----- counting -----

  /** How many elements pass the test. */
  function CountIf(s: seq<nat>, pass: nat -> bool): nat {
    if s == [] then 0 else CountIf(s[..|s| - 1], pass) + if pass(s[|s| - 1]) then 1 else 0
  }

  lemma {:induction false} CountIfConcat(s: seq<nat>, t: seq<nat>, pass: nat -> bool)
    ensures CountIf(s + t, pass) == CountIf(s, pass) + CountIf(t, pass)
  {
    if t == [] {
      assert s + t == s;
    } else {
      CountIfConcat(s, t[..|t| - 1], pass);
      assert (s + t)[..|s + t| - 1] == s + t[..|t| - 1];
    }
  }

  lemma {:induction false} CountIfInsert(x: nat, s: seq<nat>, pass: nat -> bool)
    ensures CountIf(Insert(x, s), pass) == CountIf(s, pass) + if pass(x) then 1 else 0
  {
    if s == [] {
      assert [x][..0] == [];
    } else if x < s[0] {
      CountIfConcat([x], s, pass);
      assert [x][..0] == [];
    } else {
      CountIfInsert(x, s[1..], pass);
      CountIfConcat([s[0]], Insert(x, s[1..]), pass);
      CountIfConcat([s[0]], s[1..], pass);
      assert s == [s[0]] + s[1..];
    }
  }

  /** Counting does not depend on the order. */
  lemma {:induction false} CountIfSort(s: seq<nat>, pass: nat -> bool)
    ensures CountIf(Sort(s), pass) == CountIf(s, pass)
  {
    if s != [] {
      CountIfSort(s[..|s| - 1], pass);
      CountIfInsert(s[|s| - 1], Sort(s[..|s| - 1]), pass);
    }
  }

  lemma {:induction false} CountIfBound(s: seq<nat>, pass: nat -> bool)
    ensures CountIf(s, pass) <= |s|
    ensures (forall i :: 0 <= i < |s| ==> !pass(s[i])) ==> CountIf(s, pass) == 0
  {
    if s != [] { CountIfBound(s[..|s| - 1], pass); }
  }

  // ----- sorting -----

  /** The inline sort's inner loop: before the first larger price. */
  method InsertPrice(sorted: seq<nat>, price: nat) returns (r: seq<nat>)
    ensures r == Insert(price, sorted)
  {
    for j := 0 to |sorted|
      invariant forall k :: 0 <= k < j ==> sorted[k] <= price
    {
      if price < sorted[j] {
        InsertedBefore(price, sorted, j);
        return sorted[..j] + [price] + sorted[j..];
      }
    }
    InsertedBefore(price, sorted, |sorted|);
    assert sorted[..|sorted|] == sorted && sorted[|sorted|..] == [];
    return sorted + [price];
  }

  lemma {:induction false} InsertedBefore(x: nat, s: seq<nat>, j: nat)
    requires j <= |s| && (forall k :: 0 <= k < j ==> s[k] <= x) && (j < |s| ==> x < s[j])
    ensures Insert(x, s) == s[..j] + [x] + s[j..]
  {
    if j > 0 {
      InsertedBefore(x, s[1..], j - 1);
      assert s[1..][..j - 1] == s[1..j] && s[1..][j - 1..] == s[j..] && [s[0]] + s[1..j] == s[..j];
    }
  }

  /** The sort inside `resolve_round_multi`. */
  method SortPrices(prices: seq<nat>) returns (sorted: seq<nat>)
    ensures sorted == Sort(prices)
  {
    sorted := [];
    for i := 0 to |prices|
      invariant sorted == Sort(prices[..i])
    {
      assert prices[..i + 1][..i] == prices[..i];
      sorted := InsertPrice(sorted, prices[i]);
    }
    assert prices[..|prices|] == prices;
  }

  /** `sort_prices_in_place`: the same order, by shifting within the slice. */
  method SortPricesInPlace(prices: array<nat>)
    modifies prices
    ensures prices[..] == Sort(old(prices[..]))
  {
    ghost var before := prices[..];
    if prices.Length == 0 {
      return;
    }
    assert prices[..1] == Sort(before[..1]) by { assert before[..1][..0] == []; }
    for i := 1 to prices.Length
      invariant prices[..i] == Sort(before[..i]) && prices[i..] == before[i..]
    {
      SortSorts(before[..i]);
      ShiftIntoPlace(prices, i);
      assert before[..i + 1][..i] == before[..i];
      assert prices[i + 1..] == before[i..][1..];
    }
    assert before[..prices.Length] == before;
  }

  /** One pass: the larger prices in front of position `i` move up by one. */
  method ShiftIntoPlace(prices: array<nat>, i: nat)
    requires i < prices.Length && Ascending(prices[..i])
    modifies prices
    ensures prices[..i + 1] == Insert(old(prices[i]), old(prices[..i]))
    ensures prices[i + 1..] == old(prices[i + 1..])
  {
    ghost var front := prices[..i];
    var key := prices[i];
    var j := i;
    while j > 0 && prices[j - 1] > key
      invariant j <= i
      invariant forall k :: 0 <= k < j ==> prices[k] == front[k]
      invariant forall k :: j < k <= i ==> prices[k] == front[k - 1]
      invariant forall k :: j <= k < i ==> front[k] > key
      invariant prices[i + 1..] == old(prices[i + 1..])
    {
      prices[j] := prices[j - 1];
      j := j - 1;
    }
    prices[j] := key;
    InsertedBefore(key, front, j);
    Spliced(prices[..i + 1], front, key, j);
  }

  lemma Spliced(after: seq<nat>, front: seq<nat>, key: nat, j: nat)
    requires j <= |front| && |after| == |front| + 1 && after[j] == key
    requires forall k :: 0 <= k < j ==> after[k] == front[k]
    requires forall k :: j < k < |after| ==> after[k] == front[k - 1]
    ensures after == front[..j] + [key] + front[j..]
  {
  }

  // ----- the median -----

  /** The median of sorted prices in `resolve_round_multi`. */
  function InlineMedian(s: seq<nat>): Result<nat>
    requires s != []
  {
    var n := |s|;
    if n % 2 == 1 then Ok(s[n / 2])
    else
      :- Need(s[n / 2 - 1] + s[n / 2] <= U128_MAX, Overflow);
      Ok((s[n / 2 - 1] + s[n / 2]) / 2)
  }

  /** `median_of_sorted` */
  function MedianOfSorted(s: seq<nat>): Option<nat> {
    var n := |s|;
    if n == 0 then None
    else if n % 2 == 1 then Some(s[n / 2])
    else
      var sum := s[n / 2 - 1] + s[n / 2];
      Some((if sum > U128_MAX then U128_MAX else sum) / 2)
  }

  function Inside(lo: nat, hi: nat): nat -> bool {
    (x: nat) => lo <= x <= hi
  }

  /** Prices on one side of the middle are too few to be outvoted. */
  lemma MiddleWithin(s: seq<nat>, lo: nat, hi: nat, k: nat)
    requires Ascending(s) && k < |s|
    requires CountIf(s, Inside(lo, hi)) > k && CountIf(s, Inside(lo, hi)) + k >= |s|
    ensures lo <= s[k] <= hi
  {
    if s[k] > hi {
      NoneAfter(s, k, Inside(lo, hi));
    } else if s[k] < lo {
      NoneBefore(s, k + 1, Inside(lo, hi));
    }
  }

  lemma NoneAfter(s: seq<nat>, k: nat, pass: nat -> bool)
    requires k <= |s| && forall i :: k <= i < |s| ==> !pass(s[i])
    ensures CountIf(s, pass) <= k
  {
    CountIfConcat(s[..k], s[k..], pass);
    assert s == s[..k] + s[k..];
    CountIfBound(s[..k], pass);
    CountIfBound(s[k..], pass);
  }

  lemma NoneBefore(s: seq<nat>, k: nat, pass: nat -> bool)
    requires k <= |s| && forall i :: 0 <= i < k ==> !pass(s[i])
    ensures CountIf(s, pass) <= |s| - k
  {
    CountIfConcat(s[..k], s[k..], pass);
    assert s == s[..k] + s[k..];
    CountIfBound(s[..k], pass);
    CountIfBound(s[k..], pass);
  }

  /** If strictly more than half of the observations lie in an interval, so does the median,
      for odd and for even counts, wherever the others are. */
  lemma MedianIsRobust(prices: seq<nat>, lo: nat, hi: nat)
    requires prices != [] && 2 * CountIf(prices, Inside(lo, hi)) > |prices|
    ensures |Sort(prices)| == |prices|
    ensures InlineMedian(Sort(prices)).Ok? ==> lo <= InlineMedian(Sort(prices)).value <= hi
  {
    SortSorts(prices);
    CountIfSort(prices, Inside(lo, hi));
    SortedMedian(Sort(prices), lo, hi);
  }

  lemma SortedMedian(s: seq<nat>, lo: nat, hi: nat)
    requires s != [] && Ascending(s) && 2 * CountIf(s, Inside(lo, hi)) > |s|
    ensures InlineMedian(s).Ok? ==> lo <= InlineMedian(s).value <= hi
  {
    MiddleWithin(s, lo, hi, |s| / 2);
    if |s| % 2 == 0 { MiddleWithin(s, lo, hi, |s| / 2 - 1); }
    MedianBetween(s, lo, hi);
  }

  lemma MedianBetween(s: seq<nat>, lo: nat, hi: nat)
    requires s != [] && lo <= s[|s| / 2] <= hi
    requires |s| % 2 == 0 ==> lo <= s[|s| / 2 - 1] <= hi
    ensures InlineMedian(s).Ok? ==> lo <= InlineMedian(s).value <= hi
  {
  }

  /** The two medians agree exactly when the two middle prices do not overflow; otherwise the
      inline one reports the overflow and the other saturates. */
  lemma MediansAgree(s: seq<nat>)
    requires s != []
    ensures MedianOfSorted(s).Some?
    ensures InlineMedian(s) == Ok(MedianOfSorted(s).value) <==> |s| % 2 == 1 || s[|s| / 2 - 1] + s[|s| / 2] <= U128_MAX
    ensures InlineMedian(s).Err? ==> MedianOfSorted(s) == Some(U128_MAX / 2)
  {
  }

  // ----- deviation, survivors and quorum -----

  const MAX_ORACLE_OBSERVATIONS: nat := 32

  datatype Quorum = Quorum(minObservations: nat, threshold: nat, outlierBps: nat)

  /** The guardrail against the round's start price; an armed override lets a price through. */
  datatype Guardrail = Guardrail(startPrice: nat, maxDeviationBps: Option<nat>, overrideArmed: bool)

  datatype Selection = Selection(price: nat, survivors: nat)

  /** `compute_deviation_bps` */
  function DeviationBps(price: nat, reference: nat): Result<nat> {
    if reference == 0 then Err(InvalidPrice)
    else
      :- Need(Distance(price, reference) * 10_000 <= U128_MAX, Overflow);
      var bps := Distance(price, reference) * 10_000 / reference;
      :- Need(bps <= U32_MAX, Overflow);
      Ok(bps)
  }

  function Guarded(g: Guardrail, median: nat): Guard {
    if g.maxDeviationBps.None? then Pass
    else
      var d := DeviationBps(median, g.startPrice);
      if d.Err? then Fail(d.error)
      else if d.value > g.maxDeviationBps.value && !g.overrideArmed then Fail(OracleDeviationExceeded)
      else Pass
  }

  predicate Measurable(median: nat, price: nat) {
    DeviationBps(price, median).Ok?
  }

  predicate Survives(median: nat, outlierBps: nat, price: nat) {
    var d := DeviationBps(price, median);
    d.Ok? && d.value <= outlierBps
  }

  function Surviving(median: nat, outlierBps: nat): nat -> bool {
    (x: nat) => Survives(median, outlierBps, x)
  }

  /** Survivors around a positive median; one price too far to measure fails the call. */
  function Survivors(prices: seq<nat>, median: nat, outlierBps: nat): Result<nat> {
    if forall i | 0 <= i < |prices| :: Measurable(median, prices[i]) then Ok(CountIf(prices, Surviving(median, outlierBps)))
    else Err(Overflow)
  }

  /** The price selection of `resolve_round_multi`. */
  function SelectPrice(prices: seq<nat>, sources: seq<nat>, q: Quorum, g: Guardrail): Result<Selection> {
    if !(q.minObservations <= |prices| <= MAX_ORACLE_OBSERVATIONS && prices != []) then Err(TooFewObservations)
    else
      :- Need(Distinct(sources), DuplicateOracleSource);
      SortSorts(prices);
      var median :- InlineMedian(Sort(prices));
      :- Need(median != 0, InvalidPrice);
      :- Guarded(g, median);
      var survivors :- Survivors(prices, median, q.outlierBps);
      :- Need(survivors >= q.threshold, InsufficientOracleQuorum);
      Ok(Selection(median, survivors))
  }

  /** The order in which observations arrive changes neither the price, nor the number of
      survivors, nor the error. */
  lemma SelectionIgnoresOrder(prices: seq<nat>, others: seq<nat>, sources: seq<nat>, otherSources: seq<nat>, q: Quorum, g: Guardrail)
    requires multiset(prices) == multiset(others) && multiset(sources) == multiset(otherSources)
    ensures SelectPrice(prices, sources, q, g) == SelectPrice(others, otherSources, q, g)
  {
    assert |multiset(prices)| == |prices| && |multiset(others)| == |others|;
    SortOfPermutation(prices, others);
    SortSorts(prices);
    DistinctMultiset(sources);
    DistinctMultiset(otherSources);
    if prices != [] && InlineMedian(Sort(prices)).Ok? {
      SurvivorsIgnoreOrder(prices, others, InlineMedian(Sort(prices)).value, q.outlierBps);
    }
  }

  lemma SurvivorsIgnoreOrder(prices: seq<nat>, others: seq<nat>, median: nat, outlierBps: nat)
    requires multiset(prices) == multiset(others)
    ensures Survivors(prices, median, outlierBps) == Survivors(others, median, outlierBps)
  {
    CountIfSort(prices, Surviving(median, outlierBps));
    CountIfSort(others, Surviving(median, outlierBps));
    SortOfPermutation(prices, others);
    forall x ensures x in prices <==> x in others {
      assert x in prices <==> x in multiset(prices);
      assert x in others <==> x in multiset(others);
    }
    assert forall i :: 0 <= i < |others| ==> others[i] in prices;
    assert forall i :: 0 <= i < |prices| ==> prices[i] in others;
  }

  /** A selected price is the median of at least the minimum number of observations, lies
      wherever most of them lie, and at least the quorum of them is close to it. */
  lemma SelectedPrice(prices: seq<nat>, sources: seq<nat>, q: Quorum, g: Guardrail, lo: nat, hi: nat)
    requires SelectPrice(prices, sources, q, g).Ok? && 2 * CountIf(prices, Inside(lo, hi)) > |prices|
    ensures var r := SelectPrice(prices, sources, q, g).value;
            && lo <= r.price <= hi && r.price > 0
            && q.threshold <= r.survivors == CountIf(prices, Surviving(r.price, q.outlierBps)) <= |prices|
  {
    SelectedParts(prices, sources, q, g);
    MedianIsRobust(prices, lo, hi);
    CountIfBound(prices, Surviving(SelectPrice(prices, sources, q, g).value.price, q.outlierBps));
  }

  lemma SelectedParts(prices: seq<nat>, sources: seq<nat>, q: Quorum, g: Guardrail)
    requires SelectPrice(prices, sources, q, g).Ok?
    ensures var r := SelectPrice(prices, sources, q, g).value;
            && prices != [] && |Sort(prices)| == |prices|
            && InlineMedian(Sort(prices)) == Ok(r.price) && r.price > 0
            && r.survivors == CountIf(prices, Surviving(r.price, q.outlierBps)) && q.threshold <= r.survivors
  {
    SortSorts(prices);
  }

  /** The duplicate check compares every source with every later one. */
  method HasDuplicate(sources: seq<nat>) returns (found: bool)
    ensures found <==> !Distinct(sources)
  {
    for i := 0 to |sources|
      invariant forall a, b :: 0 <= a < i && a < b < |sources| ==> sources[a] != sources[b]
    {
      for j := i + 1 to |sources|
        invariant forall b :: i < b < j ==> sources[i] != sources[b]
      {
        if sources[i] == sources[j] {
          return true;
        }
      }
    }
    return false;
  }

  method CountSurvivors(prices: seq<nat>, median: nat, outlierBps: nat) returns (r: Result<nat>)
    requires median != 0
    ensures r == Survivors(prices, median, outlierBps)
  {
    var survivors := 0;
    for i := 0 to |prices|
      invariant forall k :: 0 <= k < i ==> Measurable(median, prices[k])
      invariant survivors == CountIf(prices[..i], Surviving(median, outlierBps))
    {
      assert prices[..i + 1][..i] == prices[..i];
      var bps := DeviationBps(prices[i], median);
      if bps.Err? {
        assert !Measurable(median, prices[i]);
        return Err(bps.error);
      }
      if bps.value <= outlierBps {
        survivors := survivors + 1;
      }
    }
    assert prices[..|prices|] == prices;
    return Ok(survivors);
  }

  /** The price selection of `resolve_round_multi`, as its loops compute it. */
  method SelectMultiFeed(prices: seq<nat>, sources: seq<nat>, q: Quorum, g: Guardrail) returns (r: Result<Selection>)
    ensures r == SelectPrice(prices, sources, q, g)
  {
    if !(q.minObservations <= |prices| <= MAX_ORACLE_OBSERVATIONS && prices != []) {
      return Err(TooFewObservations);
    }
    var duplicate := HasDuplicate(sources);
    :- Need(!duplicate, DuplicateOracleSource);
    var sorted := SortPrices(prices);
    SortSorts(prices);
    var median :- InlineMedian(sorted);
    :- Need(median != 0, InvalidPrice);
    :- Guarded(g, median);
    var survivors := CountSurvivors(prices, median, q.outlierBps);
    if survivors.Err? {
      return Err(survivors.error);
    }
    :- Need(survivors.value >= q.threshold, InsufficientOracleQuorum);
    return Ok(Selection(median, survivors.value));
  }

  // ----- the window of recent prices -----

  const MAX_TWAP_WINDOW: nat := 64

  /** The last `n` of a list, or all of it if it is shorter. */
  function Last(s: seq<nat>, n: nat): seq<nat> {
    if |s| <= n then s else s[|s| - n..]
  }

  /** What the reference price of a window is, on the full history of recorded prices. */
  function WindowMean(history: seq<nat>, window: nat): Result<int> {
    if window == 0 || window > MAX_TWAP_WINDOW || window > |history| then Err(WindowOutOfRange)
    else
      var total := Sum(Last(history, window));
      if total > U128_MAX then Err(Overflow) else Ok(Quot(total, window))
  }

  /** The bounded ring of settlement prices; `history` is every price ever recorded. */
  class TwapRing {
    var samples: seq<nat>
    ghost var history: seq<nat>

    ghost predicate Valid()
      reads this
    {
      samples == Last(history, MAX_TWAP_WINDOW)
    }

    constructor ()
      ensures Valid() && history == []
    {
      samples, history := [], [];
    }

    /** `_record_twap_sample` */
    method Record(price: nat)
      requires Valid()
      modifies this
      ensures Valid() && history == old(history) + [price]
    {
      samples := samples + [price];
      history := history + [price];
      while |samples| > MAX_TWAP_WINDOW
        invariant history == old(history) + [price]
        invariant |samples| <= |history| && samples == Last(history, |samples|)
        invariant |samples| >= MAX_TWAP_WINDOW || samples == history
        decreases |samples|
      {
        samples := samples[1..];
      }
    }

    /** `_twap_reference_price` */
    method ReferencePrice(window: nat) returns (r: Result<int>)
      requires Valid()
      ensures r == WindowMean(history, window)
    {
      if window > |samples| {
        return Err(WindowOutOfRange);
      }
      assert samples[|samples| - window..] == Last(history, window);
      var sum := SumFrom(samples, |samples| - window);
      if sum.Err? {
        return Err(sum.error);
      }
      :- Need(window != 0, WindowOutOfRange);
      return Ok(Quot(sum.value, window));
    }
  }

  /** A checked u128 sum from position `start` to the end. */
  method SumFrom(samples: seq<nat>, start: nat) returns (r: Result<int>)
    requires start <= |samples|
    ensures r == if Sum(samples[start..]) > U128_MAX then Err(Overflow) else Ok(Sum(samples[start..]))
  {
    ghost var recent := samples[start..];
    var sum := 0;
    for i := start to |samples|
      invariant sum == Sum(recent[..i - start]) && 0 <= sum <= U128_MAX
    {
      assert recent[..i - start + 1] == recent[..i - start] + [samples[i]];
      SumSnoc(recent[..i - start], samples[i]);
      SumPrefix(recent, i - start + 1);
      :- Need(sum + samples[i] <= U128_MAX, Overflow);
      sum := sum + samples[i];
    }
    assert recent[..|samples| - start] == recent;
    return Ok(sum);
  }

  lemma {:induction false} SumBetween(s: seq<nat>, lo: nat, hi: nat)
    requires forall i :: 0 <= i < |s| ==> lo <= s[i] <= hi
    ensures lo * |s| <= Sum(s) <= hi * |s|
  {
    if s != [] {
      SumBetween(s[..|s| - 1], lo, hi);
      assert lo * |s| == lo * (|s| - 1) + lo && hi * |s| == hi * (|s| - 1) + hi;
    }
  }

  /** For every permitted window the reference price is the rounded-down mean of the last
      prices ever recorded, and lies between the least and the greatest of them. */
  lemma WindowMeanBounds(history: seq<nat>, window: nat, lo: nat, hi: nat)
    requires WindowMean(history, window).Ok?
    requires forall i :: |history| - window <= i < |history| && i >= 0 ==> lo <= history[i] <= hi
    ensures var mean := WindowMean(history, window).value;
            && lo <= mean <= hi
            && window * mean <= Sum(history[|history| - window..]) < window * mean + window
  {
    var recent := Last(history, window);
    assert recent == history[|history| - window..];
    SumBetween(recent, lo, hi);
    MeanBetween(Sum(recent), window, lo, hi);
  }

  lemma MeanBetween(sum: nat, count: nat, lo: nat, hi: nat)
    requires count > 0 && lo * count <= sum <= hi * count
    ensures lo <= sum / count <= hi
    ensures count * (sum / count) <= sum < count * (sum / count) + count
  {
    FloorBounds(sum, count);
    FloorAtMost(sum, count, hi);
    assert count * (hi + 1) == hi * count + count;
    if lo > 0 {
      FloorAtMost(sum, count, lo - 1);
      assert count * (lo - 1 + 1) == lo * count;
    }
  }
}
