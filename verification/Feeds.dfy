/** Which price a set of feeds selects, and which error it meets first, worked out from the
    observations alone. */
module Feeds {
  import opened Types
  import opened Arith
  import opened Sums
  import opened Oracle

  /** How many of the values are below the bound. */
  function HowMany(values: seq<nat>, bound: int): nat {
    if values == [] then 0
    else HowMany(values[..|values| - 1], bound) + if values[|values| - 1] < bound then 1 else 0
  }

  /** `x` is at place `k` in ascending order, counting from 0. */
  predicate IsAtRank(values: seq<nat>, k: int, x: nat) {
    x in values && HowMany(values, x) <= k < HowMany(values, x + 1)
  }

  /** `bps` is how far `price` lies from `reference`, in basis points of the reference, rounded down. */
  predicate IsDeviation(bps: nat, price: int, reference: int) {
    reference > 0 && IsFloor(bps, (if price >= reference then price - reference else reference - price) * 10_000, reference)
  }

  /** The deviation does not fit the integer widths it is computed in. */
  predicate TooFar(bps: nat, price: int, reference: int) {
    (if price >= reference then price - reference else reference - price) * 10_000 > U128_MAX || bps > U32_MAX
  }

  lemma DeviationIs(price: nat, reference: nat) returns (bps: nat)
    requires reference > 0
    ensures IsDeviation(bps, price, reference)
    ensures DeviationBps(price, reference) == if TooFar(bps, price, reference) then Err(Overflow) else Ok(bps)
  {
    var scaled := (if price >= reference then price - reference else reference - price) * 10_000;
    bps := Quot(scaled, reference);
    QuotIsFloor(scaled, reference);
    assert scaled == Distance(price, reference) * 10_000;
  }

  // ----- ranks -----

  lemma {:induction false} HowManyIsCount(values: seq<nat>, bound: int)
    ensures HowMany(values, bound) == CountIf(values, (x: nat) => x < bound)
  {
    if values != [] { HowManyIsCount(values[..|values| - 1], bound); }
  }

  lemma HowManySorted(values: seq<nat>, bound: int)
    ensures HowMany(Sort(values), bound) == HowMany(values, bound)
  {
    HowManyIsCount(values, bound);
    HowManyIsCount(Sort(values), bound);
    CountIfSort(values, (x: nat) => x < bound);
  }

  /** In an ascending list, as many values are below the bound as stand before the first that is not. */
  lemma {:induction false} HowManyAscending(s: seq<nat>, bound: int, k: nat)
    requires Ascending(s) && k <= |s|
    ensures k < |s| && s[k] >= bound ==> HowMany(s, bound) <= k
    ensures k > 0 && s[k - 1] < bound ==> HowMany(s, bound) >= k
    ensures HowMany(s, bound) <= |s|
  {
    if s != [] {
      var n := |s| - 1;
      HowManyAscending(s[..n], bound, if k < |s| then k else n);
    }
  }

  lemma RankOfSorted(values: seq<nat>, k: nat)
    requires k < |values|
    ensures |Sort(values)| == |values| && IsAtRank(values, k, Sort(values)[k])
  {
    var s := Sort(values);
    SortSorts(values);
    HowManyAscending(s, s[k], k);
    HowManyAscending(s, s[k] + 1, k + 1);
    HowManySorted(values, s[k]);
    HowManySorted(values, s[k] + 1);
    assert s[k] in multiset(values);
  }

  // ----- survivors -----

  lemma {:induction false} SurvivorsAre(prices: seq<nat>, median: nat, outlierBps: nat, far: seq<nat>)
    requires median > 0 && |far| == |prices|
    requires forall i :: 0 <= i < |prices| ==>
               IsDeviation(far[i], prices[i], median) && !TooFar(far[i], prices[i], median) && DeviationBps(prices[i], median) == Ok(far[i])
    ensures CountIf(prices, Surviving(median, outlierBps)) == HowMany(far, outlierBps + 1)
  {
    if prices != [] {
      var n := |prices| - 1;
      SurvivorsAre(prices[..n], median, outlierBps, far[..n]);
    }
  }

  lemma {:induction false} Deviations(prices: seq<nat>, median: nat) returns (far: seq<nat>)
    requires median > 0
    ensures |far| == |prices| && forall i :: 0 <= i < |prices| ==>
              && IsDeviation(far[i], prices[i], median)
              && DeviationBps(prices[i], median) == if TooFar(far[i], prices[i], median) then Err(Overflow) else Ok(far[i])
  {
    far := [];
    if prices != [] {
      var n := |prices| - 1;
      far := Deviations(prices[..n], median);
      var last := DeviationIs(prices[n], median);
      far := far + [last];
    }
  }

  // ----- the selection -----

  /** What the guardrail says of a price: an error, or nothing. `bps` is how far the price lies
      from the round's start price. */
  function GuardrailError(g: Guardrail, price: nat, bps: nat): Option<Error> {
    if g.maxDeviationBps.None? then None
    else if g.startPrice == 0 then Some(InvalidPrice)
    else if TooFar(bps, price, g.startPrice) then Some(Overflow)
    else if bps > g.maxDeviationBps.value && !g.overrideArmed then Some(OracleDeviationExceeded)
    else None
  }

  /** The price selection, with the two middle observations, the deviation of their mean from the
      start price and every observation's deviation from that mean. In this order: too few or too
      many observations, a repeated source, middle prices whose sum overflows, a price of zero,
      the guardrail, an observation too far to measure, a missed quorum; otherwise the mean of
      the middle observations is selected, with the number of observations close to it. */
  lemma SelectionVerdict(prices: seq<nat>, sources: seq<nat>, q: Quorum, g: Guardrail)
    returns (low: nat, high: nat, off: nat, far: seq<nat>)
    requires prices != []
    ensures IsAtRank(prices, (|prices| - 1) / 2, low) && IsAtRank(prices, |prices| / 2, high)
    ensures g.startPrice > 0 ==> IsDeviation(off, (low + high) / 2, g.startPrice)
    ensures (low + high) / 2 > 0 ==>
              |far| == |prices| && forall i :: 0 <= i < |prices| ==> IsDeviation(far[i], prices[i], (low + high) / 2)
    ensures var price := (low + high) / 2;
            SelectPrice(prices, sources, q, g) ==
              if |prices| < q.minObservations || |prices| > 32 then Err(TooFewObservations)
              else if exists i, j :: 0 <= i < j < |sources| && sources[i] == sources[j] then Err(DuplicateOracleSource)
              else if |prices| % 2 == 0 && low + high > U128_MAX then Err(Overflow)
              else if price == 0 then Err(InvalidPrice)
              else if GuardrailError(g, price, off).Some? then Err(GuardrailError(g, price, off).value)
              else if exists i :: 0 <= i < |prices| && TooFar(far[i], prices[i], price) then Err(Overflow)
              else if HowMany(far, q.outlierBps + 1) < q.threshold then Err(InsufficientOracleQuorum)
              else Ok(Selection(price, HowMany(far, q.outlierBps + 1)))
  {
    low, high := Middles(prices);
    var price := (low + high) / 2;
    off, far := 0, [];
    if g.startPrice > 0 { off := DeviationIs(price, g.startPrice); }
    GuardrailIs(g, price, off);
    if price > 0 {
      far := Deviations(prices, price);
      CloseOnes(prices, price, q.outlierBps, far);
    }
  }

  /** The two middle observations, and the median that is computed from them. */
  lemma Middles(prices: seq<nat>) returns (low: nat, high: nat)
    requires prices != []
    ensures IsAtRank(prices, (|prices| - 1) / 2, low) && IsAtRank(prices, |prices| / 2, high)
    ensures |Sort(prices)| == |prices|
    ensures InlineMedian(Sort(prices)) == if |prices| % 2 == 0 && low + high > U128_MAX then Err(Overflow) else Ok((low + high) / 2)
  {
    RankOfSorted(prices, (|prices| - 1) / 2);
    RankOfSorted(prices, |prices| / 2);
    low, high := Sort(prices)[(|prices| - 1) / 2], Sort(prices)[|prices| / 2];
  }

  lemma GuardrailIs(g: Guardrail, price: nat, off: nat)
    requires g.startPrice > 0 ==> IsDeviation(off, price, g.startPrice)
    requires g.startPrice > 0 ==> DeviationBps(price, g.startPrice) == if TooFar(off, price, g.startPrice) then Err(Overflow) else Ok(off)
    ensures Guarded(g, price) == if GuardrailError(g, price, off).Some? then Fail(GuardrailError(g, price, off).value) else Pass
  {
  }

  lemma CloseOnes(prices: seq<nat>, price: nat, outlierBps: nat, far: seq<nat>)
    requires price > 0 && |far| == |prices|
    requires forall i :: 0 <= i < |prices| ==>
               && IsDeviation(far[i], prices[i], price)
               && DeviationBps(prices[i], price) == if TooFar(far[i], prices[i], price) then Err(Overflow) else Ok(far[i])
    ensures Survivors(prices, price, outlierBps)
         == if exists i :: 0 <= i < |prices| && TooFar(far[i], prices[i], price) then Err(Overflow) else Ok(HowMany(far, outlierBps + 1))
  {
    if forall i :: 0 <= i < |prices| ==> !TooFar(far[i], prices[i], price) {
      SurvivorsAre(prices, price, outlierBps, far);
    } else {
      var i :| 0 <= i < |prices| && TooFar(far[i], prices[i], price);
      assert !Measurable(price, prices[i]);
    }
  }
}
