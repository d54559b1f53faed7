/** Proportional division with rounding down: what a group of shares adds up to. */
module Shares {
  import opened Arith
  import opened Sums

  /** `stake * pool / total` */
  function Share(stake: int, total: int, pool: int): int
    requires total != 0
  {
    Quot(stake * pool, total)
  }

  function SharesOf(stakes: seq<int>, total: int, pool: int): seq<int>
    requires total != 0
  {
    seq(|stakes|, i requires 0 <= i < |stakes| => Share(stakes[i], total, pool))
  }

  function Positive(stakes: seq<int>): nat {
    if stakes == [] then 0
    else Positive(stakes[..|stakes| - 1]) + if stakes[|stakes| - 1] > 0 then 1 else 0
  }

  /** One more stake adds less than one unit of rounding, and a stake of nothing adds none. */
  lemma RoundingStep(paid: int, stakes: int, last: int, total: int, pool: int, positive: nat)
    requires total > 0 && pool >= 0 && last >= 0
    requires 0 <= pool * stakes - total * paid <= (total - 1) * positive
    ensures Share(last, total, pool) >= 0
    ensures 0 <= pool * (stakes + last) - total * (paid + Share(last, total, pool))
              <= (total - 1) * (positive + if last > 0 then 1 else 0)
  {
    var c := Share(last, total, pool);
    MulBound(last, pool, last, pool);
    FloorBounds(last * pool, total);
    assert 0 <= last * pool - total * c < total;
    if last == 0 {
      assert last * pool == 0 && c == 0;
    } else {
      assert (total - 1) * (positive + 1) == (total - 1) * positive + (total - 1);
    }
    assert pool * (stakes + last) == pool * stakes + last * pool;
    assert total * (paid + c) == total * paid + total * c;
  }

  /** Only positive stakes lose anything to rounding, each less than one unit. */
  lemma {:induction false} SharesRounding(stakes: seq<int>, total: int, pool: int)
    requires total > 0 && pool >= 0 && AllNonNegative(stakes)
    ensures AllNonNegative(SharesOf(stakes, total, pool))
    ensures 0 <= pool * Sum(stakes) - total * Sum(SharesOf(stakes, total, pool))
              <= (total - 1) * Positive(stakes)
  {
    if stakes != [] {
      var n := |stakes| - 1;
      SharesRounding(stakes[..n], total, pool);
      assert SharesOf(stakes, total, pool)[..n] == SharesOf(stakes[..n], total, pool);
      RoundingStep(Sum(SharesOf(stakes[..n], total, pool)), Sum(stakes[..n]), stakes[n], total, pool, Positive(stakes[..n]));
    }
  }

  /** Shares of the whole never pay out more than the pool and leave less than one unit
      per positive stake. */
  lemma SharesOfWhole(stakes: seq<int>, total: int, pool: int)
    requires total > 0 && pool >= 0 && AllNonNegative(stakes) && Sum(stakes) == total
    ensures AllNonNegative(SharesOf(stakes, total, pool))
    ensures 0 <= pool - Sum(SharesOf(stakes, total, pool)) < Positive(stakes)
  {
    SharesRounding(stakes, total, pool);
    PositiveSome(stakes);
    LossBelow(total, pool, Sum(SharesOf(stakes, total, pool)), Positive(stakes));
  }

  lemma LossBelow(total: int, pool: int, paid: int, n: nat)
    requires total > 0 && n > 0
    requires 0 <= pool * total - total * paid <= (total - 1) * n
    ensures 0 <= pool - paid < n
  {
    var lost := pool - paid;
    assert pool * total - total * paid == total * lost;
    if lost < 0 { MulMono(lost, -1, total); }
    assert (total - 1) * n == total * n - n;
    if lost >= n { MulMono(n, lost, total); }
  }

  lemma {:induction false} PositiveSome(stakes: seq<int>)
    requires AllNonNegative(stakes)
    ensures Sum(stakes) > 0 ==> Positive(stakes) > 0
    ensures Positive(stakes) <= |stakes|
  {
    if stakes != [] { PositiveSome(stakes[..|stakes| - 1]); }
  }

  /** Dividing one stake in two never gains, and loses at most one unit. */
  lemma SplittingStake(a: int, b: int, total: int, pool: int)
    requires a >= 0 && b >= 0 && total > 0 && pool >= 0
    ensures 0 <= Share(a + b, total, pool) - (Share(a, total, pool) + Share(b, total, pool)) <= 1
  {
    MulBound(a, pool, a, pool);
    MulBound(b, pool, b, pool);
    assert (a + b) * pool == a * pool + b * pool;
    FloorBounds(a * pool, total);
    FloorBounds(b * pool, total);
    FloorBounds((a + b) * pool, total);
    var x, y, z := Share(a, total, pool), Share(b, total, pool), Share(a + b, total, pool);
    var d := z - (x + y);
    assert -total < total * d < 2 * total by {
      assert total * d == total * z - (total * x + total * y);
    }
    if d >= 2 { MulMono(2, d, total); }
    if d <= -1 { MulMono(d, -1, total); }
  }

  /** A share grows with the pool: paying out at least `c * total / d` gives each stake at
      least `c * stake / d`. */
  lemma ShareFloor(stake: int, total: int, pool: int, c: int, d: int)
    requires stake >= 0 && total > 0 && c >= 0 && d > 0 && pool >= 0
    requires d * pool >= c * total
    ensures Share(stake, total, pool) >= (c * stake) / d
  {
    MulBound(stake, pool, stake, pool);
    MulBound(c, stake, c, stake);
    FloorBounds(c * stake, d);
    var q := (c * stake) / d;
    assert q * total <= stake * pool by {
      assert d * (q * total) == (d * q) * total;
      MulMono(d * q, c * stake, total);
      assert (c * stake) * total == stake * (c * total);
      MulMono(c * total, d * pool, stake);
      assert stake * (d * pool) == d * (stake * pool);
      if q * total > stake * pool { MulMono(stake * pool + 1, q * total, d); }
    }
    FloorAtMost(stake * pool, total, q - 1);
    assert total * (q - 1 + 1) == q * total;
  }
}
