/** Fixed-width arithmetic as the contract performs it, and the floor-division facts
    behind every proportional payout. */
module Arith {
  import opened Types

  predicate InI128(x: int) {
    I128_MIN <= x <= I128_MAX
  }

  /** A checked i128 operation whose exact result is `x`. */
  function Checked(x: int, error: Error): (r: Result<int>)
    ensures r.Ok? <==> InI128(x)
    ensures r.Ok? ==> r.value == x
    ensures r.Err? ==> r.error == error
  {
    if InI128(x) then Ok(x) else Err(error)
  }

  /** `a.checked_add(b).unwrap_or(a)` */
  function AddOrKeep(a: int, b: int): int {
    if InI128(a + b) then a + b else a
  }

  function SaturatingAdd(a: int, b: int): int {
    if a + b > I128_MAX then I128_MAX else if a + b < I128_MIN then I128_MIN else a + b
  }

  function Distance(p: nat, q: nat): nat {
    if p >= q then p - q else q - p
  }

  function Min(a: int, b: int): int {
    if a <= b then a else b
  }

  /** Signed division rounding toward zero, as the contract's `/` does. */
  function Quot(a: int, b: int): int
    requires b != 0
  {
    if a >= 0 then a / b else -((-a) / b)
  }

  /** `amount` in basis points, rounded down for non-negative amounts. */
  function Bps(amount: int, bps: int): int {
    Quot(amount * bps, BPS_DENOMINATOR)
  }

  /** `q` is `a / d` rounded down. */
  predicate IsFloor(q: int, a: int, d: int) {
    d * q <= a < d * q + d
  }

  lemma FloorBounds(a: int, b: int)
    requires a >= 0 && b > 0
    ensures b * (a / b) <= a < b * (a / b) + b
    ensures 0 <= a / b
  {
    assert a == b * (a / b) + a % b;
  }

  lemma QuotIsFloor(a: int, d: int)
    requires a >= 0 && d > 0
    ensures IsFloor(Quot(a, d), a, d)
  {
    FloorBounds(a, d);
  }

  lemma MulMono(a: int, b: int, c: int)
    requires a <= b && c >= 0
    ensures a * c <= b * c
    ensures c * a <= c * b
  {
    assert (b - a) * c >= 0;
  }

  /** A quotient is at most `q` exactly when the dividend is below the next multiple. */
  lemma FloorAtMost(a: int, b: int, q: int)
    requires a >= 0 && b > 0
    ensures a / b <= q <==> a < b * (q + 1)
  {
    FloorBounds(a, b);
    if a / b <= q { MulMono(a / b, q, b); }
    if a / b >= q + 1 { MulMono(q + 1, a / b, b); }
  }

  lemma FloorMono(a: int, b: int, d: int)
    requires 0 <= a <= b && d > 0
    ensures a / d <= b / d
  {
    FloorBounds(b, d);
    FloorAtMost(a, d, b / d);
  }

  lemma MulBound(a: int, b: int, c: int, d: int)
    requires 0 <= a <= c && 0 <= b <= d
    ensures 0 <= a * b <= c * d
  {
    MulMono(b, d, a);
    MulMono(a, c, d);
  }

  lemma BpsBounds(amount: int, bps: int)
    requires amount >= 0 && 0 <= bps <= BPS_DENOMINATOR
    ensures 0 <= Bps(amount, bps) <= amount
  {
    MulBound(amount, bps, amount, BPS_DENOMINATOR);
    FloorBounds(amount * bps, BPS_DENOMINATOR);
  }
}
