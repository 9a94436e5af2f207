/** Usage records and their cost (crates/moaray-core/src/usage.rs). */
module Usage {
  import opened Wrappers

  const I64_MAX: int := 0x7FFF_FFFF_FFFF_FFFF
  const I64_MIN: int := -0x8000_0000_0000_0000
  const I128_MAX: int := 0x7FFF_FFFF_FFFF_FFFF_FFFF_FFFF_FFFF_FFFF

  type i64 = x: int | I64_MIN <= x <= I64_MAX

  datatype UsagePath = Passthrough | Moa

  datatype UsageArm = Whole | Proposer | Aggregator

  datatype UsageStatus = StatusOk | OkNoUsage | Unpriced | StatusFailed | StatusTimeout

  datatype UsageRecord = UsageRecord(
    requestId: string,
    tsUnixMs: int,
    path: UsagePath,
    arm: UsageArm,
    model: string,
    upstreamId: string,
    callerKeyId: string,
    promptTokens: Option<i64>,
    completionTokens: Option<i64>,
    pricePrompt: Option<i64>,
    priceCompletion: Option<i64>,
    cost: Option<i64>,
    status: UsageStatus)

  const MTOK: int := 1_000_000

  /** Rust integer division: the quotient is truncated toward zero. */
  function TruncDiv(a: int, b: nat): int
    requires b > 0
  {
    if a >= 0 then a / b else -((-a) / b)
  }

  function RoundDiv(tokens: i64, price: i64): int {
    TruncDiv(tokens * price + MTOK / 2, MTOK)
  }

  /** Of either sign, the sum is divided towards zero. */
  lemma SideTruncates(tokens: i64, price: i64)
    ensures var n, q := tokens * price + 500_000, RoundDiv(tokens, price);
      if n >= 0 then 1_000_000 * q <= n < 1_000_000 * (q + 1) else 1_000_000 * (q - 1) < n <= 1_000_000 * q
  {
    var n := tokens * price + 500_000;
    assert n == MTOK * (n / MTOK) + n % MTOK && -n == MTOK * ((-n) / MTOK) + (-n) % MTOK;
  }

  function Clamp(x: int): i64 {
    if x < 0 then 0 else if x > I64_MAX then I64_MAX else x
  }

  function ComputeCost(pt: Option<i64>, ct: Option<i64>, pp: Option<i64>, cp: Option<i64>): Option<i64> {
    if pt.None? || ct.None? || pp.None? || cp.None? then None
    else Some(Clamp(RoundDiv(pt.value, pp.value) + RoundDiv(ct.value, cp.value)))
  }

  lemma MagnitudeBound(x: int, y: int, m: int)
    requires 0 <= x <= m && 0 <= y <= m
    ensures 0 <= x * y <= m * m
  {
    assert (m - x) * y >= 0 && (m - x) * y == m * y - x * y;
    assert m * (m - y) >= 0 && m * (m - y) == m * m - m * y;
    assert x * y >= 0;
  }

  const TWO_126: int := 0x4000_0000_0000_0000_0000_0000_0000_0000

  lemma ProductBound(a: int, b: int)
    requires I64_MIN <= a <= I64_MAX && I64_MIN <= b <= I64_MAX
    ensures -TWO_126 <= a * b <= TWO_126
  {
    var x := if a < 0 then -a else a;
    var y := if b < 0 then -b else b;
    MagnitudeBound(x, y, -I64_MIN);
    if (a < 0) == (b < 0) {
      assert a * b == x * y;
    } else if a < 0 {
      assert a * b == -(x * b);
    } else {
      assert a * b == -(a * y);
    }
  }

  /** No 128-bit intermediate overflows, for any 64-bit inputs, and the result is in range. */
  lemma CostNeverOverflows(pt: i64, ct: i64, pp: i64, cp: i64)
    ensures -I128_MAX <= pt * pp + MTOK / 2 <= I128_MAX
    ensures -I128_MAX <= RoundDiv(pt, pp) + RoundDiv(ct, cp) <= I128_MAX
    ensures var c := ComputeCost(Some(pt), Some(ct), Some(pp), Some(cp)); c.Some? && 0 <= c.value <= I64_MAX
  {
    ProductBound(pt, pp);
    ProductBound(ct, cp);
  }

  /** For non-negative inputs one side is the nearest integer to the exact quotient, ties upward. */
  lemma RoundsToNearest(tokens: i64, price: i64)
    requires tokens >= 0 && price >= 0
    ensures RoundDiv(tokens, price) >= 0
    ensures 2 * MTOK * RoundDiv(tokens, price) - MTOK <= 2 * (tokens * price) < 2 * MTOK * RoundDiv(tokens, price) + MTOK
  {
    assert tokens * price >= 0;
    var num := tokens * price + MTOK / 2;
    assert num == MTOK * (num / MTOK) + num % MTOK;
  }

  lemma RoundDivMonotone(t1: i64, t2: i64, p1: i64, p2: i64)
    requires 0 <= t1 <= t2 && 0 <= p1 <= p2
    ensures RoundDiv(t1, p1) <= RoundDiv(t2, p2)
  {
    assert t1 * p1 <= t2 * p2 by {
      assert (t2 - t1) * p1 >= 0;
      assert t2 * (p2 - p1) >= 0;
    }
    assert t1 * p1 >= 0;
    DivMonotone(t1 * p1 + MTOK / 2, t2 * p2 + MTOK / 2);
  }

  lemma DivMonotone(a: nat, b: nat)
    requires a <= b
    ensures a / MTOK <= b / MTOK
  {
  }

  /** More tokens or a higher price never cost less. */
  lemma CostMonotone(pt1: i64, pt2: i64, ct1: i64, ct2: i64, pp1: i64, pp2: i64, cp1: i64, cp2: i64)
    requires 0 <= pt1 <= pt2 && 0 <= ct1 <= ct2 && 0 <= pp1 <= pp2 && 0 <= cp1 <= cp2
    ensures ComputeCost(Some(pt1), Some(ct1), Some(pp1), Some(cp1)).value
         <= ComputeCost(Some(pt2), Some(ct2), Some(pp2), Some(cp2)).value
  {
    RoundDivMonotone(pt1, pt2, pp1, pp2);
    RoundDivMonotone(ct1, ct2, cp1, cp2);
  }

  /**
    Below saturation the cost is within one nano-USD of the exact value, half a nano-USD a side; it
    saturates only when the rounded value does not fit.
  */
  lemma CostIsAccurate(pt: i64, ct: i64, pp: i64, cp: i64)
    requires pt >= 0 && ct >= 0 && pp >= 0 && cp >= 0
    ensures var c := ComputeCost(Some(pt), Some(ct), Some(pp), Some(cp)).value;
      var exact := pt * pp + ct * cp;
      if c < I64_MAX then MTOK * c - MTOK <= exact < MTOK * c + MTOK
      else exact >= MTOK * I64_MAX - MTOK
  {
    RoundsToNearest(pt, pp);
    RoundsToNearest(ct, cp);
  }

  predicate NotNegative(x: Option<i64>) { x.Some? && x.value >= 0 }

  /**
    Unmeasured or unpriced is never recorded as free: a cost exists exactly when all four inputs do, and
    what is measured and priced costs nothing exactly when each side is below half a nano-USD.
  */
  lemma FreeIffBelowHalf(pt: Option<i64>, ct: Option<i64>, pp: Option<i64>, cp: Option<i64>)
    ensures ComputeCost(pt, ct, pp, cp).Some? <==> pt.Some? && ct.Some? && pp.Some? && cp.Some?
    ensures NotNegative(pt) && NotNegative(ct) && NotNegative(pp) && NotNegative(cp) ==>
      (ComputeCost(pt, ct, pp, cp) == Some(0) <==> 2 * (pt.value * pp.value) < MTOK && 2 * (ct.value * cp.value) < MTOK)
  {
    if NotNegative(pt) && NotNegative(ct) && NotNegative(pp) && NotNegative(cp) {
      RoundsToNearest(pt.value, pp.value);
      RoundsToNearest(ct.value, cp.value);
    }
  }
}
