/** Token usage and its price in dollars, with exact arithmetic in place of floating point. */
module Cost {

  datatype Usage = Usage(inputTokens: nat, outputTokens: nat, cachedTokens: nat, totalTokens: nat)

  /** Dollars per million tokens. */
  datatype Pricing = Pricing(input: real, output: real, cached: real)

  const MILLION := 1000000.0

  function RawCost(u: Usage, p: Pricing): real {
    u.inputTokens as real / MILLION * p.input + u.outputTokens as real / MILLION * p.output + u.cachedTokens as real / MILLION * p.cached
  }

  /** Rounding to the nearest integer, halves upwards. */
  function Round(x: real): (r: int)
    ensures x - 0.5 < r as real <= x + 0.5
  {
    (x + 0.5).Floor
  }

  /** The cost in whole millionths of a dollar, as a number of dollars. */
  function EstimateCost(u: Usage, p: Pricing): real {
    Round(RawCost(u, p) * MILLION) as real / MILLION
  }

  function Add(a: Usage, b: Usage): Usage {
    Usage(a.inputTokens + b.inputTokens, a.outputTokens + b.outputTokens, a.cachedTokens + b.cachedTokens, a.totalTokens + b.totalTokens)
  }

  function SumUsage(entries: seq<Usage>): Usage {
    if entries == [] then Usage(0, 0, 0, 0) else Add(SumUsage(entries[..|entries| - 1]), entries[|entries| - 1])
  }

  function SumCosts(entries: seq<Usage>, p: Pricing): real {
    if entries == [] then 0.0 else SumCosts(entries[..|entries| - 1], p) + EstimateCost(entries[|entries| - 1], p)
  }

  function Abs(x: real): real {
    if x < 0.0 then -x else x
  }

  // -- whole millionths ------------------------------------------------------------------

  /** The same costs counted in millionths. */
  function Micros(u: Usage, p: Pricing): int {
    Round(RawCost(u, p) * MILLION)
  }

  function SumMicros(entries: seq<Usage>, p: Pricing): int {
    if entries == [] then 0 else SumMicros(entries[..|entries| - 1], p) + Micros(entries[|entries| - 1], p)
  }

  lemma CostIsMicros(u: Usage, p: Pricing)
    ensures EstimateCost(u, p) == Micros(u, p) as real / MILLION
  {}

  lemma {:induction false} CostsAreMicros(entries: seq<Usage>, p: Pricing)
    ensures SumCosts(entries, p) == SumMicros(entries, p) as real / MILLION
  {
    if entries != [] {
      CostsAreMicros(entries[..|entries| - 1], p);
    }
  }

  function SumRaw(entries: seq<Usage>, p: Pricing): real {
    if entries == [] then 0.0 else SumRaw(entries[..|entries| - 1], p) + RawCost(entries[|entries| - 1], p)
  }

  lemma Distribute(a: nat, b: nat, price: real)
    ensures (a + b) as real / MILLION * price == a as real / MILLION * price + b as real / MILLION * price
  {
    assert (a + b) as real == a as real + b as real;
    assert (a as real + b as real) / MILLION == a as real / MILLION + b as real / MILLION;
  }

  lemma RawCostAdds(a: Usage, b: Usage, p: Pricing)
    ensures RawCost(Add(a, b), p) == RawCost(a, p) + RawCost(b, p)
  {
    Distribute(a.inputTokens, b.inputTokens, p.input);
    Distribute(a.outputTokens, b.outputTokens, p.output);
    Distribute(a.cachedTokens, b.cachedTokens, p.cached);
  }

  lemma {:induction false} RawCostOfSum(entries: seq<Usage>, p: Pricing)
    ensures RawCost(SumUsage(entries), p) == SumRaw(entries, p)
  {
    if entries != [] {
      RawCostOfSum(entries[..|entries| - 1], p);
      RawCostAdds(SumUsage(entries[..|entries| - 1]), entries[|entries| - 1], p);
    }
  }

  /** Half a millionth is lost or gained per entry. */
  lemma {:induction false} MicrosDrift(entries: seq<Usage>, p: Pricing)
    ensures Abs(SumMicros(entries, p) as real - SumRaw(entries, p) * MILLION) <= |entries| as real * 0.5
  {
    if entries != [] {
      var init, last := entries[..|entries| - 1], entries[|entries| - 1];
      MicrosDrift(init, p);
      assert Abs(Micros(last, p) as real - RawCost(last, p) * MILLION) <= 0.5;
      assert SumRaw(entries, p) * MILLION == SumRaw(init, p) * MILLION + RawCost(last, p) * MILLION;
      assert |entries| as real == |init| as real + 1.0;
    }
  }

  /** In whole millionths, pricing the sum and summing the prices differ by at most half of n + 1. */
  lemma RoundingDriftInMicros(entries: seq<Usage>, p: Pricing)
    ensures var drift := Micros(SumUsage(entries), p) - SumMicros(entries, p);
      -(|entries| + 1) <= 2 * drift <= |entries| + 1
  {
    RawCostOfSum(entries, p);
    MicrosDrift(entries, p);
    var sum := SumRaw(entries, p) * MILLION;
    var whole, parts := Micros(SumUsage(entries), p), SumMicros(entries, p);
    assert Abs(whole as real - sum) <= 0.5;
    assert Abs(whole as real - parts as real) <= |entries| as real * 0.5 + 0.5;
    assert (2 * (whole - parts)) as real == 2.0 * (whole as real - parts as real);
    assert (|entries| + 1) as real == |entries| as real + 1.0;
  }

  /** The cost of the summed usage is within (n + 1) half-millionths of a dollar of the summed costs. */
  lemma RoundingDrift(entries: seq<Usage>, p: Pricing)
    ensures Abs(EstimateCost(SumUsage(entries), p) - SumCosts(entries, p)) <= (|entries| + 1) as real * 0.0000005
  {
    RoundingDriftInMicros(entries, p);
    CostsAreMicros(entries, p);
    CostIsMicros(SumUsage(entries), p);
    var drift := Micros(SumUsage(entries), p) - SumMicros(entries, p);
    assert EstimateCost(SumUsage(entries), p) - SumCosts(entries, p) == drift as real / MILLION;
    assert (2 * drift) as real == 2.0 * drift as real;
  }

  /** Nothing is lost when nothing is rounded: on whole-millionth costs the two agree. */
  lemma WholeMicrosAgree(entries: seq<Usage>, p: Pricing)
    requires forall u :: u in entries ==> RawCost(u, p) * MILLION == Micros(u, p) as real
    ensures EstimateCost(SumUsage(entries), p) == SumCosts(entries, p)
  {
    RawCostOfSum(entries, p);
    WholeMicrosSum(entries, p);
    CostsAreMicros(entries, p);
    RoundWhole(RawCost(SumUsage(entries), p) * MILLION, SumMicros(entries, p));
    hide RawCost, SumRaw, SumUsage;
  }

  lemma RoundWhole(x: real, k: int)
    requires x == k as real
    ensures Round(x) == k
  {}

  lemma {:induction false} WholeMicrosSum(entries: seq<Usage>, p: Pricing)
    requires forall u :: u in entries ==> RawCost(u, p) * MILLION == Micros(u, p) as real
    ensures SumRaw(entries, p) * MILLION == SumMicros(entries, p) as real
  {
    if entries != [] {
      var init, last := entries[..|entries| - 1], entries[|entries| - 1];
      WholeMicrosSum(init, p);
      assert last in entries;
      assert SumRaw(entries, p) * MILLION == SumRaw(init, p) * MILLION + RawCost(last, p) * MILLION;
    }
  }

  // -- the prices -----------------------------------------------------------------------

  predicate Near(x: real, y: real) {
    -0.0000005 <= x - y <= 0.0000005
  }

  lemma EstimateIsNear(u: Usage, p: Pricing)
    ensures Near(EstimateCost(u, p), RawCost(u, p))
  {
    var x := RawCost(u, p);
    var k := Round(x * MILLION);
    assert -0.5 <= k as real - x * MILLION <= 0.5;
    assert k as real / MILLION - x == (k as real - x * MILLION) / MILLION;
  }

  lemma OnePart(n: nat, price: real)
    ensures n as real / MILLION * price == n as real * price / MILLION
  {}

  lemma PartsAdd(a: real, b: real, c: real)
    ensures a / MILLION + b / MILLION + c / MILLION == (a + b + c) / MILLION
  {}

  /** Every usage costs the sum of what its three kinds of tokens cost, to half a millionth; the total has no influence. */
  lemma KindsAddUp(u: Usage, total: nat, p: Pricing)
    ensures EstimateCost(u.(totalTokens := total), p) == EstimateCost(u, p)
    ensures Near(EstimateCost(u, p), (u.inputTokens as real * p.input + u.outputTokens as real * p.output + u.cachedTokens as real * p.cached) / MILLION)
  {
    EstimateIsNear(u, p);
    OnePart(u.inputTokens, p.input);
    OnePart(u.outputTokens, p.output);
    OnePart(u.cachedTokens, p.cached);
    PartsAdd(u.inputTokens as real * p.input, u.outputTokens as real * p.output, u.cachedTokens as real * p.cached);
    var v := u.(totalTokens := total);
    assert v.inputTokens == u.inputTokens && v.outputTokens == u.outputTokens && v.cachedTokens == u.cachedTokens;
    assert RawCost(v, p) == RawCost(u, p);
    hide Round, RawCost, Near;
  }

  /** What the parts of a usage with one kind of tokens add up to. */
  lemma OnlyOneKind(n: nat, a: real, b: real, c: real)
    ensures ((n * 1000000) as real * a + 0 as real * b + 0 as real * c) / MILLION == n as real * a
    ensures (0 as real * b + (n * 1000000) as real * a + 0 as real * c) / MILLION == n as real * a
    ensures (0 as real * b + 0 as real * c + (n * 1000000) as real * a) / MILLION == n as real * a
  {
    assert (n * 1000000) as real == n as real * MILLION;
    assert n as real * MILLION * a == n as real * a * MILLION;
  }

  /** A million tokens of one kind cost the price of that kind. */
  lemma MillionsCostTheirPrice(n: nat, total: nat, p: Pricing)
    ensures Near(EstimateCost(Usage(n * 1000000, 0, 0, total), p), n as real * p.input)
    ensures Near(EstimateCost(Usage(0, n * 1000000, 0, total), p), n as real * p.output)
    ensures Near(EstimateCost(Usage(0, 0, n * 1000000, total), p), n as real * p.cached)
  {
    hide EstimateCost;
    OnlyOneKind(n, p.input, p.output, p.cached);
    OnlyOneKind(n, p.output, p.input, p.cached);
    OnlyOneKind(n, p.cached, p.input, p.output);
    KindsAddUp(Usage(n * 1000000, 0, 0, total), total, p);
    KindsAddUp(Usage(0, n * 1000000, 0, total), total, p);
    KindsAddUp(Usage(0, 0, n * 1000000, total), total, p);
  }
}
