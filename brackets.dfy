/** The progressive schedule for ordinary income.

    `OrdinaryTax` is the schedule as the calculator writes it: a chain of
    tests, each bracket given as a constant (the tax on every lower bracket)
    plus a marginal rate on the part above its lower bound. `MarginalTax` is an
    independent definition of the same schedule from its table of lower bounds
    and rates only, taxing each slice of income at the rate of its bracket; the
    two are proved equal. The shape of the schedule is proved as well: the
    zero floor, the marginal rate inside each bracket, monotonicity, a slope
    bounded by the top rate and hence continuity at every breakpoint. */
module Brackets {

  /** Tax on net ordinary income (after deductions). Net income of at most
      150,000, including any negative net income, is not taxed. */
  function OrdinaryTax(income: real): (r: real)
    ensures r >= 0.0
    ensures income <= 150000.0 ==> r == 0.0
    ensures income > 150000.0 ==> r > 0.0
  {
    if income <= 150000.0 then 0.0
    else if income <= 300000.0 then 0.05 * (income - 150000.0)
    else if income <= 500000.0 then 7500.0 + 0.10 * (income - 300000.0)
    else if income <= 750000.0 then 27500.0 + 0.15 * (income - 500000.0)
    else if income <= 1000000.0 then 65000.0 + 0.20 * (income - 750000.0)
    else if income <= 2000000.0 then 115000.0 + 0.25 * (income - 1000000.0)
    else if income <= 4000000.0 then 365000.0 + 0.30 * (income - 2000000.0)
    else 965000.0 + 0.35 * (income - 4000000.0)
  }

  /** A bracket of a schedule: income above `lower`, up to the next bracket's
      `lower` (or without bound for the last bracket), is taxed at `rate`. */
  datatype Bracket = Bracket(lower: real, rate: real)

  /** The table behind `OrdinaryTax`; income up to the first lower bound is
      taxed at 0%. */
  const Schedule: seq<Bracket> := [
    Bracket(150000.0, 0.05),
    Bracket(300000.0, 0.10),
    Bracket(500000.0, 0.15),
    Bracket(750000.0, 0.20),
    Bracket(1000000.0, 0.25),
    Bracket(2000000.0, 0.30),
    Bracket(4000000.0, 0.35)
  ]

  /** The highest marginal rate of the schedule. */
  const TopRate: real := 0.35

  function Max(a: real, b: real): real
  {
    if a < b then b else a
  }

  /** The part of `x` that lies above `lo` and at most `hi`. */
  function Slice(x: real, lo: real, hi: real): real
  {
    if x <= lo then 0.0 else if x <= hi then x - lo else hi - lo
  }

  /** Tax on `x` under schedule `bs`: each bracket taxes the slice of `x`
      between its lower bound and the next one at its own rate. */
  function MarginalTax(x: real, bs: seq<Bracket>): real
    decreases |bs|
  {
    if |bs| == 0 then 0.0
    else if |bs| == 1 then bs[0].rate * (Max(x, bs[0].lower) - bs[0].lower)
    else bs[0].rate * Slice(x, bs[0].lower, bs[1].lower) + MarginalTax(x, bs[1..])
  }

  /** The if-chain and the slice-by-slice definition are the same function. */
  lemma OrdinaryTaxIsMarginal(x: real)
    ensures OrdinaryTax(x) == MarginalTax(x, Schedule)
  {
    var s := Schedule;
    assert MarginalTax(x, s[6..]) == 0.35 * (Max(x, 4000000.0) - 4000000.0);
    assert MarginalTax(x, s[5..]) == 0.30 * Slice(x, 2000000.0, 4000000.0) + MarginalTax(x, s[6..]);
    assert MarginalTax(x, s[4..]) == 0.25 * Slice(x, 1000000.0, 2000000.0) + MarginalTax(x, s[5..]);
    assert MarginalTax(x, s[3..]) == 0.20 * Slice(x, 750000.0, 1000000.0) + MarginalTax(x, s[4..]);
    assert MarginalTax(x, s[2..]) == 0.15 * Slice(x, 500000.0, 750000.0) + MarginalTax(x, s[3..]);
    assert MarginalTax(x, s[1..]) == 0.10 * Slice(x, 300000.0, 500000.0) + MarginalTax(x, s[2..]);
    assert MarginalTax(x, s) == 0.05 * Slice(x, 150000.0, 300000.0) + MarginalTax(x, s[1..]);
  }

  /** Inside a bracket of the table, the tax grows at exactly that bracket's
      marginal rate. */
  lemma MarginalRateWithinBracket(k: nat, a: real, b: real)
    requires k < |Schedule| && Schedule[k].lower <= a <= b
    requires k + 1 < |Schedule| ==> b <= Schedule[k + 1].lower
    ensures OrdinaryTax(b) - OrdinaryTax(a) == Schedule[k].rate * (b - a)
  {
  }

  /** The tax never grows faster than the top rate: from `a` to `b` it rises
      by at least nothing and at most 35% of `b - a`. */
  lemma OrdinaryTaxSlope(a: real, b: real)
    requires a <= b
    ensures 0.0 <= OrdinaryTax(b) - OrdinaryTax(a) <= TopRate * (b - a)
  {
  }

  /** More net income never means less tax. */
  lemma OrdinaryTaxMonotone(a: real, b: real)
    requires a <= b
    ensures OrdinaryTax(a) <= OrdinaryTax(b)
  {
  }

  /** Above the tax-free band the tax rises strictly with income. */
  lemma OrdinaryTaxStrictlyIncreasing(a: real, b: real)
    requires a < b && 150000.0 < b
    ensures OrdinaryTax(a) < OrdinaryTax(b)
  {
  }

  function Abs(x: real): real
  {
    if x < 0.0 then -x else x
  }

  /** The schedule is continuous everywhere, breakpoints included: whenever
      `y` is within `eps / 0.35` of `x`, the taxes differ by less than `eps`. */
  lemma OrdinaryTaxContinuous(x: real, y: real, eps: real)
    requires eps > 0.0 && Abs(y - x) < eps / TopRate
    ensures Abs(OrdinaryTax(y) - OrdinaryTax(x)) < eps
  {
  }

  /** At each breakpoint the tax equals the constant the next bracket starts
      from, so no bracket jumps: 0 at 150,000, 7,500 at 300,000, 27,500 at
      500,000, 65,000 at 750,000, 115,000 at 1,000,000, 365,000 at 2,000,000
      and 965,000 at 4,000,000; one satang above 150,000 costs 0.0005. */
  lemma BreakpointValues()
    ensures OrdinaryTax(150000.0) == 0.0
    ensures OrdinaryTax(150000.01) == 0.0005
    ensures OrdinaryTax(300000.0) == 7500.0
    ensures OrdinaryTax(500000.0) == 27500.0
    ensures OrdinaryTax(750000.0) == 65000.0
    ensures OrdinaryTax(1000000.0) == 115000.0
    ensures OrdinaryTax(2000000.0) == 365000.0
    ensures OrdinaryTax(4000000.0) == 965000.0
  {
  }
}
