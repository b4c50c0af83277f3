/** The election rule: two assessments of the same income and the lower one.

    The "separate" assessment taxes wages after the personal deduction on the
    progressive schedule, interest above its exemption at a flat 15% and all
    dividends at a flat 10%. The "simplified" assessment adds dividends, and
    interest when it exceeds the exemption, to wages and applies the schedule
    to the combined amount after the same deduction. The taxpayer owes the
    lower of the two. All three arguments are category totals of a ledger. */
module Assessment {
  import opened Brackets

  /** Personal deduction taken from wages (and from the combined base). */
  const Deduction: real := 60000.0
  /** Interest up to this amount is not taxed. */
  const InterestExemption: real := 20000.0
  const InterestRate: real := 0.15
  const DividendRate: real := 0.10

  /** Flat tax on interest above the exemption. */
  function InterestTax(interest: real): (r: real)
    ensures r >= 0.0
    ensures r == 0.0 <==> interest <= InterestExemption
  {
    InterestRate * Max(0.0, interest - InterestExemption)
  }

  /** Flat tax on all dividends. */
  function DividendTax(dividend: real): real
  {
    DividendRate * dividend
  }

  /** Wages taxed on the schedule, interest and dividends at their flat rates. */
  function SeparateTax(wages: real, interest: real, dividend: real): real
  {
    OrdinaryTax(wages - Deduction) + InterestTax(interest) + DividendTax(dividend)
  }

  /** The income the simplified assessment taxes on the schedule: interest
      that the exemption would leave untaxed is left out of it. */
  function CombinedIncome(wages: real, interest: real, dividend: real): real
  {
    var total := wages + dividend;
    if interest > InterestExemption then total + interest else total
  }

  /** All income, less the deduction, taxed on the schedule. */
  function SimplifiedTax(wages: real, interest: real, dividend: real): (r: real)
    ensures r >= 0.0
  {
    OrdinaryTax(CombinedIncome(wages, interest, dividend) - Deduction)
  }

  /** The tax owed is the lower of the two assessments. It is never negative
      when dividends are not. */
  function TotalTax(wages: real, interest: real, dividend: real): (r: real)
    ensures r <= SeparateTax(wages, interest, dividend)
    ensures r <= SimplifiedTax(wages, interest, dividend)
    ensures r == SeparateTax(wages, interest, dividend) || r == SimplifiedTax(wages, interest, dividend)
    ensures dividend >= 0.0 ==> r >= 0.0
  {
    var simplified := SimplifiedTax(wages, interest, dividend);
    var separate := SeparateTax(wages, interest, dividend);
    if simplified < separate then simplified else separate
  }

  /** A negative dividend total, which no record check rejects, can make the
      separate assessment and so the total negative. */
  lemma NegativeDividendMakesNegativeTax()
    ensures TotalTax(0.0, 0.0, -1000.0) == -100.0
  {
  }

  /** Dividends are the only way below zero: every other term of either
      assessment is non-negative, so a negative total needs a negative
      dividend total. */
  lemma OnlyDividendsGoNegative(wages: real, interest: real, dividend: real)
    requires TotalTax(wages, interest, dividend) < 0.0
    ensures dividend < 0.0
  {
  }

  /** Interest within the exemption plays no part: it is not taxed, it is not
      added to the combined income, and the total is the same as without it. */
  lemma ExemptInterestIgnored(wages: real, interest: real, dividend: real)
    requires interest <= InterestExemption
    ensures InterestTax(interest) == 0.0
    ensures CombinedIncome(wages, interest, dividend) == wages + dividend
    ensures TotalTax(wages, interest, dividend) == TotalTax(wages, 0.0, dividend)
  {
  }

  /** With no interest and no dividends both assessments coincide with the
      schedule applied to wages after the deduction. */
  lemma WagesOnly(wages: real)
    ensures TotalTax(wages, 0.0, 0.0) == OrdinaryTax(wages - Deduction)
  {
  }

  /** More income of any category never lowers the separate assessment. */
  lemma SeparateTaxMonotone(wages: real, interest: real, dividend: real, wages': real, interest': real, dividend': real)
    requires wages <= wages' && interest <= interest' && dividend <= dividend'
    ensures SeparateTax(wages, interest, dividend) <= SeparateTax(wages', interest', dividend')
  {
  }

  /** More income of any category never lowers the simplified assessment,
      even though interest enters the combined income only once it exceeds
      the exemption. */
  lemma SimplifiedTaxMonotone(wages: real, interest: real, dividend: real, wages': real, interest': real, dividend': real)
    requires wages <= wages' && interest <= interest' && dividend <= dividend'
    ensures SimplifiedTax(wages, interest, dividend) <= SimplifiedTax(wages', interest', dividend')
  {
  }

  /** More income of any category never lowers the tax owed. */
  lemma TotalTaxMonotone(wages: real, interest: real, dividend: real, wages': real, interest': real, dividend': real)
    requires wages <= wages' && interest <= interest' && dividend <= dividend'
    ensures TotalTax(wages, interest, dividend) <= TotalTax(wages', interest', dividend')
  {
    SeparateTaxMonotone(wages, interest, dividend, wages', interest', dividend');
    SimplifiedTaxMonotone(wages, interest, dividend, wages', interest', dividend');
  }
}
