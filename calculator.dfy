/** The tax calculator of one taxpayer: a ledger that records are appended
    to, and the totals, the tax owed and the balance due read from it. */
module Calculator {
  import opened Ledger
  import Assessment

  /** The taxpayer is not looked at by any computation; it is kept as a value
      of an arbitrary type `P`. */
  class TaxCalculator<P> {
    const taxpayer: P
    /** The income records in the order they were added. */
    var incomes: seq<Income>

    /** A calculator for `taxpayer` with no income recorded. */
    constructor (taxpayer: P)
      ensures this.taxpayer == taxpayer
      ensures incomes == []
    {
      this.taxpayer := taxpayer;
      incomes := [];
    }

    /** Records one more income item, whatever its amounts. */
    method AddIncome(income: Income)
      modifies this
      ensures incomes == old(incomes) + [income]
      ensures SumIncomeByType(income.incomeType) == old(SumIncomeByType(income.incomeType)) + income.amount
      ensures SumTaxWithheldByType(income.incomeType) == old(SumTaxWithheldByType(income.incomeType)) + income.taxWithheld
      ensures forall t :: t != income.incomeType ==> SumIncomeByType(t) == old(SumIncomeByType(t))
      ensures forall t :: t != income.incomeType ==> SumTaxWithheldByType(t) == old(SumTaxWithheldByType(t))
      ensures TotalIncome() == old(TotalIncome()) + income.amount
      ensures TotalTaxWithheld() == old(TotalTaxWithheld()) + income.taxWithheld
    {
      ghost var before := incomes;
      incomes := incomes + [income];
      forall t: IncomeType
        ensures SumByType(incomes, Amount, t) == SumByType(before, Amount, t) + Contribution(income, Amount, t)
        ensures SumByType(incomes, TaxWithheld, t) == SumByType(before, TaxWithheld, t) + Contribution(income, TaxWithheld, t)
      {
        SumByTypeAppend(before, income, Amount, t);
        SumByTypeAppend(before, income, TaxWithheld, t);
      }
      SumAppend(before, income, Amount);
      SumAppend(before, income, TaxWithheld);
    }

    /** Income recorded under category `t`; zero when no record has it. */
    function SumIncomeByType(t: IncomeType): (r: real)
      reads this
      ensures (forall k :: 0 <= k < |incomes| ==> incomes[k].incomeType != t) ==> r == 0.0
    {
      SumByTypeAbsent(incomes, Amount, t);
      SumByType(incomes, Amount, t)
    }

    /** Tax withheld on the records of category `t`; zero when no record has it. */
    function SumTaxWithheldByType(t: IncomeType): (r: real)
      reads this
      ensures (forall k :: 0 <= k < |incomes| ==> incomes[k].incomeType != t) ==> r == 0.0
    {
      SumByTypeAbsent(incomes, TaxWithheld, t);
      SumByType(incomes, TaxWithheld, t)
    }

    /** All income recorded: the three category totals together. */
    function TotalIncome(): (r: real)
      reads this
      ensures r == SumIncomeByType(Wages) + SumIncomeByType(Interest) + SumIncomeByType(Dividend)
    {
      SumIsSumOfTypes(incomes, Amount);
      Sum(incomes, Amount)
    }

    /** All tax withheld: the three category totals together. */
    function TotalTaxWithheld(): (r: real)
      reads this
      ensures r == SumTaxWithheldByType(Wages) + SumTaxWithheldByType(Interest) + SumTaxWithheldByType(Dividend)
    {
      SumIsSumOfTypes(incomes, TaxWithheld);
      Sum(incomes, TaxWithheld)
    }

    /** The tax owed on the recorded income: the lower of the separate and the
        simplified assessment of the category totals. */
    function TotalTax(): (r: real)
      reads this
      ensures r <= Assessment.SeparateTax(SumIncomeByType(Wages), SumIncomeByType(Interest), SumIncomeByType(Dividend))
      ensures r <= Assessment.SimplifiedTax(SumIncomeByType(Wages), SumIncomeByType(Interest), SumIncomeByType(Dividend))
      ensures r == Assessment.SeparateTax(SumIncomeByType(Wages), SumIncomeByType(Interest), SumIncomeByType(Dividend))
           || r == Assessment.SimplifiedTax(SumIncomeByType(Wages), SumIncomeByType(Interest), SumIncomeByType(Dividend))
      ensures SumIncomeByType(Dividend) >= 0.0 ==> r >= 0.0
      ensures incomes == [] ==> r == 0.0
    {
      Assessment.TotalTax(SumIncomeByType(Wages), SumIncomeByType(Interest), SumIncomeByType(Dividend))
    }

    /** The balance: positive when tax is still owed, negative when the
        withholding exceeds the tax and the difference is refunded. */
    function ComputeTax(): (r: real)
      reads this
      ensures r + TotalTaxWithheld() == TotalTax()
      ensures r == TotalTax() - (SumTaxWithheldByType(Wages) + SumTaxWithheldByType(Interest) + SumTaxWithheldByType(Dividend))
      ensures incomes == [] ==> r == 0.0
    {
      TotalTax() - TotalTaxWithheld()
    }
  }

  /** A taxpayer with 290,000 in wages, 12,000 in exempt interest and 15,000
      in dividends, with 11,500 withheld: the simplified assessment (4,750) is
      below the separate one (5,500), and 6,750 is refunded. */
  method RefundScenario() returns (totalTax: real, due: real)
    ensures totalTax == 4750.0 && due == -6750.0
  {
    var calculator := new TaxCalculator<string>("1409900123456");
    calculator.AddIncome(Income(Wages, "Kasetsart University", 290000.0, 10000.0));
    calculator.AddIncome(Income(Interest, "Bangkok Bank", 12000.0, 0.0));
    calculator.AddIncome(Income(Dividend, "SCC", 15000.0, 1500.0));
    assert calculator.SumIncomeByType(Wages) == 290000.0;
    assert calculator.SumIncomeByType(Interest) == 12000.0;
    assert calculator.SumIncomeByType(Dividend) == 15000.0;
    assert Assessment.SeparateTax(290000.0, 12000.0, 15000.0) == 5500.0;
    assert Assessment.SimplifiedTax(290000.0, 12000.0, 15000.0) == 4750.0;
    totalTax := calculator.TotalTax();
    due := calculator.ComputeTax();
  }

  /** A taxpayer with 8,000,000 in wages, two dividends of 4,000,000 each
      (400,000 withheld on each) and 2,000,000 in interest: the separate
      assessment (3,441,000) is below the simplified one (5,844,000), and
      2,641,000 is still owed. */
  method OwedScenario() returns (totalTax: real, due: real)
    ensures totalTax == 3441000.0 && due == 2641000.0
  {
    var calculator := new TaxCalculator<string>("3409900123456");
    calculator.AddIncome(Income(Wages, "CEO salary", 8000000.0, 0.0));
    calculator.AddIncome(Income(Dividend, "AIS", 4000000.0, 400000.0));
    calculator.AddIncome(Income(Dividend, "Intouch", 4000000.0, 400000.0));
    calculator.AddIncome(Income(Interest, "Bank of Dubai", 2000000.0, 0.0));
    assert calculator.SumIncomeByType(Wages) == 8000000.0;
    assert calculator.SumIncomeByType(Interest) == 2000000.0;
    assert calculator.SumIncomeByType(Dividend) == 8000000.0;
    assert Assessment.SeparateTax(8000000.0, 2000000.0, 8000000.0) == 3441000.0;
    assert Assessment.SimplifiedTax(8000000.0, 2000000.0, 8000000.0) == 5844000.0;
    totalTax := calculator.TotalTax();
    due := calculator.ComputeTax();
  }
}
