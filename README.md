# Thai personal income-tax calculator, modelled in Dafny

This project models the tax engine of a small Thai income-tax calculator. The
engine keeps a ledger of income items for one taxpayer. Each item has a
category (wages, interest or dividend), a description, an amount and the tax
already withheld on it. From the ledger it computes:

- the category totals and the grand totals of income and of withholding;
- the progressive tax on net ordinary income: eight brackets, with breakpoints
  at 150,000, 300,000, 500,000, 750,000, 1,000,000, 2,000,000 and 4,000,000
  and marginal rates from 0% to 35%;
- the tax owed under the election rule. The "separate" assessment taxes
  wages less a 60,000 deduction on the schedule, interest above 20,000 at 15%
  and dividends at 10%. The "simplified" assessment applies the schedule to
  the combined income less the same deduction; interest is part of that
  combined income only when it exceeds 20,000. The taxpayer owes the lower of
  the two;
- the balance: the tax owed less everything withheld. A positive balance is
  still owed; a negative one is refunded.

Money is Dafny `real`, which is exact rational arithmetic, so every equality
below holds exactly.

Files:

- `ledger.dfy` (module `Ledger`): the `IncomeType` and `Income` values and the
  category labels. `Sum` and `SumByType` are left folds over a sequence of
  records, the order Python's `sum` adds in. Beside them are lemmas on
  appending, concatenating, splitting by category and reordering a ledger.
- `brackets.dfy` (module `Brackets`): `OrdinaryTax`, the schedule written as
  the source's chain of tests. `MarginalTax` is an independent reference
  definition: it is computed from the table of lower bounds and rates alone,
  taxing each slice of income at its bracket's rate. The two are proved equal.
  Further lemmas prove the shape of the schedule.
- `assessment.dfy` (module `Assessment`): the two assessments and the
  election between them, stated on the three category totals.
- `calculator.dfy` (module `Calculator`): the class `TaxCalculator`. Its
  `incomes: seq<Income>` field is reassigned by `AddIncome`. Its query
  functions read that field; they are the read-only queries and properties of
  the calculator. `compute_ordinary_tax` reads no calculator state, so it is
  the module-level `Brackets.OrdinaryTax`. Two client methods replay the demonstration
  scenarios through the class's public operations.

In two places the model follows the code rather than a stricter reading of
the tax rules:

- Negative amounts have no tax meaning, yet the code appends any record. So
  `AddIncome` has no error path and no precondition. The category is a closed
  datatype, so an unknown category cannot be written at all (see "Left out").
- The schedule is flat at zero up to 150,000, so it is not strictly
  increasing everywhere. `OrdinaryTaxStrictlyIncreasing` states strict growth
  only for intervals that reach above 150,000. `OrdinaryTaxMonotone` states
  non-decreasing growth everywhere.

## Model

| member | source | states |
|---|---|---|
| `Ledger.LabelInjective` | tax_calculator.py:9-16 | the three categories have pairwise different values ("Ordinary", "Interest", "Dividend"), so none is an alias of another and the category comparison of the per-category sums tells them apart |
| `Ledger.SumAppend` | tax_calculator.py:46-54 | appending a record raises a grand total by exactly that record's amount or withholding |
| `Ledger.SumByTypeAppend` | tax_calculator.py:123-133 | appending a record raises its own category's sum by its amount or withholding and leaves the other categories' sums unchanged |
| `Ledger.SumConcat` | tax_calculator.py:46-54 | the grand total of two ledgers put end to end is the sum of their totals |
| `Ledger.SumByTypeConcat` | tax_calculator.py:123-133 | a category sum is additive over concatenation |
| `Ledger.SumIsSumOfTypes` | tax_calculator.py:46-54 | every record has one of the three categories, so the grand total (of income or of withholding) equals the sum of the three category sums |
| `Ledger.SumByTypeAbsent` | tax_calculator.py:123-133 | a category with no record sums to zero (Python's `sum` of an empty generator) |
| `Ledger.SumByTypeRemove` | tax_calculator.py:123-133 | removing the record at one index removes one copy of it from the multiset and its contribution from a category sum |
| `Ledger.SumByTypePermutation` | tax_calculator.py:123-133 | ledgers holding the same records in any order have the same category sums |
| `Ledger.SumPermutation` | tax_calculator.py:46-54 | ledgers holding the same records in any order have the same grand totals |
| `Brackets.OrdinaryTax` | tax_calculator.py:135-155 | the tax on net ordinary income is never negative; it is zero exactly when net income is at most 150,000, negative net income included |
| `Brackets.OrdinaryTaxIsMarginal` | tax_calculator.py:140-155 | the if-chain equals the reference schedule that taxes each slice of income at its bracket's rate (5% to 35% above 150,000, 300,000, 500,000, 750,000, 1M, 2M, 4M) |
| `Brackets.MarginalRateWithinBracket` | tax_calculator.py:142-155 | between two points of the same bracket the tax grows by exactly that bracket's rate times the distance |
| `Brackets.OrdinaryTaxSlope` | tax_calculator.py:140-155 | for a <= b the tax rises by at least 0 and at most 35% of b - a |
| `Brackets.OrdinaryTaxMonotone` | tax_calculator.py:140-155 | a <= b implies tax(a) <= tax(b) |
| `Brackets.OrdinaryTaxStrictlyIncreasing` | tax_calculator.py:142-155 | a < b with b above 150,000 implies tax(a) < tax(b) |
| `Brackets.OrdinaryTaxContinuous` | tax_calculator.py:142-155 | the schedule is continuous everywhere, breakpoints included: inputs closer than eps/0.35 give taxes closer than eps |
| `Brackets.BreakpointValues` | tax_calculator.py:142-155 | the value at each upper bound is the next bracket's constant: 0, 7,500, 27,500, 65,000, 115,000, 365,000 and 965,000; 150,000.01 costs 0.0005 |
| `Assessment.InterestTax` | tax_calculator.py:71-73 | interest tax is never negative and is zero exactly when interest is at most 20,000 |
| `Assessment.SimplifiedTax` | tax_calculator.py:78-85 | the simplified assessment is never negative |
| `Assessment.TotalTax` | tax_calculator.py:80-90 | the tax owed is the minimum of the separate and simplified assessments: it is at most each and equal to one of them; it is non-negative when dividends are |
| `Assessment.NegativeDividendMakesNegativeTax` | tax_calculator.py:75-90 | without a non-negative dividend total the tax owed can be negative (a dividend total of -1,000 gives -100) |
| `Assessment.OnlyDividendsGoNegative` | tax_calculator.py:66-90 | a negative tax owed needs a negative dividend total: every other term of both assessments is non-negative |
| `Assessment.ExemptInterestIgnored` | tax_calculator.py:71-83 | interest of at most 20,000 is untaxed, is left out of the combined income and leaves the tax owed as if there were none |
| `Assessment.WagesOnly` | tax_calculator.py:62-90 | with no interest and no dividends the tax owed is the schedule applied to wages less the 60,000 deduction |
| `Assessment.SeparateTaxMonotone` | tax_calculator.py:66-76 | more income in any category never lowers the separate assessment |
| `Assessment.SimplifiedTaxMonotone` | tax_calculator.py:78-85 | more income in any category never lowers the simplified assessment, despite the 20,000 threshold on interest |
| `Assessment.TotalTaxMonotone` | tax_calculator.py:56-90 | more income in any category never lowers the tax owed |
| `Calculator.TaxCalculator.constructor` | tax_calculator.py:31-37 | a new calculator keeps its taxpayer and starts with an empty ledger |
| `Calculator.TaxCalculator.AddIncome` | tax_calculator.py:39-44 | the record is appended at the end and earlier records are unchanged; its category's income and withholding sums rise by its amount and withholding; every other category's sums are unchanged; both grand totals rise accordingly |
| `Calculator.TaxCalculator.SumIncomeByType` | tax_calculator.py:123-127 | the income of a category that no record carries is zero |
| `Calculator.TaxCalculator.SumTaxWithheldByType` | tax_calculator.py:129-133 | the withholding of a category that no record carries is zero |
| `Calculator.TaxCalculator.TotalIncome` | tax_calculator.py:46-49 | total income equals wages plus interest plus dividend income |
| `Calculator.TaxCalculator.TotalTaxWithheld` | tax_calculator.py:51-54 | total withholding equals the sum of the three categories' withholding |
| `Calculator.TaxCalculator.TotalTax` | tax_calculator.py:56-90 | the tax owed on the ledger is at most each assessment of its category totals and equal to one of them; it is non-negative when dividend income is; it is 0 for an empty ledger |
| `Calculator.TaxCalculator.ComputeTax` | tax_calculator.py:92-96 | the balance plus total withholding is the tax owed; the balance is the tax owed less the three categories' withholding; it is 0 for an empty ledger |
| `Calculator.RefundScenario` | main.py:5-17 | wages 290,000, interest 12,000 and dividends 15,000 with 11,500 withheld: tax owed 4,750 (simplified), balance -6,750 (a refund) |
| `Calculator.OwedScenario` | main.py:20-32 | wages 8,000,000, dividends 2 x 4,000,000 and interest 2,000,000 with 800,000 withheld: tax owed 3,441,000 (separate), balance 2,641,000 still owed |

## Left out

- `print_tax` (tax_calculator.py:98-121) is not modelled: it only prints and formats numbers.
- The taxpayer record (person.py) is not modelled. No computation reads it, so the calculator stores it as a value of a type parameter `P`. Its custom equality on id and last name plays no part in the tax.
- main.py is not modelled as a script. It prints its results, and its calls do not match the calculator's interface: it passes a tuple as the taxpayer and gives `add_income` four loose arguments with string categories. Its two scenarios are restated as `RefundScenario` and `OwedScenario` on the typed interface.
- Floating-point rounding is not modelled. Amounts are exact reals, so the model has none of the drift Python's `float` can add to sums and percentages.
- Records whose category is not one of the three are not modelled, because `IncomeType` is a closed datatype. The code does not enforce its type hints, so such a record (a string category, say) would count in `total_income` and `total_tax_withheld` (tax_calculator.py:49, 54) but in no per-category sum (tax_calculator.py:125-133). `SumIsSumOfTypes` and the `TotalIncome` and `TotalTaxWithheld` contracts hold because the type is closed; for such a ledger the code would break them.
- Input validation is not modelled because the code has none. Records with negative amounts are accepted, as they are in the code.
- `Assessment.TotalTax`: non-negativity is stated only when the dividend total is non-negative. The code does not validate amounts, and a negative dividend total can make the result negative, as `NegativeDividendMakesNegativeTax` shows; `OnlyDividendsGoNegative` shows that nothing else can.
- `Calculator.TaxCalculator.TotalTax`: non-negativity holds only when the ledger's dividend income is non-negative, for the same reason.
- The description field (spelled `descripton` in the code) is kept as an uninterpreted string. Nothing reads it.
- Idempotence of the queries is not stated as a lemma. The queries are Dafny functions of the ledger, so two calls on an unchanged ledger always agree.
