/** The income records of one taxpayer and the sums taken over them.

    A ledger is a sequence of `Income` values in the order they were added.
    Every sum is a left fold, as Python's `sum` over a generator is: the sum of
    a sequence is the sum of all but its last record plus the last record. */
module Ledger {

  /** The three income categories a record can carry. */
  datatype IncomeType = Wages | Interest | Dividend

  /** The text each category shows on the tax form. */
  function Label(t: IncomeType): string
  {
    match t
    case Wages => "Ordinary"
    case Interest => "Interest"
    case Dividend => "Dividend"
  }

  /** The three categories carry pairwise different values. In a Python
      enumeration a member whose value repeats an earlier one is only an alias
      of it, so distinct values are what keep the three categories distinct
      when the per-category sums compare a record's category with the one
      asked for. */
  lemma LabelInjective(a: IncomeType, b: IncomeType)
    ensures Label(a) == Label(b) ==> a == b
  {
  }

  /** One immutable income item: its category, a free-text description, the
      amount earned and the tax already withheld on it. Nothing constrains the
      sign of either amount. */
  datatype Income = Income(incomeType: IncomeType, description: string, amount: real, taxWithheld: real)

  /** Which of the two monetary fields of a record a sum adds up. */
  datatype Measure = Amount | TaxWithheld

  function Get(i: Income, m: Measure): real
  {
    match m
    case Amount => i.amount
    case TaxWithheld => i.taxWithheld
  }

  /** The sum of one field over every record. */
  function Sum(s: seq<Income>, m: Measure): real
    decreases |s|
  {
    if s == [] then 0.0 else Sum(s[..|s| - 1], m) + Get(s[|s| - 1], m)
  }

  /** The sum of one field over the records of category `t` only; the other
      records are skipped. */
  function SumByType(s: seq<Income>, m: Measure, t: IncomeType): real
    decreases |s|
  {
    if s == [] then 0.0
    else
      var rest := SumByType(s[..|s| - 1], m, t);
      if s[|s| - 1].incomeType == t then rest + Get(s[|s| - 1], m) else rest
  }

  /** What one record contributes to the sum of category `t`. */
  function Contribution(i: Income, m: Measure, t: IncomeType): real
  {
    if i.incomeType == t then Get(i, m) else 0.0
  }

  /** Appending a record raises the grand total by its field. */
  lemma SumAppend(s: seq<Income>, i: Income, m: Measure)
    ensures Sum(s + [i], m) == Sum(s, m) + Get(i, m)
  {
  }

  /** Appending a record raises the sum of its own category by its field and
      leaves the sum of every other category as it was. */
  lemma SumByTypeAppend(s: seq<Income>, i: Income, m: Measure, t: IncomeType)
    ensures SumByType(s + [i], m, t) == SumByType(s, m, t) + Contribution(i, m, t)
    ensures i.incomeType == t ==> SumByType(s + [i], m, t) == SumByType(s, m, t) + Get(i, m)
    ensures i.incomeType != t ==> SumByType(s + [i], m, t) == SumByType(s, m, t)
  {
  }

  /** The grand total of a concatenation is the sum of the two totals. */
  lemma {:induction false} SumConcat(a: seq<Income>, b: seq<Income>, m: Measure)
    ensures Sum(a + b, m) == Sum(a, m) + Sum(b, m)
    decreases |b|
  {
    if b == [] {
      assert a + b == a;
    } else {
      var init := b[..|b| - 1];
      assert a + b == (a + init) + [b[|b| - 1]];
      SumAppend(a + init, b[|b| - 1], m);
      SumConcat(a, init, m);
      assert b == init + [b[|b| - 1]];
      SumAppend(init, b[|b| - 1], m);
    }
  }

  /** The sum of a category over a concatenation is the sum of the two parts. */
  lemma {:induction false} SumByTypeConcat(a: seq<Income>, b: seq<Income>, m: Measure, t: IncomeType)
    ensures SumByType(a + b, m, t) == SumByType(a, m, t) + SumByType(b, m, t)
    decreases |b|
  {
    if b == [] {
      assert a + b == a;
    } else {
      var init := b[..|b| - 1];
      assert a + b == (a + init) + [b[|b| - 1]];
      SumByTypeAppend(a + init, b[|b| - 1], m, t);
      SumByTypeConcat(a, init, m, t);
      assert b == init + [b[|b| - 1]];
      SumByTypeAppend(init, b[|b| - 1], m, t);
    }
  }

  /** Every record has one of the three categories, so the three category sums
      add up to the grand total. */
  lemma {:induction false} SumIsSumOfTypes(s: seq<Income>, m: Measure)
    ensures Sum(s, m) == SumByType(s, m, Wages) + SumByType(s, m, Interest) + SumByType(s, m, Dividend)
    decreases |s|
  {
    if s != [] {
      SumIsSumOfTypes(s[..|s| - 1], m);
    }
  }

  /** A category none of whose records is present sums to zero. */
  lemma {:induction false} SumByTypeAbsent(s: seq<Income>, m: Measure, t: IncomeType)
    ensures (forall k :: 0 <= k < |s| ==> s[k].incomeType != t) ==> SumByType(s, m, t) == 0.0
    decreases |s|
  {
    if s != [] {
      SumByTypeAbsent(s[..|s| - 1], m, t);
    }
  }

  /** Taking the record at index `j` out of a ledger removes one copy of it
      and its contribution to every category sum. */
  lemma SumByTypeRemove(b: seq<Income>, j: nat, m: Measure, t: IncomeType)
    requires j < |b|
    ensures multiset(b[..j] + b[j + 1..]) == multiset(b) - multiset{b[j]}
    ensures SumByType(b, m, t) == SumByType(b[..j] + b[j + 1..], m, t) + Contribution(b[j], m, t)
  {
    assert b == b[..j] + [b[j]] + b[j + 1..];
    SumByTypeConcat(b[..j] + [b[j]], b[j + 1..], m, t);
    SumByTypeAppend(b[..j], b[j], m, t);
    SumByTypeConcat(b[..j], b[j + 1..], m, t);
  }

  /** The order in which records were added does not matter: two ledgers with
      the same records, counted with multiplicity, have the same sums. */
  lemma {:induction false} SumByTypePermutation(a: seq<Income>, b: seq<Income>, m: Measure, t: IncomeType)
    requires multiset(a) == multiset(b)
    ensures SumByType(a, m, t) == SumByType(b, m, t)
    decreases |a|
  {
    if a == [] {
      assert |b| == |multiset(b)| == 0;
    } else {
      var x := a[|a| - 1];
      var init := a[..|a| - 1];
      assert a == init + [x];
      assert x in multiset(b);
      var j :| 0 <= j < |b| && b[j] == x;
      SumByTypeRemove(b, j, m, t);
      var rest := b[..j] + b[j + 1..];
      assert multiset(init) == multiset(a) - multiset{x};
      SumByTypePermutation(init, rest, m, t);
      SumByTypeAppend(init, x, m, t);
    }
  }

  /** The grand total does not depend on the order of the records either. */
  lemma SumPermutation(a: seq<Income>, b: seq<Income>, m: Measure)
    requires multiset(a) == multiset(b)
    ensures Sum(a, m) == Sum(b, m)
  {
    SumIsSumOfTypes(a, m);
    SumIsSumOfTypes(b, m);
    SumByTypePermutation(a, b, m, Wages);
    SumByTypePermutation(a, b, m, Interest);
    SumByTypePermutation(a, b, m, Dividend);
  }
}
