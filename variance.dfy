/**
 * Variances of actual against budget: `calculateVariance` for one figure, the
 * per-category breakdown of the monthly detail view, and the net-income
 * variance of the selected month.
 */
module Variance {
  import opened Wrappers
  import opened Ledger
  import opened SeedData

  /**
   * The percentage as the JavaScript division produces it: an exact ratio
   * when the budget is not zero, otherwise `NaN` (for 0 / 0) or an infinity
   * with the sign of the variance.
   */
  datatype Ratio = Finite(value: real) | PositiveInfinity | NegativeInfinity | NotANumber

  /** What `calculateVariance` returns. */
  datatype VarianceResult = VarianceResult(variance: int, percentage: Ratio)

  /** `calculateVariance(actual, budget)`: actual less budget, and that as a percentage of budget. */
  function CalculateVariance(actual: int, budget: int): (v: VarianceResult)
    ensures budget + v.variance == actual
    ensures budget != 0 <==> v.percentage.Finite?
    ensures budget != 0 ==> v.percentage.value * budget as real == (v.variance * 100) as real
    ensures budget > 0 ==> (v.percentage.value > 0.0 <==> actual > budget)
    ensures budget > 0 ==> (v.percentage.value == 0.0 <==> actual == budget)
    ensures budget == 0 ==> (v.percentage.NotANumber? <==> actual == 0)
    ensures budget == 0 ==> (v.percentage.PositiveInfinity? <==> actual > 0)
  {
    var variance := actual - budget;
    var percentage :=
      if budget != 0 then Finite(variance as real / budget as real * 100.0)
      else if variance == 0 then NotANumber
      else if variance > 0 then PositiveInfinity
      else NegativeInfinity;
    VarianceResult(variance, percentage)
  }

  /** One line of the revenue or expense analysis of the monthly detail view. */
  datatype CategoryVariance = CategoryVariance(
    category: string, budget: int, actual: Option<int>, result: Option<VarianceResult>)

  /**
   * `Object.entries(budgetSection).map(...)`: for each budget category, in
   * order, the selected month's figure and its variance.  A category missing
   * from the month reads as `undefined` and yields no numeric variance.
   */
  function SectionVariances(budgetSection: Section, actualSection: Section): (rows: seq<CategoryVariance>)
    ensures |rows| == |budgetSection|
    ensures forall i | 0 <= i < |rows| ::
      && rows[i].category == budgetSection[i].name
      && rows[i].budget == budgetSection[i].amount
      && rows[i].actual == Lookup(actualSection, budgetSection[i].name)
      && (rows[i].result.Some? <==> rows[i].actual.Some?)
      && (rows[i].actual.Some? ==> rows[i].result.value == CalculateVariance(rows[i].actual.value, rows[i].budget))
  {
    if |budgetSection| == 0 then []
    else
      var entry := budgetSection[0];
      var actualValue := Lookup(actualSection, entry.name);
      var result := if actualValue.Some? then Some(CalculateVariance(actualValue.value, entry.amount)) else None;
      [CategoryVariance(entry.name, entry.amount, actualValue, result)]
      + SectionVariances(budgetSection[1..], actualSection)
  }

  /**
   * The absolute variances of a breakdown.  A category without actuals has no
   * numeric variance (the source computes `undefined - budget`, which is
   * `NaN`); the column puts 0 there only so that it is defined for every
   * breakdown.  It is summed under `SameCategories`, where every line has a
   * variance (`SectionVariancesAddUp`), so the 0 is never used.
   */
  function VarianceColumn(rows: seq<CategoryVariance>): seq<int>
  {
    seq(|rows|, i requires 0 <= i < |rows| => if rows[i].result.Some? then rows[i].result.value.variance else 0)
  }

  /** Summing differences position by position gives the difference of the sums. */
  lemma {:induction false} SumOfDifferences(d: seq<int>, a: seq<int>, b: seq<int>)
    requires |d| == |a| == |b|
    requires forall i | 0 <= i < |d| :: d[i] == a[i] - b[i]
    ensures Sum(d) == Sum(a) - Sum(b)
  {
    if |d| > 0 {
      var n := |d| - 1;
      SumOfDifferences(d[..n], a[..n], b[..n]);
    }
  }

  /**
   * When the month lists the budget's categories, every line of the breakdown
   * has a variance, and the variances add up to the section's total variance.
   */
  lemma SectionVariancesAddUp(budgetSection: Section, actualSection: Section)
    requires DistinctNames(actualSection)
    requires SameCategories(budgetSection, actualSection)
    ensures forall i | 0 <= i < |budgetSection| :: SectionVariances(budgetSection, actualSection)[i].result.Some?
    ensures Sum(VarianceColumn(SectionVariances(budgetSection, actualSection)))
         == CalculateVariance(SectionTotal(actualSection), SectionTotal(budgetSection)).variance
  {
    var rows := SectionVariances(budgetSection, actualSection);
    forall i | 0 <= i < |budgetSection|
      ensures rows[i].actual == Some(actualSection[i].amount)
    {
      LookupFindsEntry(actualSection, i);
    }
    SumOfDifferences(VarianceColumn(rows), Amounts(actualSection), Amounts(budgetSection));
  }

  /** The variance shown on the net income summary for the selected month. */
  function NetIncomeVariance(selectedTotals: Totals, budgetTotals: Totals): (v: int)
    ensures budgetTotals.netIncome + v == selectedTotals.netIncome
    ensures v >= 0 <==> selectedTotals.netIncome >= budgetTotals.netIncome
  {
    selectedTotals.netIncome - budgetTotals.netIncome
  }

  /**
   * The net-income variance of a month is its revenue variance less its
   * expense variance.
   */
  lemma NetIncomeVarianceSplits(selected: Period, budget: Period)
    ensures NetIncomeVariance(CalculateTotals(selected), CalculateTotals(budget))
         == CalculateVariance(SectionTotal(selected.revenue), SectionTotal(budget.revenue)).variance
            - CalculateVariance(SectionTotal(selected.expenses), SectionTotal(budget.expenses)).variance
  {
  }

  /** The rent line of November: 12600 against 10000 is 2600 over, 26 percent. */
  lemma NovemberRentVariance()
    ensures "Nov-25" in ActualData()
    ensures SectionVariances(BudgetData().expenses, ActualData()["Nov-25"].expenses)[0]
         == CategoryVariance("rent", 10000, Some(12600), Some(VarianceResult(2600, Finite(26.0))))
  {
  }

  /** November's net income falls 2450 short of the budgeted 9000. */
  lemma NovemberNetIncomeVariance()
    ensures "Nov-25" in ActualData()
    ensures NetIncomeVariance(CalculateTotals(ActualData()["Nov-25"]), CalculateTotals(BudgetData())) == -2450
  {
    NovemberTotalsValue();
    BudgetTotalsValue();
  }

  /** November's expense lines add up to 1790 over budget. */
  lemma NovemberExpenseVariancesAddUp()
    ensures "Nov-25" in ActualData()
    ensures Sum(VarianceColumn(SectionVariances(BudgetData().expenses, ActualData()["Nov-25"].expenses))) == 1790
  {
    SeedSchema();
    NovemberTotalsValue();
    BudgetTotalsValue();
    SectionVariancesAddUp(BudgetData().expenses, ActualData()["Nov-25"].expenses);
  }
}
