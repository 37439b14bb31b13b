/**
 * The cumulative profit-and-loss series (`cumulativeData`).  For each month
 * of the order, the tracker re-walks the months up to and including it and
 * accumulates the budget net income and the actual net income into two
 * running totals.
 */
module Cumulative {
  import opened Ledger
  import opened SeedData
  import opened Trends

  lemma MulSucc(n: int, c: int)
    ensures (n + 1) * c == n * c + c
  {
  }

  /** One row of `cumulativeData`. */
  datatype CumulativeRow = CumulativeRow(month: string, cumulativeBudgetNet: int, cumulativeActualNet: int)

  /**
   * The running actual net income over the first `n` months: each month's
   * net income added in month order, as the `forEach` accumulation does.
   */
  function RunningActualNet(months: seq<string>, actuals: map<string, Period>, n: nat): int
    requires Covers(actuals, months)
    requires n <= |months|
  {
    if n == 0 then 0
    else RunningActualNet(months, actuals, n - 1) + CalculateTotals(actuals[months[n - 1]]).netIncome
  }

  /**
   * The running budget net income over the first `n` months: the budget net
   * income added once per month.
   */
  function RunningBudgetNet(budgetTotals: Totals, n: nat): int
  {
    if n == 0 then 0 else RunningBudgetNet(budgetTotals, n - 1) + budgetTotals.netIncome
  }

  /** The running budget net income is a multiple of the monthly target. */
  lemma {:induction false} RunningBudgetNetIsMultiple(budgetTotals: Totals, n: nat)
    ensures RunningBudgetNet(budgetTotals, n) == n * budgetTotals.netIncome
  {
    if n > 0 {
      RunningBudgetNetIsMultiple(budgetTotals, n - 1);
      MulSucc(n - 1, budgetTotals.netIncome);
    }
  }

  /**
   * What row `index` of the cumulative series holds: its month, and the
   * budget and actual net income accumulated over months `0..index`.
   */
  function CumulativeRowSpec(months: seq<string>, budgetTotals: Totals, actuals: map<string, Period>, index: nat): CumulativeRow
    requires Covers(actuals, months)
    requires index < |months|
  {
    CumulativeRow(months[index], RunningBudgetNet(budgetTotals, index + 1), RunningActualNet(months, actuals, index + 1))
  }

  /**
   * The body of the `months.map` callback for position `index`: walks
   * `months.slice(0, index + 1)` and adds up both net incomes.
   */
  method CumulativeRowAt(months: seq<string>, budgetTotals: Totals, actuals: map<string, Period>, index: nat)
    returns (row: CumulativeRow)
    requires Covers(actuals, months)
    requires index < |months|
    ensures row == CumulativeRowSpec(months, budgetTotals, actuals, index)
  {
    var monthsToInclude := months[..index + 1];
    var cumulativeBudgetNet := 0;
    var cumulativeActualNet := 0;
    for k := 0 to |monthsToInclude|
      invariant cumulativeBudgetNet == RunningBudgetNet(budgetTotals, k)
      invariant cumulativeActualNet == RunningActualNet(months, actuals, k)
    {
      var actual := actuals[monthsToInclude[k]];
      var actualTotals := CalculateTotals(actual);
      cumulativeBudgetNet := cumulativeBudgetNet + budgetTotals.netIncome;
      cumulativeActualNet := cumulativeActualNet + actualTotals.netIncome;
    }
    row := CumulativeRow(months[index], cumulativeBudgetNet, cumulativeActualNet);
  }

  /**
   * `cumulativeData`: one row per month, in order; row `i` holds the budget
   * and actual net income accumulated over months `0..i`.
   */
  method CumulativeData(months: seq<string>, budgetTotals: Totals, actuals: map<string, Period>)
    returns (rows: seq<CumulativeRow>)
    requires Covers(actuals, months)
    ensures |rows| == |months|
    ensures forall i | 0 <= i < |rows| :: rows[i] == CumulativeRowSpec(months, budgetTotals, actuals, i)
  {
    rows := [];
    for index := 0 to |months|
      invariant |rows| == index
      invariant forall i | 0 <= i < index :: rows[i] == CumulativeRowSpec(months, budgetTotals, actuals, i)
    {
      var row := CumulativeRowAt(months, budgetTotals, actuals, index);
      rows := rows + [row];
    }
  }

  /**
   * The running actual net income is the running sum of the trend series'
   * `actualNet` column.
   */
  lemma {:induction false} RunningActualNetIsChartSum(months: seq<string>, budgetTotals: Totals, actuals: map<string, Period>, n: nat)
    requires Covers(actuals, months)
    requires n <= |months|
    ensures RunningActualNet(months, actuals, n) == Sum(ActualNetColumn(ChartData(months, budgetTotals, actuals))[..n])
  {
    if n > 0 {
      var nets := ActualNetColumn(ChartData(months, budgetTotals, actuals));
      ActualNetAt(months, budgetTotals, actuals, n - 1);
      SumPrefixStep(nets, n);
      RunningActualNetIsChartSum(months, budgetTotals, actuals, n - 1);
    }
  }

  /** Position `k` of the `actualNet` column is the net income of month `k`. */
  lemma ActualNetAt(months: seq<string>, budgetTotals: Totals, actuals: map<string, Period>, k: nat)
    requires Covers(actuals, months)
    requires k < |months|
    ensures ActualNetColumn(ChartData(months, budgetTotals, actuals))[k] == CalculateTotals(actuals[months[k]]).netIncome
  {
    var rows := ChartData(months, budgetTotals, actuals);
    assert ActualNetColumn(rows)[k] == rows[k].actualNet;
  }

  /** Consecutive running totals differ by exactly that month's actual net income. */
  lemma CumulativeStep(months: seq<string>, budgetTotals: Totals, actuals: map<string, Period>, i: nat)
    requires Covers(actuals, months)
    requires i + 1 < |months|
    ensures RunningActualNet(months, actuals, i + 2)
         == RunningActualNet(months, actuals, i + 1) + ChartData(months, budgetTotals, actuals)[i + 1].actualNet
  {
  }

  /**
   * The running budget net income is the running sum of the trend series'
   * `budgetNet` column.
   */
  lemma {:induction false} RunningBudgetNetIsChartSum(months: seq<string>, budgetTotals: Totals, actuals: map<string, Period>, n: nat)
    requires Covers(actuals, months)
    requires n <= |months|
    ensures RunningBudgetNet(budgetTotals, n) == Sum(BudgetNetColumn(ChartData(months, budgetTotals, actuals))[..n])
  {
    if n > 0 {
      var rows := ChartData(months, budgetTotals, actuals);
      var nets := BudgetNetColumn(rows);
      SumPrefixStep(nets, n);
      assert nets[n - 1] == budgetTotals.netIncome by {
        assert nets[n - 1] == rows[n - 1].budgetNet;
      }
      RunningBudgetNetIsChartSum(months, budgetTotals, actuals, n - 1);
    }
  }

  /** On the seeded tables the running actual net income reaches 51360 after five months. */
  lemma SeededRunningActualNet()
    ensures Covers(ActualData(), Months())
    ensures RunningActualNet(Months(), ActualData(), 5) == 51360
  {
    ActualTotalsValues();
    assert RunningActualNet(Months(), ActualData(), 1) == 15930;
    assert RunningActualNet(Months(), ActualData(), 2) == 35860;
    assert RunningActualNet(Months(), ActualData(), 3) == 33470;
    assert RunningActualNet(Months(), ActualData(), 4) == 44810;
  }

  /** The last cumulative row of the seeded dashboard. */
  method SeededCumulativeData() returns (rows: seq<CumulativeRow>)
    ensures |rows| == 5
    ensures rows[4] == CumulativeRow("Nov-25", 45000, 51360)
  {
    SeedCoversMonths();
    BudgetTotalsValue();
    rows := CumulativeData(Months(), CalculateTotals(BudgetData()), ActualData());
    SeededRunningActualNet();
    RunningBudgetNetIsMultiple(CalculateTotals(BudgetData()), 5);
  }
}
