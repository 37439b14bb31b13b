/**
 * The month-by-month series behind the trend charts (`chartData`) and the
 * product performance charts (`productData`).  Both map the month order to
 * one row per month; the budget side of every row is the flat monthly target.
 */
module Trends {
  import opened Wrappers
  import opened Ledger
  import opened SeedData

  /** One row of `chartData`. */
  datatype ChartRow = ChartRow(
    month: string,
    budgetRevenue: int, actualRevenue: int,
    budgetExpenses: int, actualExpenses: int,
    budgetNet: int, actualNet: int)

  /**
   * `chartData`: for each month, in order, the budget totals beside that
   * month's actual totals.  Reading `actualData[month]` for a month without
   * actuals makes `calculateTotals` throw, so every month must be covered.
   */
  function ChartData(months: seq<string>, budgetTotals: Totals, actuals: map<string, Period>): (rows: seq<ChartRow>)
    requires Covers(actuals, months)
    ensures |rows| == |months|
    ensures forall i | 0 <= i < |rows| ::
      && rows[i].month == months[i]
      && rows[i].actualRevenue == SectionTotal(actuals[months[i]].revenue)
      && rows[i].actualExpenses == SectionTotal(actuals[months[i]].expenses)
      && rows[i].actualNet == rows[i].actualRevenue - rows[i].actualExpenses
    ensures forall i | 0 <= i < |rows| ::
      && rows[i].budgetRevenue == budgetTotals.revenueTotal
      && rows[i].budgetExpenses == budgetTotals.expenseTotal
      && rows[i].budgetNet == budgetTotals.netIncome
  {
    if |months| == 0 then []
    else
      var month := months[0];
      var actualTotals := CalculateTotals(actuals[month]);
      [ChartRow(month,
                budgetTotals.revenueTotal, actualTotals.revenueTotal,
                budgetTotals.expenseTotal, actualTotals.expenseTotal,
                budgetTotals.netIncome, actualTotals.netIncome)]
      + ChartData(months[1..], budgetTotals, actuals)
  }

  /** The budget columns of the trend series are the same in every row. */
  lemma BudgetColumnsConstant(months: seq<string>, budgetTotals: Totals, actuals: map<string, Period>, i: nat, j: nat)
    requires Covers(actuals, months)
    requires i < |months| && j < |months|
    ensures var rows := ChartData(months, budgetTotals, actuals);
            && rows[i].budgetRevenue == rows[j].budgetRevenue
            && rows[i].budgetExpenses == rows[j].budgetExpenses
            && rows[i].budgetNet == rows[j].budgetNet
  {
  }

  /** The `actualNet` column of a trend series. */
  function ActualNetColumn(rows: seq<ChartRow>): seq<int>
  {
    seq(|rows|, i requires 0 <= i < |rows| => rows[i].actualNet)
  }

  /** The `budgetNet` column of a trend series. */
  function BudgetNetColumn(rows: seq<ChartRow>): seq<int>
  {
    seq(|rows|, i requires 0 <= i < |rows| => rows[i].budgetNet)
  }

  /** A budget and an actual figure for one product in one month. */
  datatype ProductFigures = ProductFigures(budget: Option<int>, actual: Option<int>)

  /** One row of `productData`. */
  datatype ProductRow = ProductRow(
    month: string,
    bagels: ProductFigures, cakes: ProductFigures,
    coffee: ProductFigures, granola: ProductFigures)

  function Figures(budget: Period, actual: Period, product: string): ProductFigures
  {
    ProductFigures(Lookup(budget.revenue, product), Lookup(actual.revenue, product))
  }

  /**
   * `productData`: for each month, in order, the budgeted and the actual
   * revenue of each of the four products.  A product missing from a record
   * reads as `undefined`, here `None`.
   */
  function ProductData(months: seq<string>, budget: Period, actuals: map<string, Period>): (rows: seq<ProductRow>)
    requires Covers(actuals, months)
    ensures |rows| == |months|
    ensures forall i | 0 <= i < |rows| ::
      && rows[i].month == months[i]
      && rows[i].bagels == ProductFigures(Lookup(budget.revenue, "bagels"), Lookup(actuals[months[i]].revenue, "bagels"))
      && rows[i].cakes == ProductFigures(Lookup(budget.revenue, "cakes"), Lookup(actuals[months[i]].revenue, "cakes"))
      && rows[i].coffee == ProductFigures(Lookup(budget.revenue, "coffee"), Lookup(actuals[months[i]].revenue, "coffee"))
      && rows[i].granola == ProductFigures(Lookup(budget.revenue, "granola"), Lookup(actuals[months[i]].revenue, "granola"))
  {
    if |months| == 0 then []
    else
      var month := months[0];
      var actual := actuals[month];
      [ProductRow(month,
                  Figures(budget, actual, "bagels"), Figures(budget, actual, "cakes"),
                  Figures(budget, actual, "coffee"), Figures(budget, actual, "granola"))]
      + ProductData(months[1..], budget, actuals)
  }

  /** November's row of the seeded trend series. */
  lemma SeededNovemberChartRow()
    ensures Covers(ActualData(), Months())
    ensures ChartData(Months(), CalculateTotals(BudgetData()), ActualData())[4]
         == ChartRow("Nov-25", 52000, 51340, 43000, 44790, 9000, 6550)
  {
    SeedCoversMonths();
    BudgetTotalsValue();
    NovemberTotalsValue();
  }

  /**
   * On the seeded tables every product figure is defined, and the budget
   * side of each month is the flat monthly target.
   */
  lemma SeededProductBudgets(i: nat)
    requires i < 5
    ensures Covers(ActualData(), Months())
    ensures var row := ProductData(Months(), BudgetData(), ActualData())[i];
            && row.bagels.budget == Some(15000) && row.bagels.actual.Some?
            && row.cakes.budget == Some(2000) && row.cakes.actual.Some?
            && row.coffee.budget == Some(30000) && row.coffee.actual.Some?
            && row.granola.budget == Some(5000) && row.granola.actual.Some?
  {
    SeedCoversMonths();
    var m := Months()[i];
    var r := ActualData()[m].revenue;
    assert |r| == 4;
    assert r[0].name == "bagels" && r[1].name == "cakes" && r[2].name == "coffee" && r[3].name == "granola";
  }

  /** November's row of the seeded product series. */
  lemma SeededNovemberProducts()
    ensures Covers(ActualData(), Months())
    ensures ProductData(Months(), BudgetData(), ActualData())[4]
         == ProductRow("Nov-25",
                       ProductFigures(Some(15000), Some(13500)), ProductFigures(Some(2000), Some(1440)),
                       ProductFigures(Some(30000), Some(30300)), ProductFigures(Some(5000), Some(6100)))
  {
    SeedCoversMonths();
  }
}
