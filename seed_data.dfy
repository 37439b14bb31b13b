/**
 * The two hardcoded tables of the tracker: the flat monthly budget and the
 * actuals recorded for the five months Jul-25 to Nov-25, together
 * with the month order used by every chart.
 */
module SeedData {
  import opened Ledger

  /** `budgetData`: one monthly target. */
  function BudgetData(): (d: Period)
    ensures WellFormed(d) && NonNegative(d.expenses) && NonNegative(d.revenue)
  {
    Period(
      [Entry("rent", 10000), Entry("staff", 18000), Entry("supplies", 9000), Entry("utilities", 6000)],
      [Entry("bagels", 15000), Entry("cakes", 2000), Entry("coffee", 30000), Entry("granola", 5000)])
  }

  function Month(rent: int, staff: int, supplies: int, utilities: int,
                 bagels: int, cakes: int, coffee: int, granola: int): Period
  {
    Period(
      [Entry("rent", rent), Entry("staff", staff), Entry("supplies", supplies), Entry("utilities", utilities)],
      [Entry("bagels", bagels), Entry("cakes", cakes), Entry("coffee", coffee), Entry("granola", granola)])
  }

  /** `actualData`: the recorded actuals, keyed by month name. */
  function ActualData(): (d: map<string, Period>)
    ensures Covers(d, Months())
  {
    map[
      "Jul-25" := Month(12500, 17640, 10710, 7680, 19500, 2160, 36600, 6200),
      "Aug-25" := Month(10700, 16020, 8100, 4920, 15000, 1420, 37200, 6050),
      "Sep-25" := Month(11500, 15480, 11340, 5940, 12600, 1620, 22200, 5450),
      "Oct-25" := Month(11600, 18900, 7020, 7620, 15300, 1580, 35700, 3900),
      "Nov-25" := Month(12600, 15300, 11610, 5280, 13500, 1440, 30300, 6100)]
  }

  /** `months`: the chart order of the months. */
  function Months(): (ms: seq<string>)
    ensures |ms| == 5
    ensures forall i, j | 0 <= i < j < |ms| :: ms[i] != ms[j]
  {
    ["Jul-25", "Aug-25", "Sep-25", "Oct-25", "Nov-25"]
  }

  /** The seeded tables are complete: every month of the chart order has actuals. */
  lemma SeedCoversMonths()
    ensures Covers(ActualData(), Months())
    ensures |Months()| == 5
  {
  }

  /** Every record laid out like the tables has the budget's schema. */
  lemma MonthSchema(rent: int, staff: int, supplies: int, utilities: int,
                    bagels: int, cakes: int, coffee: int, granola: int)
    requires rent >= 0 && staff >= 0 && supplies >= 0 && utilities >= 0
    requires bagels >= 0 && cakes >= 0 && coffee >= 0 && granola >= 0
    ensures var p := Month(rent, staff, supplies, utilities, bagels, cakes, coffee, granola);
            && WellFormed(p) && NonNegative(p.expenses) && NonNegative(p.revenue)
            && SameCategories(BudgetData().expenses, p.expenses)
            && SameCategories(BudgetData().revenue, p.revenue)
  {
  }

  /**
   * The seeded records share one schema: unique category names, no negative
   * amounts, and every month lists the budget's categories in the budget's order.
   */
  lemma SeedSchema()
    ensures WellFormed(BudgetData()) && NonNegative(BudgetData().expenses) && NonNegative(BudgetData().revenue)
    ensures forall m | m in ActualData() ::
      && WellFormed(ActualData()[m])
      && NonNegative(ActualData()[m].expenses) && NonNegative(ActualData()[m].revenue)
      && SameCategories(BudgetData().expenses, ActualData()[m].expenses)
      && SameCategories(BudgetData().revenue, ActualData()[m].revenue)
  {
    MonthSchema(10000, 18000, 9000, 6000, 15000, 2000, 30000, 5000);
    assert BudgetData() == Month(10000, 18000, 9000, 6000, 15000, 2000, 30000, 5000);
    MonthSchema(12500, 17640, 10710, 7680, 19500, 2160, 36600, 6200);
    MonthSchema(10700, 16020, 8100, 4920, 15000, 1420, 37200, 6050);
    MonthSchema(11500, 15480, 11340, 5940, 12600, 1620, 22200, 5450);
    MonthSchema(11600, 18900, 7020, 7620, 15300, 1580, 35700, 3900);
    MonthSchema(12600, 15300, 11610, 5280, 13500, 1440, 30300, 6100);
  }

  /** The total of a four-category section, as every section of the tables has. */
  lemma SectionTotalOfFour(w: Entry, x: Entry, y: Entry, z: Entry)
    ensures SectionTotal([w, x, y, z]) == w.amount + x.amount + y.amount + z.amount
  {
    var s := Amounts([w, x, y, z]);
    assert s == [w.amount, x.amount, y.amount, z.amount];
    assert s[..3][..2][..1][..0] == [];
    assert Sum(s[..1]) == w.amount;
    assert Sum(s[..2]) == Sum(s[..1]) + x.amount by { assert s[..2][..1] == s[..1]; }
    assert Sum(s[..3]) == Sum(s[..2]) + y.amount by { assert s[..3][..2] == s[..2]; }
  }

  /** The totals of one record laid out like the tables. */
  lemma MonthTotals(rent: int, staff: int, supplies: int, utilities: int,
                    bagels: int, cakes: int, coffee: int, granola: int)
    ensures var expenses := rent + staff + supplies + utilities;
            var revenue := bagels + cakes + coffee + granola;
            CalculateTotals(Month(rent, staff, supplies, utilities, bagels, cakes, coffee, granola))
              == Totals(expenses, revenue, revenue - expenses)
  {
    SectionTotalOfFour(Entry("rent", rent), Entry("staff", staff), Entry("supplies", supplies), Entry("utilities", utilities));
    SectionTotalOfFour(Entry("bagels", bagels), Entry("cakes", cakes), Entry("coffee", coffee), Entry("granola", granola));
  }

  /** The budget totals shown on the overview cards. */
  lemma BudgetTotalsValue()
    ensures CalculateTotals(BudgetData()) == Totals(43000, 52000, 9000)
  {
    assert BudgetData() == Month(10000, 18000, 9000, 6000, 15000, 2000, 30000, 5000);
    MonthTotals(10000, 18000, 9000, 6000, 15000, 2000, 30000, 5000);
  }

  /** The totals of the November actuals. */
  lemma NovemberTotalsValue()
    ensures "Nov-25" in ActualData()
    ensures CalculateTotals(ActualData()["Nov-25"]) == Totals(44790, 51340, 6550)
  {
    MonthTotals(12600, 15300, 11610, 5280, 13500, 1440, 30300, 6100);
  }

  /** The totals of every month of actuals, in month order. */
  lemma ActualTotalsValues()
    ensures Covers(ActualData(), Months())
    ensures CalculateTotals(ActualData()["Jul-25"]) == Totals(48530, 64460, 15930)
    ensures CalculateTotals(ActualData()["Aug-25"]) == Totals(39740, 59670, 19930)
    ensures CalculateTotals(ActualData()["Sep-25"]) == Totals(44260, 41870, -2390)
    ensures CalculateTotals(ActualData()["Oct-25"]) == Totals(45140, 56480, 11340)
    ensures CalculateTotals(ActualData()["Nov-25"]) == Totals(44790, 51340, 6550)
  {
    MonthTotals(12500, 17640, 10710, 7680, 19500, 2160, 36600, 6200);
    MonthTotals(10700, 16020, 8100, 4920, 15000, 1420, 37200, 6050);
    MonthTotals(11500, 15480, 11340, 5940, 12600, 1620, 22200, 5450);
    MonthTotals(11600, 18900, 7020, 7620, 15300, 1580, 35700, 3900);
    MonthTotals(12600, 15300, 11610, 5280, 13500, 1440, 30300, 6100);
  }
}
