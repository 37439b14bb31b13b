# Lakehouse budget tracker: derived metrics

This project models the derived metrics of the `LakehouseBudgetTracker`
dashboard. The dashboard compares a flat monthly budget with five months of
actual figures for a small food-service business.

Its inputs are two hardcoded tables:

- `budgetData` holds one monthly target, with four expense categories and four revenue categories.
- `actualData` holds one record of the same shape for each month, keyed by month name.

The order of the months is fixed by the list `months`.

From these tables the dashboard derives the following figures:

- the totals of a period: expenses, revenue, and net income (revenue less expenses);
- the trend series: one row per month, with the budget totals beside that month's actual totals;
- the cumulative profit-and-loss series: a running sum of budget and actual net income;
- the product series: the budgeted and actual revenue of each product, month by month;
- the per-category variance of the selected month (actual less budget, and as a percentage);
- the net-income variance of the selected month.

The model has five modules:

- `Ledger` (ledger.dfy) holds the records and the totals. A category object becomes an ordered
  list of entries, in the insertion order in which `Object.values` and `Object.entries` visit it.
- `SeedData` (seed_data.dfy) holds the two tables and the month order.
- `Trends` (trends.dfy) holds `chartData` and `productData`.
- `Cumulative` (cumulative.dfy) holds `cumulativeData`. It is imperative, like the source's
  `forEach` accumulation, and is proved against the recursive running sums
  `RunningBudgetNet` and `RunningActualNet`.
- `Variance` (variance.dfy) holds `calculateVariance`, the category breakdown and the
  net-income variance.

Two modelling choices follow JavaScript directly:

- For a zero budget, JavaScript division gives `NaN` (for `0 / 0`) or a signed infinity,
  so `CalculateVariance` returns `NotANumber`, `PositiveInfinity` or `NegativeInfinity`.
- The category breakdown is built with `Object.entries(...).map`, an ordered list in the
  budget's category order, so `SectionVariances` returns a sequence.

A product or category missing from a record reads as `undefined` without an error, so
`Lookup` returns an `Option`.

## Model

| member | source | states |
|---|---|---|
| SeedData.BudgetData | lakehouse_budget_tracker.tsx:9-22 | holds the literal values of `budgetData`, four expense and four revenue categories in source order; its category names are unique and its amounts non-negative |
| SeedData.ActualData | lakehouse_budget_tracker.tsx:25-46 | holds the literal values of `actualData` for Jul-25 to Nov-25; every month of `months` is one of its keys |
| SeedData.Months | lakehouse_budget_tracker.tsx:48 | holds the five month names of `months` in chart order; there are five and no two are equal |
| Ledger.Sum | lakehouse_budget_tracker.tsx:52-53 | the reduce seeded with 0: an empty list sums to 0 and a single value sums to itself (additivity, order independence and sign are the lemmas below) |
| Ledger.CalculateTotals | lakehouse_budget_tracker.tsx:51-55 | each total is the reduce over its section's amounts; net income is revenue less expenses; an empty section totals 0 |
| Ledger.SumNonNegative | lakehouse_budget_tracker.tsx:52-53 | the reduce from 0 over non-negative values is non-negative |
| Ledger.TotalsNonNegative | lakehouse_budget_tracker.tsx:51-55 | sections without negative amounts have non-negative expense and revenue totals |
| Ledger.Lookup | lakehouse_budget_tracker.tsx:98 | a property read gives `undefined` exactly when no entry has that name, and otherwise the amount of an entry with that name |
| Ledger.LookupFindsEntry | lakehouse_budget_tracker.tsx:274 | in a section with unique names, reading a category gives that category's own amount |
| Ledger.SumAppend | lakehouse_budget_tracker.tsx:52-53 | reducing two value lists one after the other adds their sums |
| Ledger.SumRemove | lakehouse_budget_tracker.tsx:52-53 | taking one value out of the list lowers the reduce by exactly that value |
| Ledger.SumReorder | lakehouse_budget_tracker.tsx:52-53 | the reduce gives the same sum for any permutation of the values |
| Ledger.SectionTotalReorder | lakehouse_budget_tracker.tsx:52-53 | a section's total does not depend on the order of its categories |
| Ledger.SectionTotalAppend | lakehouse_budget_tracker.tsx:52-53 | adding categories to a section adds their total to the section total |
| Ledger.TotalsIgnoreCategoryOrder | lakehouse_budget_tracker.tsx:51-55 | two periods whose sections hold the same entries in any order have equal totals |
| SeedData.SeedCoversMonths | lakehouse_budget_tracker.tsx:25-48 | every one of the five months in `months` is a key of `actualData` |
| SeedData.SeedSchema | lakehouse_budget_tracker.tsx:9-46 | every seeded record has unique, non-negative categories, and each month lists the budget's categories in the budget's order |
| SeedData.BudgetTotalsValue | lakehouse_budget_tracker.tsx:9-22 | the budget totals are expenses 43000, revenue 52000 and net income 9000 |
| SeedData.NovemberTotalsValue | lakehouse_budget_tracker.tsx:42-45 | the Nov-25 totals are expenses 44790, revenue 51340 and net income 6550 |
| SeedData.ActualTotalsValues | lakehouse_budget_tracker.tsx:25-46 | the totals of all five months; net income is 15930, 19930, -2390, 11340 and 6550 |
| Trends.ChartData | lakehouse_budget_tracker.tsx:60-72 | one row per month, in `months` order; the actual columns are that month's totals; the budget columns are the budget totals in every row |
| Trends.BudgetColumnsConstant | lakehouse_budget_tracker.tsx:65-69 | any two rows of the trend series have identical budget columns |
| Trends.SeededNovemberChartRow | lakehouse_budget_tracker.tsx:57-72 | on the seeded tables, the Nov-25 trend row is 52000/51340 revenue, 43000/44790 expenses and 9000/6550 net |
| Trends.ProductData | lakehouse_budget_tracker.tsx:95-105 | one row per month, in `months` order; each product's budget figure is its budget revenue and its actual figure is that month's revenue for it |
| Trends.SeededProductBudgets | lakehouse_budget_tracker.tsx:95-105 | on the seeded tables, every product figure of every month is defined, and the budget figures are 15000, 2000, 30000 and 5000 |
| Trends.SeededNovemberProducts | lakehouse_budget_tracker.tsx:95-105 | the Nov-25 product row pairs each budget figure with 13500, 1440, 30300 and 6100 |
| Cumulative.CumulativeRowAt | lakehouse_budget_tracker.tsx:75-91 | the row for position `index` is `CumulativeRowSpec`: `months[index]`, the budget net income added once per month over months `0..index`, and the actual net incomes of months `0..index` added in order |
| Cumulative.CumulativeData | lakehouse_budget_tracker.tsx:75-92 | one row per month, in order; row `i` is `CumulativeRowSpec` for `i`, the running budget and actual net income over months `0..i` |
| Cumulative.RunningBudgetNetIsMultiple | lakehouse_budget_tracker.tsx:83 | the budget net income accumulated over `n` months is `n` times the monthly budget net income |
| Cumulative.RunningBudgetNetIsChartSum | lakehouse_budget_tracker.tsx:76-85 | the running budget net income over `n` months equals the sum of the trend series' first `n` `budgetNet` values |
| Cumulative.RunningActualNetIsChartSum | lakehouse_budget_tracker.tsx:76-85 | the running actual net income over `n` months equals the sum of the trend series' first `n` `actualNet` values |
| Cumulative.CumulativeStep | lakehouse_budget_tracker.tsx:80-85 | consecutive running totals differ by exactly that month's `actualNet` |
| Cumulative.SeededRunningActualNet | lakehouse_budget_tracker.tsx:75-92 | on the seeded tables, the running actual net income over all five months is 51360 |
| Cumulative.SeededCumulativeData | lakehouse_budget_tracker.tsx:75-92 | the seeded cumulative series has five rows; the last one is Nov-25 with budget 45000 and actual 51360 |
| Variance.CalculateVariance | lakehouse_budget_tracker.tsx:111-115 | budget plus variance is actual; for a non-zero budget, percentage times budget is 100 times the variance, with its sign decided by actual against budget; for a zero budget, NaN when actual is 0 and a signed infinity otherwise |
| Variance.SectionVariances | lakehouse_budget_tracker.tsx:273-275 | one line per budget category, in the budget's order, holding the month's figure for it and, when that figure is defined, its variance |
| Variance.SectionVariancesAddUp | lakehouse_budget_tracker.tsx:296-298 | when the month lists the budget's categories, every line has a variance and the line variances add up to the variance of the section totals |
| Variance.NetIncomeVariance | lakehouse_budget_tracker.tsx:330-331 | budget net income plus the variance is the month's net income; the variance is non-negative exactly when the month's net income is at least the budget's |
| Variance.NetIncomeVarianceSplits | lakehouse_budget_tracker.tsx:331 | the net-income variance is the revenue variance less the expense variance |
| Variance.NovemberRentVariance | lakehouse_budget_tracker.tsx:296-298 | the Nov-25 rent line is 12600 against 10000: 2600 over, 26 percent |
| Variance.NovemberExpenseVariancesAddUp | lakehouse_budget_tracker.tsx:296-298 | the Nov-25 expense lines add up to 1790 over budget |
| Variance.NovemberNetIncomeVariance | lakehouse_budget_tracker.tsx:331 | the Nov-25 net income variance is -2450 |

## Left out

- Rendering is not modelled: the JSX markup, the Tailwind class strings and the `recharts` chart components (lines 117-404). They are presentation over a library outside this model.
- The React state `selectedView` and `selectedMonth` (lines 5-6) is not modelled as state. The selected month enters as a value: the caller passes `CalculateTotals(actuals[m])` to `NetIncomeVariance`, and the month's section to `SectionVariances`.
- `formatCurrency` (line 110) is left out, because `toLocaleString` depends on the locale.
- The axis tick formatters (`value/1000` with `toFixed(0)`) are left out as display formatting.
- CalculateVariance: the percentage is the exact quotient, not the one-decimal string that `toFixed(1)` produces. String rounding is display formatting.
- CalculateVariance: the `+` prefix, chosen by comparing the percentage string with 0 (lines 285 and 308), is left out as display formatting.
- The colour ternaries (lines 284, 307 and 330) are left out as display policy. The sign test of line 330 is stated by `NetIncomeVariance`'s second postcondition.
- ChartData, ProductData, CumulativeData, CumulativeRowAt, RunningActualNet: these require `Covers(actuals, months)`. In the source, a month without actuals makes `calculateTotals` or the property read throw. That error path is not modelled; every month of the seeded `months` has actuals (`SeedCoversMonths`).
- VarianceColumn: a category missing from the month gets 0 in this column, where the source's `undefined - budget` is `NaN`. The column is summed only under `SameCategories`, where every line has a variance. The source never sums the variances.
- JavaScript numbers are doubles. Every figure here is a whole number of dollars far below 2^53, so sums and differences are exact and are modelled with unbounded integers.
