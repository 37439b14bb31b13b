/**
 * The financial records of the budget tracker: a period (the monthly budget,
 * or one month's actuals) is two sections of categories, expenses and revenue,
 * each an ordered list of (category, whole-dollar amount) entries.  The order
 * is the insertion order of the object literal, which is the order in which
 * `Object.values` and `Object.entries` visit the categories.
 */
module Ledger {
  import opened Wrappers

  datatype Entry = Entry(name: string, amount: int)

  type Section = seq<Entry>

  datatype Period = Period(expenses: Section, revenue: Section)

  /** What `calculateTotals` returns. */
  datatype Totals = Totals(expenseTotal: int, revenueTotal: int, netIncome: int)

  /** The category names of a section are unique, as the keys of an object are. */
  predicate DistinctNames(s: Section)
  {
    forall i, j | 0 <= i < j < |s| :: s[i].name != s[j].name
  }

  predicate NonNegative(s: Section)
  {
    forall i | 0 <= i < |s| :: s[i].amount >= 0
  }

  predicate WellFormed(p: Period)
  {
    DistinctNames(p.expenses) && DistinctNames(p.revenue)
  }

  /** Two sections list the same categories in the same order. */
  predicate SameCategories(budgetSection: Section, actualSection: Section)
  {
    && |budgetSection| == |actualSection|
    && forall i | 0 <= i < |budgetSection| :: budgetSection[i].name == actualSection[i].name
  }

  /** Every month of `months` has a record in `actuals`. */
  predicate Covers(actuals: map<string, Period>, months: seq<string>)
  {
    forall m | m in months :: m in actuals
  }

  /** `Object.values(section)`: the amounts, in category order. */
  function Amounts(s: Section): seq<int>
  {
    seq(|s|, i requires 0 <= i < |s| => s[i].amount)
  }

  /**
   * `values.reduce((sum, val) => sum + val, 0)`: a left fold that starts at 0
   * and adds the values from first to last.
   */
  function Sum(values: seq<int>): (r: int)
    ensures |values| == 0 ==> r == 0
    ensures |values| == 1 ==> r == values[0]
  {
    if |values| == 0 then 0 else Sum(values[..|values| - 1]) + values[|values| - 1]
  }

  /** Extending a prefix by one value adds that value to the prefix's sum. */
  lemma SumPrefixStep(values: seq<int>, n: nat)
    requires 0 < n <= |values|
    ensures Sum(values[..n]) == Sum(values[..n - 1]) + values[n - 1]
  {
    assert values[..n][..n - 1] == values[..n - 1];
  }

  /** A sum of non-negative values is non-negative. */
  lemma {:induction false} SumNonNegative(values: seq<int>)
    requires forall i | 0 <= i < |values| :: values[i] >= 0
    ensures Sum(values) >= 0
  {
    if |values| > 0 {
      SumNonNegative(values[..|values| - 1]);
    }
  }

  function SectionTotal(s: Section): int
  {
    Sum(Amounts(s))
  }

  /**
   * `calculateTotals`: the total of each section, and net income as revenue
   * less expenses.
   */
  function CalculateTotals(data: Period): (t: Totals)
    ensures t.expenseTotal == SectionTotal(data.expenses)
    ensures t.revenueTotal == SectionTotal(data.revenue)
    ensures t.netIncome == t.revenueTotal - t.expenseTotal
    ensures data.expenses == [] ==> t.expenseTotal == 0
    ensures data.revenue == [] ==> t.revenueTotal == 0
  {
    var expenseTotal := Sum(Amounts(data.expenses));
    var revenueTotal := Sum(Amounts(data.revenue));
    Totals(expenseTotal, revenueTotal, revenueTotal - expenseTotal)
  }

  /** Sections without negative amounts have non-negative totals; net income may be negative. */
  lemma TotalsNonNegative(data: Period)
    requires NonNegative(data.expenses) && NonNegative(data.revenue)
    ensures CalculateTotals(data).expenseTotal >= 0
    ensures CalculateTotals(data).revenueTotal >= 0
  {
    SumNonNegative(Amounts(data.expenses));
    SumNonNegative(Amounts(data.revenue));
  }

  /**
   * `section[name]` on a category object: the amount filed under `name`, or
   * `undefined` when the section has no such category.
   */
  function Lookup(s: Section, name: string): (r: Option<int>)
    ensures r.None? <==> forall i | 0 <= i < |s| :: s[i].name != name
    ensures r.Some? ==> exists i | 0 <= i < |s| :: s[i].name == name && s[i].amount == r.value
  {
    if |s| == 0 then None
    else if s[0].name == name then Some(s[0].amount)
    else Lookup(s[1..], name)
  }

  /** In a section with unique names, looking up a category finds its own amount. */
  lemma {:induction false} LookupFindsEntry(s: Section, i: nat)
    requires DistinctNames(s)
    requires i < |s|
    ensures Lookup(s, s[i].name) == Some(s[i].amount)
  {
    if i > 0 {
      assert s[0].name != s[i].name;
      assert s[1..][i - 1] == s[i];
      LookupFindsEntry(s[1..], i - 1);
    }
  }

  /** Adding the values of two lists one after the other adds their sums. */
  lemma {:induction false} SumAppend(a: seq<int>, b: seq<int>)
    ensures Sum(a + b) == Sum(a) + Sum(b)
  {
    if |b| == 0 {
      assert a + b == a;
    } else {
      assert (a + b)[..|a + b| - 1] == a + b[..|b| - 1];
      SumAppend(a, b[..|b| - 1]);
    }
  }

  /** Removing the value at position `k` lowers the sum by exactly that value. */
  lemma {:induction false} SumRemove(b: seq<int>, k: nat)
    requires k < |b|
    ensures Sum(b) == Sum(b[..k] + b[k + 1..]) + b[k]
  {
    var n := |b| - 1;
    if k == n {
      assert b[..k] + b[k + 1..] == b[..n];
    } else {
      var rest := b[..k] + b[k + 1..];
      assert b[..n][..k] == b[..k];
      assert rest[..|rest| - 1] == b[..n][..k] + b[..n][k + 1..];
      assert rest[|rest| - 1] == b[n];
      SumRemove(b[..n], k);
    }
  }

  /** Removing the element at position `k` removes one occurrence from the multiset. */
  lemma MultisetRemove<T>(b: seq<T>, k: nat)
    requires k < |b|
    ensures multiset(b[..k] + b[k + 1..]) == multiset(b) - multiset{b[k]}
  {
    assert b == b[..k] + [b[k]] + b[k + 1..];
  }

  /** The reduce does not depend on the order in which the values arrive. */
  lemma {:induction false} SumReorder(a: seq<int>, b: seq<int>)
    requires multiset(a) == multiset(b)
    ensures Sum(a) == Sum(b)
    decreases |a|
  {
    if |a| == 0 {
      assert |multiset(b)| == 0;
    } else {
      var n := |a| - 1;
      assert a[n] in multiset(b);
      var k :| 0 <= k < |b| && b[k] == a[n];
      MultisetRemove(a, n);
      MultisetRemove(b, k);
      SumReorder(a[..n] + a[n + 1..], b[..k] + b[k + 1..]);
      SumRemove(a, n);
      SumRemove(b, k);
    }
  }

  lemma AmountsAppend(a: Section, b: Section)
    ensures Amounts(a + b) == Amounts(a) + Amounts(b)
  {
  }

  /** Removing an entry from a section removes its amount from the section's amounts. */
  lemma AmountsRemove(d: Section, k: nat)
    requires k < |d|
    ensures multiset(Amounts(d[..k] + d[k + 1..])) == multiset(Amounts(d)) - multiset{d[k].amount}
  {
    assert Amounts(d[..k] + d[k + 1..]) == Amounts(d)[..k] + Amounts(d)[k + 1..];
    MultisetRemove(Amounts(d), k);
  }

  /** Two multisets that agree once one shared occurrence is removed are equal. */
  lemma MultisetCancel<T>(a: multiset<T>, b: multiset<T>, x: T)
    requires x in a && x in b
    requires a - multiset{x} == b - multiset{x}
    ensures a == b
  {
    assert a == (a - multiset{x}) + multiset{x};
    assert b == (b - multiset{x}) + multiset{x};
  }

  /** Reordering the entries of a section reorders its amounts. */
  lemma {:induction false} AmountsReorder(c: Section, d: Section)
    requires multiset(c) == multiset(d)
    ensures multiset(Amounts(c)) == multiset(Amounts(d))
    decreases |c|
  {
    if |c| == 0 {
      assert |multiset(d)| == 0;
    } else {
      var n := |c| - 1;
      var e := c[n];
      assert e in multiset(d);
      var k :| 0 <= k < |d| && d[k] == e;
      var c', d' := c[..n] + c[n + 1..], d[..k] + d[k + 1..];
      MultisetRemove(c, n);
      MultisetRemove(d, k);
      AmountsReorder(c', d');
      AmountsRemove(c, n);
      AmountsRemove(d, k);
      assert Amounts(c)[n] == e.amount && Amounts(d)[k] == e.amount;
      MultisetCancel(multiset(Amounts(c)), multiset(Amounts(d)), e.amount);
    }
  }

  /** A section's total is independent of the order of its categories. */
  lemma SectionTotalReorder(c: Section, d: Section)
    requires multiset(c) == multiset(d)
    ensures SectionTotal(c) == SectionTotal(d)
  {
    AmountsReorder(c, d);
    SumReorder(Amounts(c), Amounts(d));
  }

  /** Appending categories to a section adds their total to the section's. */
  lemma SectionTotalAppend(c: Section, d: Section)
    ensures SectionTotal(c + d) == SectionTotal(c) + SectionTotal(d)
  {
    AmountsAppend(c, d);
    SumAppend(Amounts(c), Amounts(d));
  }

  /** Periods with the same entries in any order have the same totals. */
  lemma TotalsIgnoreCategoryOrder(p: Period, q: Period)
    requires multiset(p.expenses) == multiset(q.expenses)
    requires multiset(p.revenue) == multiset(q.revenue)
    ensures CalculateTotals(p) == CalculateTotals(q)
  {
    SectionTotalReorder(p.expenses, q.expenses);
    SectionTotalReorder(p.revenue, q.revenue);
  }
}
