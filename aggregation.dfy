/** The dashboard's derived figures, recomputed from the loaded transactions and
    categories on every render: the month filter, the monthly totals, the spend per
    category (the pie chart and the category cards) and the budget meter. */
module Aggregation {
  import opened Wrappers
  import opened Domain

  // ---------------------------------------------------------------- filter and sum

  /** `Array.prototype.filter` on transactions. */
  function Filter(ts: seq<Transaction>, p: Transaction -> bool): (r: seq<Transaction>)
    ensures |r| <= |ts|
    ensures forall t :: t in r <==> t in ts && p(t)
    decreases |ts|
  {
    if ts == [] then [] else (if p(ts[0]) then [ts[0]] else []) + Filter(ts[1..], p)
  }

  /** Filtering commutes with concatenation, so the result keeps the input's order. */
  lemma {:induction false} FilterAppend(a: seq<Transaction>, b: seq<Transaction>, p: Transaction -> bool)
    ensures Filter(a + b, p) == Filter(a, p) + Filter(b, p)
    decreases |a|
  {
    if a == [] {
      assert a + b == b;
    } else {
      assert (a + b)[1..] == a[1..] + b;
      FilterAppend(a[1..], b, p);
    }
  }

  /** `reduce((sum, t) => sum + t.amount, 0)`. */
  function Total(ts: seq<Transaction>): (r: int)
    ensures |ts| == 1 ==> r == ts[0].amount
    ensures (forall t :: t in ts ==> t.amount >= 0) ==> r >= 0
    decreases |ts|
  {
    if ts == [] then 0 else ts[0].amount + Total(ts[1..])
  }

  lemma {:induction false} TotalAppend(a: seq<Transaction>, b: seq<Transaction>)
    ensures Total(a + b) == Total(a) + Total(b)
    decreases |a|
  {
    if a == [] {
      assert a + b == b;
    } else {
      assert (a + b)[1..] == a[1..] + b;
      TotalAppend(a[1..], b);
    }
  }

  /** The total of the transactions matching either of two disjoint conditions is the sum
      of the two totals. */
  lemma {:induction false} TotalOfDisjointFilters(ts: seq<Transaction>, p: Transaction -> bool,
                                                  q: Transaction -> bool, pq: Transaction -> bool)
    requires forall t :: pq(t) == (p(t) || q(t))
    requires forall t :: !(p(t) && q(t))
    ensures Total(Filter(ts, pq)) == Total(Filter(ts, p)) + Total(Filter(ts, q))
    decreases |ts|
  {
    if ts != [] {
      var t, rest := ts[0], ts[1..];
      TotalOfDisjointFilters(rest, p, q, pq);
      TotalAppend(if pq(t) then [t] else [], Filter(rest, pq));
      TotalAppend(if p(t) then [t] else [], Filter(rest, p));
      TotalAppend(if q(t) then [t] else [], Filter(rest, q));
    }
  }

  // ---------------------------------------------------------------- the month view

  /** The transaction's date falls in the selected 0-based month and year. */
  predicate InPeriod(t: Transaction, month: int, year: int) {
    t.date.month == month && t.date.year == year
  }

  function InPeriodOf(month: int, year: int): Transaction -> bool {
    (t: Transaction) => InPeriod(t, month, year)
  }

  function OfKind(kind: Kind): Transaction -> bool {
    (t: Transaction) => t.kind == kind
  }

  /** `filteredTransactions`. */
  function FilteredTransactions(ts: seq<Transaction>, month: int, year: int): (r: seq<Transaction>)
    ensures |r| <= |ts|
    ensures forall t :: t in r <==> t in ts && InPeriod(t, month, year)
  {
    Filter(ts, InPeriodOf(month, year))
  }

  /** `monthlyExpenses` for `Expense`, `monthlyRevenue` for `Revenue`: the sum over
      exactly the transactions of that kind and period. */
  function MonthlyTotal(ts: seq<Transaction>, kind: Kind, month: int, year: int): (r: int)
    ensures r == SumWhere(ts, kind, month, year)
  {
    PipelineIsSumWhere(ts, kind, month, year);
    Total(Filter(FilteredTransactions(ts, month, year), OfKind(kind)))
  }

  /** Reference definition: one pass adding each amount whose kind and period match. */
  function SumWhere(ts: seq<Transaction>, kind: Kind, month: int, year: int): int
    decreases |ts|
  {
    if ts == [] then 0
    else (if ts[0].kind == kind && InPeriod(ts[0], month, year) then ts[0].amount else 0)
         + SumWhere(ts[1..], kind, month, year)
  }

  /** The filtered transactions are exactly those of the period, in their original order. */
  lemma {:induction false} FilteredTransactionsExact(ts: seq<Transaction>, month: int, year: int)
    ensures forall t :: t in FilteredTransactions(ts, month, year) <==> t in ts && InPeriod(t, month, year)
    ensures forall t :: t in FilteredTransactions(ts, month, year) ==> InPeriod(t, month, year)
    ensures ts != [] ==>
              FilteredTransactions(ts, month, year) ==
              (if InPeriod(ts[0], month, year) then [ts[0]] else []) + FilteredTransactions(ts[1..], month, year)
    ensures forall u ::
              FilteredTransactions(ts + u, month, year) ==
              FilteredTransactions(ts, month, year) + FilteredTransactions(u, month, year)
  {
    forall u {
      FilterAppend(ts, u, (t: Transaction) => InPeriod(t, month, year));
    }
  }

  /** Filter by period, filter by kind, then sum: the same as one pass adding the amounts
      whose kind and period match. */
  lemma {:induction false} PipelineIsSumWhere(ts: seq<Transaction>, kind: Kind, month: int, year: int)
    ensures Total(Filter(Filter(ts, InPeriodOf(month, year)), OfKind(kind))) == SumWhere(ts, kind, month, year)
    decreases |ts|
  {
    if ts == [] {
    } else {
      var head, tail := [ts[0]], ts[1..];
      assert ts == head + tail;
      var inPeriod, ofKind := InPeriodOf(month, year), OfKind(kind);
      FilterAppend(head, tail, inPeriod);
      FilterAppend(Filter(head, inPeriod), Filter(tail, inPeriod), ofKind);
      TotalAppend(Filter(Filter(head, inPeriod), ofKind), Filter(Filter(tail, inPeriod), ofKind));
      PipelineIsSumWhere(tail, kind, month, year);
      assert Filter(head, inPeriod) == if InPeriod(ts[0], month, year) then head else [];
    }
  }

  /** Both totals are 0 for an empty list. */
  lemma MonthlyTotalEmpty(kind: Kind, month: int, year: int)
    ensures MonthlyTotal([], kind, month, year) == 0
  {
  }

  /** The monthly totals add over concatenation, and a transaction of another period does
      not move them. */
  lemma {:induction false} MonthlyTotalAppend(a: seq<Transaction>, b: seq<Transaction>, kind: Kind, month: int, year: int)
    ensures MonthlyTotal(a + b, kind, month, year) == MonthlyTotal(a, kind, month, year) + MonthlyTotal(b, kind, month, year)
  {
    SumWhereAppend(a, b, kind, month, year);
  }

  lemma {:induction false} SumWhereAppend(a: seq<Transaction>, b: seq<Transaction>, kind: Kind, month: int, year: int)
    ensures SumWhere(a + b, kind, month, year) == SumWhere(a, kind, month, year) + SumWhere(b, kind, month, year)
    decreases |a|
  {
    if a == [] {
      assert a + b == b;
    } else {
      assert (a + b)[1..] == a[1..] + b;
      SumWhereAppend(a[1..], b, kind, month, year);
    }
  }

  lemma {:induction false} OtherPeriodIgnored(ts: seq<Transaction>, t: Transaction, kind: Kind, month: int, year: int)
    requires !InPeriod(t, month, year)
    ensures MonthlyTotal(ts + [t], kind, month, year) == MonthlyTotal(ts, kind, month, year)
  {
    MonthlyTotalAppend(ts, [t], kind, month, year);
  }

  /** Expenses and revenue of the month together account for every transaction of the month. */
  lemma {:induction false} MonthlyTotalsPartition(ts: seq<Transaction>, month: int, year: int)
    ensures MonthlyTotal(ts, Expense, month, year) + MonthlyTotal(ts, Revenue, month, year)
         == Total(FilteredTransactions(ts, month, year))
  {
    var f := FilteredTransactions(ts, month, year);
    var all := (t: Transaction) => true;
    TotalOfDisjointFilters(f, (t: Transaction) => t.kind == Expense, (t: Transaction) => t.kind == Revenue, all);
    FilterAll(f, all);
  }

  lemma {:induction false} FilterAll(ts: seq<Transaction>, p: Transaction -> bool)
    requires forall t :: p(t)
    ensures Filter(ts, p) == ts
    decreases |ts|
  {
    if ts != [] {
      FilterAll(ts[1..], p);
    }
  }

  /** Three March 2024 expenses of 10.00, 20.00 and 30.00 and one April expense give a
      March expense total of 60.00 and a March revenue of 0, in cents. */
  lemma MarchExample()
    ensures var d3 := Date(2024, 2, 1);
            var d4 := Date(2024, 3, 1);
            var ts := [Transaction("a", 1000, Expense, "Food", d3, ""),
                       Transaction("b", 2000, Expense, "Food", d3, ""),
                       Transaction("c", 3000, Expense, "Rent", d3, ""),
                       Transaction("d", 4000, Expense, "Food", d4, "")];
            MonthlyTotal(ts, Expense, 2, 2024) == 6000 && MonthlyTotal(ts, Revenue, 2, 2024) == 0
  {
    var d3 := Date(2024, 2, 1);
    var d4 := Date(2024, 3, 1);
    var ts := [Transaction("a", 1000, Expense, "Food", d3, ""),
               Transaction("b", 2000, Expense, "Food", d3, ""),
               Transaction("c", 3000, Expense, "Rent", d3, ""),
               Transaction("d", 4000, Expense, "Food", d4, "")];
    assert ts[1..][1..][1..][1..] == [];
  }

  // ---------------------------------------------------------------- spend per category

  /** An expense booked under the category called `name`. */
  predicate IsExpenseOf(t: Transaction, name: string) {
    t.kind == Expense && t.category == name
  }

  function ExpenseOf(name: string): Transaction -> bool {
    (t: Transaction) => IsExpenseOf(t, name)
  }

  /** What the category card and the pie chart show as spent in `name`: every loaded
      expense of that category, whatever its month. */
  function CategorySpend(ts: seq<Transaction>, name: string): (r: int)
    ensures r == ExpenseSum(ts, name)
  {
    SpendPipelineIsExpenseSum(ts, name);
    Total(Filter(ts, ExpenseOf(name)))
  }

  /** Reference definition: one pass adding the amount of each expense of category `name`. */
  function ExpenseSum(ts: seq<Transaction>, name: string): int
    decreases |ts|
  {
    if ts == [] then 0
    else (if IsExpenseOf(ts[0], name) then ts[0].amount else 0) + ExpenseSum(ts[1..], name)
  }

  /** A category with no matching expense shows 0 spend. */
  lemma NoMatchingExpenseSpendsZero(ts: seq<Transaction>, name: string)
    requires forall t :: t in ts ==> !IsExpenseOf(t, name)
    ensures CategorySpend(ts, name) == 0
  {
    NoneIn(ts, ExpenseOf(name));
  }

  /** Filter the expenses of `name`, then sum: the same as the one-pass sum. */
  lemma {:induction false} SpendPipelineIsExpenseSum(ts: seq<Transaction>, name: string)
    ensures Total(Filter(ts, ExpenseOf(name))) == ExpenseSum(ts, name)
    decreases |ts|
  {
    if ts != [] {
      var t, rest := ts[0], ts[1..];
      TotalAppend(if IsExpenseOf(t, name) then [t] else [], Filter(rest, ExpenseOf(name)));
      SpendPipelineIsExpenseSum(rest, name);
    }
  }

  /** One entry of `categoryExpenses`. */
  datatype CategoryExpense = CategoryExpense(name: string, amount: int)

  /** `categories.map(category => ({ name, amount: spend }))`. */
  function CategoryExpenses(ts: seq<Transaction>, cats: seq<Category>): (r: seq<CategoryExpense>)
    ensures |r| == |cats|
    ensures forall i :: 0 <= i < |cats| ==>
              r[i].name == cats[i].name && r[i].amount == CategorySpend(ts, cats[i].name)
    decreases |cats|
  {
    if cats == [] then []
    else [CategoryExpense(cats[0].name, CategorySpend(ts, cats[0].name))] + CategoryExpenses(ts, cats[1..])
  }

  /** The pie chart's input: one label and one value per category. */
  datatype Chart = Chart(labels: seq<string>, data: seq<int>)

  /** `getExpenseDataByCategory`. */
  function ExpenseDataByCategory(ts: seq<Transaction>, cats: seq<Category>): (chart: Chart)
    ensures |chart.labels| == |cats| && |chart.data| == |cats|
    ensures forall i :: 0 <= i < |cats| ==>
              chart.labels[i] == cats[i].name && chart.data[i] == CategorySpend(ts, cats[i].name)
  {
    var ce := CategoryExpenses(ts, cats);
    Chart(seq(|ce|, i requires 0 <= i < |ce| => ce[i].name),
          seq(|ce|, i requires 0 <= i < |ce| => ce[i].amount))
  }

  function Names(cats: seq<Category>): (r: seq<string>)
    ensures |r| == |cats|
    ensures forall i :: 0 <= i < |cats| ==> r[i] == cats[i].name
    decreases |cats|
  {
    if cats == [] then [] else [cats[0].name] + Names(cats[1..])
  }

  predicate DistinctNames(cats: seq<Category>) {
    forall i, j :: 0 <= i < j < |cats| ==> cats[i].name != cats[j].name
  }

  /** An expense whose category is one of `names`. */
  function ExpenseIn(names: seq<string>): Transaction -> bool {
    (t: Transaction) => t.kind == Expense && t.category in names
  }

  function SumOf(xs: seq<int>): int
    decreases |xs|
  {
    if xs == [] then 0 else xs[0] + SumOf(xs[1..])
  }

  function SpendTotal(ts: seq<Transaction>, cats: seq<Category>): int
    decreases |cats|
  {
    if cats == [] then 0 else CategorySpend(ts, cats[0].name) + SpendTotal(ts, cats[1..])
  }

  lemma {:induction false} SpendTotalIsExpensesInCategories(ts: seq<Transaction>, cats: seq<Category>)
    requires DistinctNames(cats)
    ensures SpendTotal(ts, cats) == Total(Filter(ts, ExpenseIn(Names(cats))))
    decreases |cats|
  {
    if cats == [] {
      NoneIn(ts, ExpenseIn(Names(cats)));
    } else {
      var c, rest := cats[0], cats[1..];
      assert DistinctNames(rest) by {
        forall i, j | 0 <= i < j < |rest| ensures rest[i].name != rest[j].name {
          assert rest[i] == cats[i + 1] && rest[j] == cats[j + 1];
        }
      }
      SpendTotalIsExpensesInCategories(ts, rest);
      assert Names(cats) == [c.name] + Names(rest);
      assert c.name !in Names(rest) by {
        forall k | 0 <= k < |rest| ensures Names(rest)[k] != c.name {
          assert rest[k] == cats[k + 1];
        }
      }
      TotalOfDisjointFilters(ts, ExpenseOf(c.name), ExpenseIn(Names(rest)), ExpenseIn(Names(cats)));
    }
  }

  lemma {:induction false} NoneIn(ts: seq<Transaction>, p: Transaction -> bool)
    requires forall t :: t in ts ==> !p(t)
    ensures Filter(ts, p) == []
    decreases |ts|
  {
    if ts != [] {
      assert forall t :: t in ts[1..] ==> t in ts;
      NoneIn(ts[1..], p);
    }
  }

  lemma {:induction false} ChartSumIsSpendTotal(ts: seq<Transaction>, cats: seq<Category>)
    ensures SumOf(ExpenseDataByCategory(ts, cats).data) == SpendTotal(ts, cats)
    decreases |cats|
  {
    if cats != [] {
      ChartSumIsSpendTotal(ts, cats[1..]);
      var d, d' := ExpenseDataByCategory(ts, cats).data, ExpenseDataByCategory(ts, cats[1..]).data;
      assert d[1..] == d' by {
        forall k | 0 <= k < |d'| ensures d[1..][k] == d'[k] {
          assert cats[1..][k] == cats[k + 1];
        }
      }
    }
  }

  /** With distinct category names, the pie chart's slices add up to the total of the
      expenses booked under those categories: nothing is counted twice. */
  lemma ChartSumsToCategorizedExpenses(ts: seq<Transaction>, cats: seq<Category>)
    requires DistinctNames(cats)
    ensures SumOf(ExpenseDataByCategory(ts, cats).data) == Total(Filter(ts, ExpenseIn(Names(cats))))
  {
    ChartSumIsSpendTotal(ts, cats);
    SpendTotalIsExpensesInCategories(ts, cats);
  }

  // ---------------------------------------------------------------- the budget meter

  /** What a category card shows: spend as a percentage of the budget, whether the
      over-budget style is used, and the width of the bar. */
  datatype Meter = Meter(percentage: real, overBudget: bool, width: real)

  /** The meter of a category card. A zero budget has no meter (JavaScript would divide
      by zero). */
  function BudgetMeter(spend: int, budget: int): (m: Option<Meter>)
    ensures m.None? <==> budget == 0
    ensures m.Some? ==> m.value.percentage == (spend as real / budget as real) * 100.0
    ensures m.Some? ==> m.value.width <= 100.0
    ensures m.Some? ==> (m.value.width == 100.0 <==> m.value.percentage >= 100.0)
    ensures m.Some? && m.value.width < 100.0 ==> m.value.width == m.value.percentage
    ensures m.Some? ==> (m.value.overBudget <==> m.value.percentage > 100.0)
  {
    if budget == 0 then None
    else
      var percentage := (spend as real / budget as real) * 100.0;
      Some(Meter(percentage, percentage > 100.0, if percentage < 100.0 then percentage else 100.0))
  }

  /** With a positive budget the card turns red exactly when spending exceeds the budget,
      and the bar is full exactly when spending reaches it. */
  lemma OverBudgetIffOverspent(spend: int, budget: int)
    requires budget > 0
    ensures BudgetMeter(spend, budget).Some?
    ensures BudgetMeter(spend, budget).value.overBudget <==> spend > budget
    ensures BudgetMeter(spend, budget).value.width == 100.0 <==> spend >= budget
  {
  }

  // ---------------------------------------------------------------- the category cards

  /** What one category card shows: the category, its spend and its meter. */
  datatype Card = Card(category: Category, spend: int, meter: Option<Meter>)

  /** The category grid: one card per category, in order, each with the spend over all
      the given transactions and that category's meter. */
  function CategoryCards(ts: seq<Transaction>, cats: seq<Category>): (cards: seq<Card>)
    ensures |cards| == |cats|
    ensures forall i :: 0 <= i < |cats| ==>
              && cards[i].category == cats[i]
              && cards[i].spend == ExpenseSum(ts, cats[i].name)
              && cards[i].meter == BudgetMeter(ExpenseSum(ts, cats[i].name), cats[i].budget)
    decreases |cats|
  {
    if cats == [] then []
    else
      var spend := CategorySpend(ts, cats[0].name);
      [Card(cats[0], spend, BudgetMeter(spend, cats[0].budget))] + CategoryCards(ts, cats[1..])
  }

  /** The chart and the cards do not follow the month selector: a March expense still
      counts in April, though April's filtered list is empty. */
  lemma SpendIgnoresSelectedMonth()
    ensures var ts := [Transaction("a", 1000, Expense, "Food", Date(2024, 2, 1), "")];
            var cats := [Category("c", "Food", 5000)];
            && FilteredTransactions(ts, 3, 2024) == []
            && ExpenseDataByCategory(ts, cats).data == [1000]
            && ExpenseDataByCategory(FilteredTransactions(ts, 3, 2024), cats).data == [0]
            && CategoryCards(ts, cats)[0].spend == 1000
  {
    var ts := [Transaction("a", 1000, Expense, "Food", Date(2024, 2, 1), "")];
    var cats := [Category("c", "Food", 5000)];
    assert ts[0] !in FilteredTransactions(ts, 3, 2024);
  }
}
