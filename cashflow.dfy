/**
 * The recurring cash-flow records shared by the three finance pages, the
 * conversion of an amount to its monthly equivalent, and the totals the pages
 * build with `reduce`.
 */
module CashFlow {
  import opened Wrappers

  /** A row of the `incomes` table. */
  datatype Income = Income(id: string, name: string, amount: real, interval: string)

  /** A row of the `fixed_expenses` table. */
  datatype Expense = Expense(id: string, name: string, amount: real, category: string, interval: string)

  /**
   * `toMonthly`: only the interval string "yearly" is divided by twelve; any
   * other string, "monthly" or not, leaves the amount as it is.
   */
  function ToMonthly(amount: real, interval: string): (r: real)
    ensures interval == "yearly" ==> r * 12.0 == amount
    ensures interval != "yearly" ==> r == amount
    ensures amount >= 0.0 ==> 0.0 <= r <= amount
  {
    if interval == "yearly" then amount / 12.0 else amount
  }

  function IncomeMonthly(i: Income): real {
    ToMonthly(i.amount, i.interval)
  }

  function ExpenseMonthly(e: Expense): real {
    ToMonthly(e.amount, e.interval)
  }

  /** `s.reduce((acc, x) => acc + f(x), 0)`: a left fold from 0. */
  function SumBy<T>(s: seq<T>, f: T -> real): (r: real)
    ensures |s| == 0 ==> r == 0.0
    ensures (forall k :: 0 <= k < |s| ==> f(s[k]) >= 0.0) ==> r >= 0.0
    decreases |s|
  {
    if |s| == 0 then 0.0 else SumBy(s[..|s| - 1], f) + f(s[|s| - 1])
  }

  /** `totalIncome`: the sum of the monthly equivalents of the incomes. */
  function TotalIncome(incomes: seq<Income>): (r: real)
    ensures incomes == [] ==> r == 0.0
    ensures (forall k :: 0 <= k < |incomes| ==> incomes[k].amount >= 0.0) ==> r >= 0.0
  {
    SumBy(incomes, IncomeMonthly)
  }

  /** `totalExpenses`: the sum of the monthly equivalents of the expenses. */
  function TotalExpenses(expenses: seq<Expense>): (r: real)
    ensures expenses == [] ==> r == 0.0
    ensures (forall k :: 0 <= k < |expenses| ==> expenses[k].amount >= 0.0) ==> r >= 0.0
  {
    SumBy(expenses, ExpenseMonthly)
  }

  /** Income minus expenses, both per month; negative when expenses exceed income. */
  function FreeBudget(incomes: seq<Income>, expenses: seq<Expense>): (r: real)
    ensures incomes == [] && expenses == [] ==> r == 0.0
    ensures r >= 0.0 <==> TotalExpenses(expenses) <= TotalIncome(incomes)
  {
    TotalIncome(incomes) - TotalExpenses(expenses)
  }

  /** `(data as T[]) || []`: a failed fetch (no data) counts as an empty list. */
  function OrEmpty<T>(data: Option<seq<T>>): (r: seq<T>)
    ensures data.Some? ==> r == data.value
    ensures data.None? ==> r == []
  {
    data.GetOr([])
  }

  /** A one-element list sums to its element. */
  lemma SumBySingleton<T>(x: T, f: T -> real)
    ensures SumBy([x], f) == f(x)
  {
    assert [x][..0] == [];
  }

  /** The fold over a concatenation is the sum of the two folds. */
  lemma {:induction false} SumByAppend<T>(a: seq<T>, b: seq<T>, f: T -> real)
    ensures SumBy(a + b, f) == SumBy(a, f) + SumBy(b, f)
    decreases |b|
  {
    if |b| == 0 {
      assert a + b == a;
    } else {
      assert (a + b)[..|a + b| - 1] == a + b[..|b| - 1];
      SumByAppend(a, b[..|b| - 1], f);
    }
  }

  /** Taking one element out of a list takes its value out of the sum. */
  lemma SumByRemove<T>(before: seq<T>, x: T, after: seq<T>, f: T -> real)
    ensures SumBy(before + [x] + after, f) == SumBy(before + after, f) + f(x)
  {
    SumByAppend(before + [x], after, f);
    SumByAppend(before, [x], f);
    SumBySingleton(x, f);
    SumByAppend(before, after, f);
  }

  /** Under exact arithmetic the fold does not depend on the order of the list. */
  lemma {:induction false} SumByPermutation<T>(a: seq<T>, b: seq<T>, f: T -> real)
    requires multiset(a) == multiset(b)
    ensures SumBy(a, f) == SumBy(b, f)
    decreases |a|
  {
    if |a| == 0 {
      assert |multiset(b)| == 0;
    } else {
      var n := |a| - 1;
      var x := a[n];
      assert a == a[..n] + [x];
      assert x in multiset(b);
      var i :| 0 <= i < |b| && b[i] == x;
      var rest := b[..i] + b[i + 1..];
      assert b == b[..i] + [x] + b[i + 1..];
      assert multiset(b) == multiset(b[..i]) + multiset{x} + multiset(b[i + 1..]);
      assert multiset(rest) == multiset(b[..i]) + multiset(b[i + 1..]);
      assert multiset(a) == multiset(a[..n]) + multiset{x};
      assert multiset(a[..n]) == multiset(a) - multiset{x};
      assert multiset(rest) == multiset(b) - multiset{x};
      SumByPermutation(a[..n], rest, f);
      SumByRemove(b[..i], x, b[i + 1..], f);
    }
  }

  /** The totals are independent of the order in which the rows were fetched. */
  lemma TotalsOrderIndependent(incomes: seq<Income>, incomes': seq<Income>,
                               expenses: seq<Expense>, expenses': seq<Expense>)
    requires multiset(incomes) == multiset(incomes')
    requires multiset(expenses) == multiset(expenses')
    ensures TotalIncome(incomes) == TotalIncome(incomes')
    ensures TotalExpenses(expenses) == TotalExpenses(expenses')
    ensures FreeBudget(incomes, expenses) == FreeBudget(incomes', expenses')
  {
    SumByPermutation(incomes, incomes', IncomeMonthly);
    SumByPermutation(expenses, expenses', ExpenseMonthly);
  }
}
