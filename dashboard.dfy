/**
 * The summary figures of the dashboard page: monthly totals, free budget,
 * savings rate, and the per-category breakdown behind the pie chart.
 */
module Dashboard {
  import opened Money
  import opened CashFlow

  /** The card colour class of the free-budget figure. */
  function FreeBudgetColor(freeBudget: real): (r: string)
    ensures r == "text-primary" <==> freeBudget >= 0.0
    ensures r == "text-destructive" <==> freeBudget < 0.0
  {
    if freeBudget >= 0.0 then "text-primary" else "text-destructive"
  }

  /**
   * `savingsRate`: the free budget as a whole percentage of income, and exactly
   * 0 when there is no positive income (whatever the expenses).
   */
  function SavingsRate(incomes: seq<Income>, expenses: seq<Expense>): (r: int)
    ensures TotalIncome(incomes) <= 0.0 ==> r == 0
    ensures TotalIncome(incomes) > 0.0 ==>
      var pct := FreeBudget(incomes, expenses) / TotalIncome(incomes) * 100.0;
      pct - 0.5 < r as real <= pct + 0.5
  {
    var totalIncome := TotalIncome(incomes);
    if totalIncome > 0.0 then Round(FreeBudget(incomes, expenses) / totalIncome * 100.0) else 0
  }

  /** The four figures shown on the stat cards. */
  datatype Summary = Summary(totalIncome: real, totalExpenses: real, freeBudget: real, savingsRate: int)

  function Summarize(incomes: seq<Income>, expenses: seq<Expense>): (r: Summary)
    ensures r.freeBudget == r.totalIncome - r.totalExpenses
    ensures incomes == [] && expenses == [] ==> r == Summary(0.0, 0.0, 0.0, 0)
  {
    Summary(TotalIncome(incomes), TotalExpenses(expenses), FreeBudget(incomes, expenses),
            SavingsRate(incomes, expenses))
  }

  /** With positive income and no negative expense, at most all of it is saved. */
  lemma SavingsRateAtMostHundred(incomes: seq<Income>, expenses: seq<Expense>)
    requires TotalIncome(incomes) > 0.0
    requires forall k :: 0 <= k < |expenses| ==> expenses[k].amount >= 0.0
    ensures SavingsRate(incomes, expenses) <= 100
  {
    var ti := TotalIncome(incomes);
    var fb := FreeBudget(incomes, expenses);
    assert TotalExpenses(expenses) >= 0.0;
    assert fb <= ti;
    assert fb / ti * ti == fb;
    assert fb / ti <= 1.0;
  }

  /** Reordering the fetched rows changes none of the four figures. */
  lemma SummaryOrderIndependent(incomes: seq<Income>, incomes': seq<Income>,
                                expenses: seq<Expense>, expenses': seq<Expense>)
    requires multiset(incomes) == multiset(incomes')
    requires multiset(expenses) == multiset(expenses')
    ensures Summarize(incomes, expenses) == Summarize(incomes', expenses')
  {
    TotalsOrderIndependent(incomes, incomes', expenses, expenses');
  }

  // ----- grouping by category -----

  /** The expenses of one category, in list order. */
  function InCategory(expenses: seq<Expense>, c: string): seq<Expense>
    decreases |expenses|
  {
    if |expenses| == 0 then []
    else
      var last := expenses[|expenses| - 1];
      InCategory(expenses[..|expenses| - 1], c) + (if last.category == c then [last] else [])
  }

  /** The categories that occur among the expenses. */
  function OccurringCategories(expenses: seq<Expense>): set<string> {
    set e | e in expenses :: e.category
  }

  /** One more expense adds its own category and no other. */
  lemma OccurringCategoriesSnoc(expenses: seq<Expense>, e: Expense)
    ensures OccurringCategories(expenses + [e]) == OccurringCategories(expenses) + {e.category}
  {
    assert forall x :: x in expenses + [e] <==> x in expenses || x == e;
  }

  /** The monthly total of one category. */
  function CategorySum(expenses: seq<Expense>, c: string): real {
    TotalExpenses(InCategory(expenses, c))
  }

  /** The value `categoryData` denotes: each occurring category to its monthly total. */
  function CategoryTotals(expenses: seq<Expense>): (r: map<string, real>)
    ensures forall k :: 0 <= k < |expenses| ==>
      expenses[k].category in r && r[expenses[k].category] == CategorySum(expenses, expenses[k].category)
    ensures r == map[] <==> expenses == []
  {
    var totals := map c | c in OccurringCategories(expenses) :: CategorySum(expenses, c);
    assert |expenses| > 0 ==> expenses[0].category in totals;
    totals
  }

  /** The keys of `categoryData` are exactly the occurring categories. */
  lemma CategoryTotalsKeys(expenses: seq<Expense>)
    ensures CategoryTotals(expenses).Keys == OccurringCategories(expenses)
  {
  }

  /**
   * The keys of `categoryData` in insertion order (the order `Object.entries`
   * returns them): each category where it first occurs.
   */
  function CategoryOrder(expenses: seq<Expense>): (r: seq<string>)
    ensures |r| <= |expenses|
    ensures |r| == 0 <==> |expenses| == 0
    decreases |expenses|
  {
    if |expenses| == 0 then []
    else
      var prefix := CategoryOrder(expenses[..|expenses| - 1]);
      var c := expenses[|expenses| - 1].category;
      if c in prefix then prefix else prefix + [c]
  }

  ghost predicate Distinct(s: seq<string>) {
    forall i, j :: 0 <= i < j < |s| ==> s[i] != s[j]
  }

  /** The insertion order lists every occurring category once and nothing else. */
  lemma {:induction false} CategoryOrderLists(expenses: seq<Expense>)
    ensures Distinct(CategoryOrder(expenses))
    ensures forall c :: c in CategoryOrder(expenses) <==> c in OccurringCategories(expenses)
    decreases |expenses|
  {
    if |expenses| > 0 {
      var init := expenses[..|expenses| - 1];
      CategoryOrderLists(init);
      assert expenses == init + [expenses[|expenses| - 1]];
      OccurringCategoriesSnoc(init, expenses[|expenses| - 1]);
    }
  }

  /** Appending one expense adds its monthly amount to its own category only. */
  lemma CategorySumSnoc(expenses: seq<Expense>, e: Expense, c: string)
    ensures CategorySum(expenses + [e], c)
         == CategorySum(expenses, c) + (if e.category == c then ExpenseMonthly(e) else 0.0)
  {
    var s := expenses + [e];
    assert s[..|s| - 1] == expenses;
    if e.category == c {
      SumByAppend(InCategory(expenses, c), [e], ExpenseMonthly);
      SumBySingleton(e, ExpenseMonthly);
    } else {
      assert InCategory(s, c) == InCategory(expenses, c) + [];
      assert InCategory(expenses, c) + [] == InCategory(expenses, c);
    }
  }

  /** A category that does not occur has total 0. */
  lemma {:induction false} CategorySumAbsent(expenses: seq<Expense>, c: string)
    requires c !in OccurringCategories(expenses)
    ensures CategorySum(expenses, c) == 0.0
    decreases |expenses|
  {
    if |expenses| > 0 {
      var init := expenses[..|expenses| - 1];
      assert expenses == init + [expenses[|expenses| - 1]];
      assert OccurringCategories(init) <= OccurringCategories(expenses);
      CategorySumAbsent(init, c);
      CategorySumSnoc(init, expenses[|expenses| - 1], c);
    }
  }

  /**
   * One step of the `categoryData` reduce: adding an expense's monthly amount
   * to its category (a missing key read as 0) keeps every key at its category's
   * total and the keys at the occurring categories.
   */
  lemma GroupStep(prefix: seq<Expense>, e: Expense, acc: map<string, real>)
    requires acc.Keys == OccurringCategories(prefix)
    requires forall c :: c in acc ==> acc[c] == CategorySum(prefix, c)
    ensures var acc' := acc[e.category := (if e.category in acc then acc[e.category] else 0.0) + ExpenseMonthly(e)];
      && acc'.Keys == OccurringCategories(prefix + [e])
      && forall c :: c in acc' ==> acc'[c] == CategorySum(prefix + [e], c)
  {
    OccurringCategoriesSnoc(prefix, e);
    if e.category !in acc {
      CategorySumAbsent(prefix, e.category);
    }
    var acc' := acc[e.category := (if e.category in acc then acc[e.category] else 0.0) + ExpenseMonthly(e)];
    forall c | c in acc'
      ensures acc'[c] == CategorySum(prefix + [e], c)
    {
      CategorySumSnoc(prefix, e, c);
    }
  }

  /**
   * `categoryData`: a reduce that updates `acc[e.category]` in place, starting
   * from `{}` and reading a missing key as 0. `keys` is the record's key order.
   */
  method GroupByCategory(expenses: seq<Expense>) returns (keys: seq<string>, acc: map<string, real>)
    ensures keys == CategoryOrder(expenses)
    ensures acc == CategoryTotals(expenses)
  {
    keys, acc := [], map[];
    for i := 0 to |expenses|
      invariant keys == CategoryOrder(expenses[..i])
      invariant acc.Keys == OccurringCategories(expenses[..i])
      invariant forall c :: c in acc ==> acc[c] == CategorySum(expenses[..i], c)
    {
      var e := expenses[i];
      ghost var prefix := expenses[..i];
      assert expenses[..i + 1] == prefix + [e];
      assert CategoryOrder(prefix + [e]) == if e.category in keys then keys else keys + [e.category] by {
        assert (prefix + [e])[..|prefix|] == prefix;
      }
      assert e.category in acc <==> e.category in keys by {
        CategoryOrderLists(prefix);
      }
      var monthly := ToMonthly(e.amount, e.interval);
      assert monthly == ExpenseMonthly(e);
      GroupStep(prefix, e, acc);
      if e.category !in acc {
        keys := keys + [e.category];
      }
      var previous := if e.category in acc then acc[e.category] else 0.0;
      acc := acc[e.category := previous + monthly];
    }
    assert expenses[..|expenses|] == expenses;
    CategoryTotalsKeys(expenses);
  }

  /** Sum over a key list of each key's category total. */
  function SumOverKeys(keys: seq<string>, expenses: seq<Expense>): real
    decreases |keys|
  {
    if |keys| == 0 then 0.0
    else SumOverKeys(keys[..|keys| - 1], expenses) + CategorySum(expenses, keys[|keys| - 1])
  }

  /** Over distinct keys, one more expense adds its amount once if its category is listed. */
  lemma {:induction false} SumOverKeysSnoc(keys: seq<string>, expenses: seq<Expense>, e: Expense)
    requires Distinct(keys)
    ensures SumOverKeys(keys, expenses + [e])
         == SumOverKeys(keys, expenses) + (if e.category in keys then ExpenseMonthly(e) else 0.0)
    decreases |keys|
  {
    if |keys| > 0 {
      var init := keys[..|keys| - 1];
      var k := keys[|keys| - 1];
      assert keys == init + [k];
      assert Distinct(init);
      assert k !in init;
      SumOverKeysSnoc(init, expenses, e);
      CategorySumSnoc(expenses, e, k);
      assert e.category in keys <==> e.category in init || e.category == k;
    }
  }

  /** Every expense falls into exactly one key: the category totals add up to the expense total. */
  lemma {:induction false} CategoryTotalsPartition(expenses: seq<Expense>)
    ensures SumOverKeys(CategoryOrder(expenses), expenses) == TotalExpenses(expenses)
    decreases |expenses|
  {
    if |expenses| > 0 {
      var init := expenses[..|expenses| - 1];
      var e := expenses[|expenses| - 1];
      var keys := CategoryOrder(init);
      var m := ExpenseMonthly(e);
      assert expenses == init + [e];
      assert TotalExpenses(expenses) == TotalExpenses(init) + m;
      CategoryTotalsPartition(init);
      CategoryOrderLists(init);
      SumOverKeysSnoc(keys, init, e);
      if e.category in keys {
        assert CategoryOrder(expenses) == keys;
      } else {
        var ks := keys + [e.category];
        assert CategoryOrder(expenses) == ks;
        assert ks[..|ks| - 1] == keys;
        CategorySumAbsent(init, e.category);
        CategorySumSnoc(init, e, e.category);
        assert SumOverKeys(ks, expenses) == SumOverKeys(keys, expenses) + CategorySum(expenses, e.category);
      }
    }
  }

  /** One slice of the pie chart. */
  datatype Slice = Slice(name: string, value: real)

  /** `pieData`: each entry of `categoryData`, in key order, rounded to cents. */
  function PieData(keys: seq<string>, acc: map<string, real>): (r: seq<Slice>)
    requires forall k :: k in keys ==> k in acc
    ensures |r| == |keys|
    ensures forall i :: 0 <= i < |r| ==>
      && r[i].name == keys[i]
      && acc[keys[i]] - 0.005 < r[i].value <= acc[keys[i]] + 0.005
      && WholeCents(r[i].value)
    decreases |keys|
  {
    if |keys| == 0 then []
    else PieData(keys[..|keys| - 1], acc) + [Slice(keys[|keys| - 1], RoundCents(acc[keys[|keys| - 1]]))]
  }

  /** The pie of a list of expenses. */
  function PieOf(expenses: seq<Expense>): (r: seq<Slice>)
    ensures |r| == |CategoryOrder(expenses)|
    ensures |r| == 0 <==> |expenses| == 0
  {
    var keys := CategoryOrder(expenses);
    var totals := CategoryTotals(expenses);
    CategoryOrderLists(expenses);
    PieData(keys, totals)
  }

  lemma {:induction false} DistinctCardinality(s: seq<string>)
    requires Distinct(s)
    ensures |set x | x in s| == |s|
    decreases |s|
  {
    if |s| > 0 {
      var init := s[..|s| - 1];
      assert s == init + [s[|s| - 1]];
      assert Distinct(init);
      DistinctCardinality(init);
      assert (set x | x in s) == (set x | x in init) + {s[|s| - 1]};
    }
  }

  /** Slice `i` is named by key `i` and holds that category's total rounded to whole cents. */
  lemma PieSliceValue(expenses: seq<Expense>, i: nat)
    requires i < |PieOf(expenses)|
    ensures PieOf(expenses)[i].name == CategoryOrder(expenses)[i]
    ensures var total := CategorySum(expenses, CategoryOrder(expenses)[i]);
      total - 0.005 < PieOf(expenses)[i].value <= total + 0.005
    ensures WholeCents(PieOf(expenses)[i].value)
  {
    var keys := CategoryOrder(expenses);
    var totals := CategoryTotals(expenses);
    CategoryOrderLists(expenses);
    var pie := PieData(keys, totals);
    assert PieOf(expenses) == pie;
    var k := keys[i];
    assert k in OccurringCategories(expenses);
    assert totals == map c | c in OccurringCategories(expenses) :: CategorySum(expenses, c);
    var total := totals[k];
    assert total == CategorySum(expenses, k);
    var v := pie[i].value;
    assert total - 0.005 < v <= total + 0.005;
    assert WholeCents(v);
  }

  /**
   * The pie has one slice per key of `categoryData`, named in key order, and
   * the chart is shown (the pie is non-empty) exactly when there are expenses.
   */
  lemma PieSlices(expenses: seq<Expense>)
    ensures |PieOf(expenses)| == |CategoryTotals(expenses).Keys|
    ensures forall i :: 0 <= i < |PieOf(expenses)| ==>
      PieOf(expenses)[i].name in CategoryTotals(expenses)
    ensures |PieOf(expenses)| > 0 <==> |expenses| > 0
  {
    var keys := CategoryOrder(expenses);
    CategoryOrderLists(expenses);
    DistinctCardinality(keys);
    assert CategoryTotals(expenses).Keys == set x | x in keys;
    forall i | 0 <= i < |PieOf(expenses)|
      ensures PieOf(expenses)[i].name in CategoryTotals(expenses)
    {
      PieSliceValue(expenses, i);
    }
  }

  /**
   * A salary of 3000 a month against rent of 1200 a month and insurance of
   * 240 a year: 1220 of monthly costs, 1780 free, a savings rate of 59 %.
   */
  lemma SalaryRentInsuranceExample()
    ensures var incomes := [Income("i1", "Gehalt", 3000.0, "monthly")];
            var expenses := [Expense("e1", "Wohnung", 1200.0, "Miete", "monthly"),
                             Expense("e2", "Haftpflicht", 240.0, "Versicherungen", "yearly")];
            Summarize(incomes, expenses) == Summary(3000.0, 1220.0, 1780.0, 59)
  {
    var incomes := [Income("i1", "Gehalt", 3000.0, "monthly")];
    var rent := Expense("e1", "Wohnung", 1200.0, "Miete", "monthly");
    var insurance := Expense("e2", "Haftpflicht", 240.0, "Versicherungen", "yearly");
    var expenses := [rent, insurance];
    assert expenses[..1] == [rent];
    SumBySingleton(incomes[0], IncomeMonthly);
    SumBySingleton(rent, ExpenseMonthly);
    assert TotalExpenses(expenses) == 1220.0;
  }

  /** Rent of 1200 a month and liability insurance of 240 a year. */
  const RentAndInsurance: seq<Expense> :=
    [Expense("e1", "Wohnung", 1200.0, "Miete", "monthly"),
     Expense("e2", "Haftpflicht", 240.0, "Versicherungen", "yearly")]

  /** Rent and insurance are charted in that order. */
  lemma RentAndInsuranceOrder()
    ensures CategoryOrder(RentAndInsurance) == ["Miete", "Versicherungen"]
    ensures OccurringCategories(RentAndInsurance) == {"Miete", "Versicherungen"}
  {
    var rent, insurance := RentAndInsurance[0], RentAndInsurance[1];
    assert RentAndInsurance == [rent] + [insurance];
    assert RentAndInsurance[..1] == [rent];
    assert [rent] == [] + [rent];
    assert "Miete" != "Versicherungen" by { assert "Miete"[0] != "Versicherungen"[0]; }
    OccurringCategoriesSnoc([rent], insurance);
    OccurringCategoriesSnoc([], rent);
  }

  /** The category totals of rent and insurance: 1200 and a twelfth of 240. */
  lemma RentAndInsuranceSums()
    ensures CategorySum(RentAndInsurance, "Miete") == 1200.0
    ensures CategorySum(RentAndInsurance, "Versicherungen") == 20.0
  {
    var rent, insurance := RentAndInsurance[0], RentAndInsurance[1];
    assert RentAndInsurance == [rent] + [insurance];
    assert [rent] == [] + [rent];
    assert "Miete" != "Versicherungen" by { assert "Miete"[0] != "Versicherungen"[0]; }
    CategorySumSnoc([], rent, "Miete");
    CategorySumSnoc([], rent, "Versicherungen");
    CategorySumSnoc([rent], insurance, "Miete");
    CategorySumSnoc([rent], insurance, "Versicherungen");
  }

  /** The same two expenses as a chart: "Miete" first with 1200, then "Versicherungen" with 20. */
  lemma SalaryRentInsuranceCategories()
    ensures CategoryOrder(RentAndInsurance) == ["Miete", "Versicherungen"]
    ensures CategoryTotals(RentAndInsurance) == map["Miete" := 1200.0, "Versicherungen" := 20.0]
  {
    RentAndInsuranceOrder();
    RentAndInsuranceSums();
    CategoryTotalsKeys(RentAndInsurance);
  }
}
