/**
 * The savings-plan calculator page: the free budget shown as a hint, and the
 * ETF savings-plan projector, which saves a fixed amount every month for a
 * number of years while the balance grows at a fixed annual rate.
 */
module Savings {
  import opened Wrappers
  import opened Money
  import opened CashFlow

  /**
   * The free budget the page shows: monthly income minus monthly expenses of
   * the fetched rows, a failed fetch counting as no rows.
   */
  function LoadedFreeBudget(incomes: Option<seq<Income>>, expenses: Option<seq<Expense>>): (r: real)
    ensures incomes.None? && expenses.None? ==> r == 0.0
    ensures incomes.Some? && expenses.Some? ==> r == FreeBudget(incomes.value, expenses.value)
    ensures expenses.None? ==> r == TotalIncome(OrEmpty(incomes))
    ensures incomes.None? ==> r == -TotalExpenses(OrEmpty(expenses))
  {
    FreeBudget(OrEmpty(incomes), OrEmpty(expenses))
  }

  /** The monthly growth factor minus one: the annual percentage spread over twelve months. */
  function MonthlyReturn(returnRate: real): (r: real)
    ensures r * 1200.0 == returnRate
  {
    returnRate / 100.0 / 12.0
  }

  /**
   * The unrounded balance after `months` months: each month the balance grows by
   * `rate` and then the contribution `c` is paid in.
   */
  function Balance(months: nat, c: real, rate: real): (r: real)
    ensures months == 0 ==> r == 0.0
    ensures c == 0.0 ==> r == 0.0
  {
    if months == 0 then 0.0 else Balance(months - 1, c, rate) * (1.0 + rate) + c
  }

  /** The unrounded amount paid in after `months` months: `c` added once a month. */
  function Contributed(months: nat, c: real): (r: real)
    ensures r == months as real * c
    ensures c >= 0.0 ==> r >= 0.0
  {
    if months == 0 then 0.0 else Contributed(months - 1, c) + c
  }

  /** One bar of the chart: `Eingezahlt` (deposited) and `Zinsen` (interest), labelled "Jahr <year>". */
  datatype Point = Point(year: nat, deposited: int, interest: int)

  /** The point emitted at the end of year `y`: both halves rounded on their own. */
  function PointAt(y: nat, c: real, rate: real): (r: Point)
    ensures r.year == y
    ensures var balance := Balance(12 * y, c, rate);
      balance - 1.0 < (r.deposited + r.interest) as real <= balance + 1.0
  {
    var invested := Contributed(12 * y, c);
    Point(y, Round(invested), Round(Balance(12 * y, c, rate) - invested))
  }

  /** The series `chartData` denotes: one point per year, years 1 to `years`. */
  function Projection(monthlyRate: real, years: int, returnRate: real): (r: seq<Point>)
    ensures |r| == if years >= 1 then years else 0
    ensures forall k :: 0 <= k < |r| ==> r[k].year == k + 1
  {
    seq(if years >= 1 then years else 0, k requires 0 <= k => PointAt(k + 1, monthlyRate, MonthlyReturn(returnRate)))
  }

  /** `chartData`: the nested year/month loop over the unrounded running totals. */
  method Project(monthlyRate: real, years: int, returnRate: real) returns (data: seq<Point>)
    ensures data == Projection(monthlyRate, years, returnRate)
  {
    data := [];
    var monthlyReturn := returnRate / 100.0 / 12.0;
    var invested := 0.0;
    var total := 0.0;
    var y := 1;
    while y <= years
      invariant 1 <= y <= (if years >= 1 then years else 0) + 1
      invariant |data| == y - 1
      invariant total == Balance(12 * (y - 1), monthlyRate, monthlyReturn)
      invariant invested == Contributed(12 * (y - 1), monthlyRate)
      invariant forall k :: 0 <= k < |data| ==> data[k] == PointAt(k + 1, monthlyRate, monthlyReturn)
    {
      var m := 0;
      while m < 12
        invariant 0 <= m <= 12
        invariant total == Balance(12 * (y - 1) + m, monthlyRate, monthlyReturn)
        invariant invested == Contributed(12 * (y - 1) + m, monthlyRate)
      {
        total := total * (1.0 + monthlyReturn) + monthlyRate;
        invested := invested + monthlyRate;
        m := m + 1;
      }
      data := data + [Point(y, Round(invested), Round(total - invested))];
      y := y + 1;
    }
    var spec := Projection(monthlyRate, years, returnRate);
    assert |data| == |spec|;
    assert forall k :: 0 <= k < |data| ==> data[k] == spec[k];
  }

  /** `finalAmount`: deposited plus interest of the last point, 0 for an empty series. */
  function FinalAmount(data: seq<Point>): (r: int)
    ensures |data| == 0 ==> r == 0
    ensures |data| > 0 && data[|data| - 1].interest >= 0 ==> r >= TotalInvested(data)
  {
    if |data| > 0 then data[|data| - 1].deposited + data[|data| - 1].interest else 0
  }

  /** `totalInvested`: deposited of the last point, 0 for an empty series. */
  function TotalInvested(data: seq<Point>): (r: int)
    ensures |data| == 0 ==> r == 0
    ensures (forall k :: 0 <= k < |data| ==> data[k].deposited >= 0) ==> r >= 0
  {
    if |data| > 0 then data[|data| - 1].deposited else 0
  }

  // ----- properties of the running totals -----

  /** Without growth the balance is exactly what was paid in. */
  lemma {:induction false} BalanceWithoutGrowth(months: nat, c: real)
    ensures Balance(months, c, 0.0) == Contributed(months, c)
  {
    if months > 0 {
      BalanceWithoutGrowth(months - 1, c);
    }
  }

  /** With no negative rate or contribution the balance never falls below what was paid in. */
  lemma {:induction false} BalanceCoversContributions(months: nat, c: real, rate: real)
    requires c >= 0.0 && rate >= 0.0
    ensures Balance(months, c, rate) >= Contributed(months, c) >= 0.0
  {
    if months > 0 {
      var b := Balance(months - 1, c, rate);
      BalanceCoversContributions(months - 1, c, rate);
      assert b * rate >= 0.0;
      assert b * (1.0 + rate) == b + b * rate;
      assert Contributed(months, c) == Contributed(months - 1, c) + c;
    }
  }

  function Pow(x: real, n: nat): real {
    if n == 0 then 1.0 else Pow(x, n - 1) * x
  }

  /**
   * The running total is the future value of an annuity paid at the end of
   * each period: `Balance * rate == c * ((1 + rate)^months - 1)`.
   */
  lemma {:induction false} BalanceAnnuity(months: nat, c: real, rate: real)
    ensures Balance(months, c, rate) * rate == c * (Pow(1.0 + rate, months) - 1.0)
  {
    if months > 0 {
      var b := Balance(months - 1, c, rate);
      var p := Pow(1.0 + rate, months - 1);
      BalanceAnnuity(months - 1, c, rate);
      AnnuityStep(b, c, rate, p);
      assert Pow(1.0 + rate, months) == p * (1.0 + rate);
    }
  }

  /** One month of the annuity identity, as algebra on the previous balance `b` and power `p`. */
  lemma AnnuityStep(b: real, c: real, rate: real, p: real)
    requires b * rate == c * (p - 1.0)
    ensures (b * (1.0 + rate) + c) * rate == c * (p * (1.0 + rate) - 1.0)
  {
    calc {
      (b * (1.0 + rate) + c) * rate;
      (b * rate) * (1.0 + rate) + c * rate;
      c * (p - 1.0) * (1.0 + rate) + c * rate;
      c * (p * (1.0 + rate) - 1.0);
    }
  }

  // ----- properties of the series -----

  /** After year `y` the unrounded amount paid in is `12 * y * monthlyRate`; rounded, it is `Eingezahlt`. */
  lemma DepositedIsLinear(monthlyRate: real, years: int, returnRate: real, k: nat)
    requires k < |Projection(monthlyRate, years, returnRate)|
    ensures Projection(monthlyRate, years, returnRate)[k].deposited
         == Round(12.0 * (k + 1) as real * monthlyRate)
  {
  }

  /** At a 0 % return every point has interest 0 and deposits growing linearly. */
  lemma ZeroReturnNoInterest(monthlyRate: real, years: int)
    ensures forall k :: 0 <= k < |Projection(monthlyRate, years, 0.0)| ==>
      Projection(monthlyRate, years, 0.0)[k].interest == 0 &&
      Projection(monthlyRate, years, 0.0)[k].deposited == Round((12 * (k + 1)) as real * monthlyRate)
  {
    var r := Projection(monthlyRate, years, 0.0);
    forall k | 0 <= k < |r|
      ensures r[k].interest == 0
    {
      BalanceWithoutGrowth(12 * (k + 1), monthlyRate);
      RoundInteger(0);
    }
  }

  /** Saving nothing gives an all-zero series, whatever the return. */
  lemma ZeroContributionAllZero(years: int, returnRate: real)
    ensures forall k :: 0 <= k < |Projection(0.0, years, returnRate)| ==>
      Projection(0.0, years, returnRate)[k] == Point(k + 1, 0, 0)
  {
    var r := Projection(0.0, years, returnRate);
    forall k | 0 <= k < |r|
      ensures r[k] == Point(k + 1, 0, 0)
    {
      RoundInteger(0);
    }
  }

  /**
   * With no negative return or contribution, interest is never negative and
   * the deposited amount never decreases from one year to the next.
   */
  lemma NonNegativePlan(monthlyRate: real, years: int, returnRate: real)
    requires monthlyRate >= 0.0 && returnRate >= 0.0
    ensures forall k :: 0 <= k < |Projection(monthlyRate, years, returnRate)| ==>
      Projection(monthlyRate, years, returnRate)[k].interest >= 0
    ensures forall i, j :: 0 <= i < j < |Projection(monthlyRate, years, returnRate)| ==>
      Projection(monthlyRate, years, returnRate)[i].deposited
      <= Projection(monthlyRate, years, returnRate)[j].deposited
  {
    var r := Projection(monthlyRate, years, returnRate);
    var rate := MonthlyReturn(returnRate);
    forall k | 0 <= k < |r|
      ensures r[k].interest >= 0
    {
      BalanceCoversContributions(12 * (k + 1), monthlyRate, rate);
      RoundNonNegative(Balance(12 * (k + 1), monthlyRate, rate) - Contributed(12 * (k + 1), monthlyRate));
    }
    forall i, j | 0 <= i < j < |r|
      ensures r[i].deposited <= r[j].deposited
    {
      assert ((12 * (j + 1)) as real - (12 * (i + 1)) as real) * monthlyRate >= 0.0;
      RoundMonotone(Contributed(12 * (i + 1), monthlyRate), Contributed(12 * (j + 1), monthlyRate));
    }
  }

  /**
   * The headline figures: both 0 without a point; otherwise `totalInvested` is
   * the rounded total paid in and `finalAmount` differs from the unrounded
   * final balance by at most one currency unit (its two halves round separately).
   */
  lemma Headline(monthlyRate: real, years: int, returnRate: real)
    ensures years < 1 ==>
      FinalAmount(Projection(monthlyRate, years, returnRate)) == 0 &&
      TotalInvested(Projection(monthlyRate, years, returnRate)) == 0
    ensures years >= 1 ==>
      var balance := Balance(12 * years, monthlyRate, MonthlyReturn(returnRate));
      var amount := FinalAmount(Projection(monthlyRate, years, returnRate)) as real;
      TotalInvested(Projection(monthlyRate, years, returnRate)) == Round(Contributed(12 * years, monthlyRate)) &&
      balance - 1.0 < amount <= balance + 1.0
  {
  }

  /** A year at 0 % saving 200 a month: 2400 paid in, no interest. */
  lemma OneYearAtZeroPercent()
    ensures Projection(200.0, 1, 0.0) == [Point(1, 2400, 0)]
  {
    ZeroReturnNoInterest(200.0, 1);
    RoundInteger(2400);
  }

  /** Two years at 12 % saving 100 a month: 2400 paid in, the balance the annuity formula gives. */
  lemma TwoYearsAtTwelvePercent()
    ensures Projection(100.0, 2, 12.0)[1].deposited == 2400
    ensures Balance(24, 100.0, MonthlyReturn(12.0)) == 10000.0 * (Pow(1.01, 24) - 1.0)
  {
    RoundInteger(2400);
    BalanceAnnuity(24, 100.0, 0.01);
  }
}
