# Finance core of the asset-ally-plans pages, in Dafny

The web app lets a user record recurring incomes and fixed expenses and shows
derived figures. All its arithmetic sits in three React pages, and this project
models that arithmetic with exact `real` numbers:

- **Monthly normalisation and totals** (`CashFlow`). `toMonthly` is copied verbatim
  into each of the three pages. It is defined here once: "yearly" amounts are divided
  by twelve, and every other interval string passes through unchanged. The
  `reduce` sums are left folds from 0, proved independent of list order. The free
  budget is income minus expenses.
- **Dashboard** (`Dashboard`). The savings rate is 0 without positive income and
  otherwise a rounded percentage. The free-budget colour follows its sign.
  `categoryData` is modelled as a loop method (`GroupByCategory`) that updates a map
  key by key and also records the key insertion order that `Object.entries` returns.
  It is proved equal to a specification, and the category totals are proved to add
  up to the expense total. The pie slices are the totals rounded to cents.
- **Savings-plan projector** (`Savings`). The nested year/month loop that builds
  `chartData` is a method. It is proved to produce, for each year `y`, the point
  whose unrounded deposits are `12*y*monthlyRate` and whose unrounded balance
  follows the monthly recurrence `total := total*(1+r) + monthlyRate`. Lemmas over
  that specification cover the rest:
  - a 0 % return and a zero contribution;
  - no negative interest and non-decreasing deposits when rate and contribution
    are non-negative;
  - the annuity closed form;
  - the headline figures.
- **Expense dialog** (`Expenses`). It is a class with the page's state fields
  (`incomes`, `expenses`, `dialogOpen`, `dialogType`, `editingId`, `form`).
  Each method is tied to a pure transition function. Lemmas over those functions
  cover three things:
  - the saved record has a category exactly when it goes to `fixed_expenses`;
  - editing and saving unchanged writes the row back;
  - a blank add is an insert.

`Math.round(x)` is modelled as `Floor(x + 0.5)`, as JavaScript rounds halves up
(so -2.5 becomes -2).

The model follows the code as written, also where a stricter design would reject the input:

- An interval other than "yearly" or "monthly" is not rejected. It counts at full
  amount and is captioned "Monatlich".
- A category outside the drop-down list is not rejected. It gets its own key.
- A number of years below 1 is not an error. It gives an empty series, and both
  headline figures are then 0.
- A negative contribution is not rejected either.
- Saving is an update when `editingId` is truthy: an empty-string id would insert.

## Model

| member | source | states |
|---|---|---|
| Money.Round | src/pages/Dashboard.tsx:47 | `Math.round` gives the one integer `r` with `r <= x + 0.5 < r + 1` (nearest, halves up) |
| Money.RoundCents | src/pages/Dashboard.tsx:55 | `Math.round(v*100)/100` is within half a cent of `v` and is a whole number of cents |
| Money.RoundMonotone | src/pages/Savings.tsx:48 | rounding keeps the order of two amounts |
| Money.RoundNonNegative | src/pages/Savings.tsx:49 | a non-negative amount rounds to a non-negative integer |
| Money.RoundInteger | src/pages/Savings.tsx:48 | rounding leaves whole numbers unchanged |
| CashFlow.ToMonthly | src/pages/Dashboard.tsx:22-24 | "yearly" amounts are twelve times the result; every other interval string returns the amount unchanged; a non-negative amount never grows |
| CashFlow.SumBy | src/pages/Dashboard.tsx:44-45 | the `reduce` sum from 0 is 0 for an empty list and non-negative when no element contributes a negative value |
| CashFlow.TotalIncome | src/pages/Dashboard.tsx:44 | `totalIncome` is 0 without incomes and non-negative when no income amount is negative |
| CashFlow.TotalExpenses | src/pages/Dashboard.tsx:45 | `totalExpenses` is 0 without expenses and non-negative when no expense amount is negative |
| CashFlow.FreeBudget | src/pages/Dashboard.tsx:46 | 0 for two empty lists; non-negative exactly when expenses do not exceed income |
| CashFlow.OrEmpty | src/pages/Dashboard.tsx:38-39 | fetched rows are kept; a fetch without data becomes the empty list |
| CashFlow.SumByPermutation | src/pages/Dashboard.tsx:44-45 | the left-fold `reduce` sum takes the same value on any permutation of the list |
| CashFlow.TotalsOrderIndependent | src/pages/Dashboard.tsx:44-46 | total income, total expenses and free budget do not depend on row order |
| Dashboard.FreeBudgetColor | src/pages/Dashboard.tsx:60 | the card colour is "text-primary" exactly when the free budget is `>= 0`, else "text-destructive" |
| Dashboard.SavingsRate | src/pages/Dashboard.tsx:47 | exactly 0 when total income is `<= 0`, whatever the expenses; otherwise the rounded value of `freeBudget / totalIncome * 100` |
| Dashboard.Summarize | src/pages/Dashboard.tsx:44-47 | free budget is income minus expenses; two empty lists give all four figures 0 |
| Dashboard.SavingsRateAtMostHundred | src/pages/Dashboard.tsx:45-47 | with positive income and no negative expense amount the savings rate is at most 100 |
| Dashboard.SummaryOrderIndependent | src/pages/Dashboard.tsx:44-47 | permuting incomes or expenses leaves all four figures unchanged |
| Dashboard.CategoryTotals | src/pages/Dashboard.tsx:50-54 | every expense's category is a key of `categoryData`, mapped to the monthly sum of that category; the record is empty exactly when there are no expenses |
| Dashboard.CategoryOrder | src/pages/Dashboard.tsx:50-55 | there are never more keys than expenses, and no keys exactly when there are no expenses |
| Dashboard.CategoryOrderLists | src/pages/Dashboard.tsx:50-55 | the key order lists each occurring category exactly once and no other |
| Dashboard.CategorySumSnoc | src/pages/Dashboard.tsx:51-52 | one more expense adds its monthly amount to its own category and to no other |
| Dashboard.CategorySumAbsent | src/pages/Dashboard.tsx:52 | a category that does not occur totals 0 (the `|| 0` start value) |
| Dashboard.OccurringCategoriesSnoc | src/pages/Dashboard.tsx:50-53 | one more expense adds its own category to the occurring ones and no other |
| Dashboard.GroupStep | src/pages/Dashboard.tsx:51-53 | one step of the reduce, `acc[c] = (acc[c] || 0) + monthly`, keeps the keys at the occurring categories and each key at its category's monthly total |
| Dashboard.GroupByCategory | src/pages/Dashboard.tsx:50-54 | the in-place accumulation loop yields keys in first-occurrence order, exactly the occurring categories, each mapped to the monthly sum of its expenses |
| Dashboard.CategoryTotalsPartition | src/pages/Dashboard.tsx:45-54 | the unrounded category totals, summed over the keys, equal `totalExpenses` |
| Dashboard.PieData | src/pages/Dashboard.tsx:55 | one slice per key, in key order, valued within half a cent of the key's total and a whole number of cents |
| Dashboard.PieOf | src/pages/Dashboard.tsx:50-55 | `pieData` of a list of expenses has one slice per key of `categoryData` and is empty exactly when there are no expenses |
| Dashboard.PieSliceValue | src/pages/Dashboard.tsx:50-55 | slice i is named by the i-th key in insertion order and holds that category's monthly total rounded to a whole number of cents, within half a cent |
| Dashboard.PieSlices | src/pages/Dashboard.tsx:55-87 | the pie has as many slices as `categoryData` has keys, each named by a key, and the chart is shown exactly when there are expenses |
| Dashboard.SalaryRentInsuranceExample | src/pages/Dashboard.tsx:44-47 | 3000 monthly income against 1200 monthly rent and 240 yearly insurance gives 1220 expenses, 1780 free and rate 59 |
| Dashboard.RentAndInsuranceOrder | src/pages/Dashboard.tsx:50-55 | rent then insurance gives the keys "Miete", "Versicherungen" in that order |
| Dashboard.RentAndInsuranceSums | src/pages/Dashboard.tsx:50-54 | rent of 1200 a month totals 1200 under "Miete", insurance of 240 a year 20 under "Versicherungen" |
| Dashboard.SalaryRentInsuranceCategories | src/pages/Dashboard.tsx:50-55 | `categoryData` of rent and insurance is exactly `{Miete: 1200, Versicherungen: 20}`, in that key order |
| Savings.LoadedFreeBudget | src/pages/Savings.tsx:29-31 | the hint is 0 when neither fetch returned data, equals income minus expenses of the fetched rows, counts missing expense rows as none and missing income rows as none (giving minus the expenses) |
| Savings.MonthlyReturn | src/pages/Savings.tsx:38 | the monthly rate is the annual percentage divided by 1200 |
| Savings.Balance | src/pages/Savings.tsx:40-43 | the running total is 0 before the first month and stays 0 without contribution |
| Savings.Contributed | src/pages/Savings.tsx:39-44 | adding the contribution once a month gives `months * c`, non-negative for a non-negative contribution |
| Savings.PointAt | src/pages/Savings.tsx:46-50 | the point of year y is labelled y, and its deposited plus interest is within 1 of the unrounded balance |
| Savings.Projection | src/pages/Savings.tsx:41-51 | `years` points when `years >= 1`, none otherwise; point k is labelled year k+1 |
| Savings.Project | src/pages/Savings.tsx:36-53 | the nested loop over years and months, with unrounded running totals and rounding only at each emitted point, produces exactly `Projection` |
| Savings.FinalAmount | src/pages/Savings.tsx:55 | `finalAmount` is 0 for an empty series and at least `totalInvested` when the last interest is not negative |
| Savings.TotalInvested | src/pages/Savings.tsx:56 | `totalInvested` is 0 for an empty series and non-negative when no deposit is negative |
| Savings.BalanceWithoutGrowth | src/pages/Savings.tsx:38-44 | at a 0 % return the running total after n months is exactly what was paid in |
| Savings.BalanceCoversContributions | src/pages/Savings.tsx:43-44 | with rate and contribution `>= 0` the running total is never below the (non-negative) amount invested |
| Savings.BalanceAnnuity | src/pages/Savings.tsx:42-45 | the running total satisfies the annuity closed form `total * r == c * ((1 + r)^n - 1)` |
| Savings.DepositedIsLinear | src/pages/Savings.tsx:44-48 | `Eingezahlt` of year k+1 is `12*(k+1)*monthlyRate` rounded |
| Savings.ZeroReturnNoInterest | src/pages/Savings.tsx:38-49 | at a 0 % return every `Zinsen` is 0 and `Eingezahlt` is the rounded linear sum |
| Savings.ZeroContributionAllZero | src/pages/Savings.tsx:43-49 | with a zero contribution every point has `Eingezahlt = 0` and `Zinsen = 0`, at any return |
| Savings.NonNegativePlan | src/pages/Savings.tsx:43-49 | with rate and contribution `>= 0` every `Zinsen` is `>= 0` and `Eingezahlt` never decreases across years |
| Savings.Headline | src/pages/Savings.tsx:55-56 | both figures are 0 for an empty series; otherwise `totalInvested` is the rounded total paid in and `finalAmount` is within 1 of the unrounded final balance |
| Savings.OneYearAtZeroPercent | src/pages/Savings.tsx:41-50 | 200 a month for one year at 0 % gives the single point (1, 2400, 0) |
| Savings.TwoYearsAtTwelvePercent | src/pages/Savings.tsx:38-48 | 100 a month for two years at 12 % has 2400 deposited, and the balance is `10000 * (1.01^24 - 1)` |
| Expenses.IntervalLabel | src/pages/Expenses.tsx:132 | the caption is "Jährlich" exactly for "yearly" and "Monatlich" for any other interval |
| Expenses.LabelAgreesWithToMonthly | src/pages/Expenses.tsx:17-19 | a row captioned "Monatlich" counts at its full amount, one captioned "Jährlich" at a twelfth |
| Expenses.Categories | src/pages/Expenses.tsx:12 | the drop-down offers eight distinct categories, the default "Sonstiges" last |
| Expenses.TableFor | src/pages/Expenses.tsx:71 | "incomes" exactly for the income type, "fixed_expenses" exactly for the expense type |
| Expenses.IsEditing | src/pages/Expenses.tsx:72 | the truthiness of `editingId`: false for null and for the empty string, true for any non-empty id |
| Expenses.AddDialog | src/pages/Expenses.tsx:43-48 | `openAdd(t)`: open, type t, no edited id, form blank with category "Sonstiges" and interval "monthly" |
| Expenses.EditDialog | src/pages/Expenses.tsx:50-60 | `openEdit(item, t)`: open, type t, edited id = item id, form holds the item's name, amount and interval, category from the item when it has one, else "Sonstiges" |
| Expenses.RecordOf | src/pages/Expenses.tsx:64-70 | the saved record carries the form's name, amount and interval and the user id, and has a category exactly for the expense type |
| Expenses.SaveRequest | src/pages/Expenses.tsx:71-74 | an update of the edited row exactly when `editingId` is truthy, an insert otherwise, into the type's table |
| Expenses.AfterSave | src/pages/Expenses.tsx:75-80 | after the write the dialog is open only if it was open and the write reported an error; nothing else changes |
| Expenses.DeleteRequest | src/pages/Expenses.tsx:83-85 | a delete of the given id from "incomes" exactly for the income type |
| Expenses.DialogTitle | src/pages/Expenses.tsx:182 | the title starts "Bearbeiten" exactly when saving would update (else "Hinzufügen") and ends with the record type |
| Expenses.CategoryIffExpenseTable | src/pages/Expenses.tsx:64-84 | the saved record has a category exactly when it is written to "fixed_expenses"; save and delete pick the same table |
| Expenses.EditThenSaveWritesBack | src/pages/Expenses.tsx:50-74 | editing a row and saving without changes updates that row with its own name, amount and interval (and category for the expense type) |
| Expenses.AddThenSaveInserts | src/pages/Expenses.tsx:43-74 | saving a blank add inserts a blank monthly record, with category "Sonstiges" exactly for the expense type |
| Expenses.ExpensesPage.constructor | src/pages/Expenses.tsx:24-29 | initial state: no rows, dialog closed, type "expense", no edited id, blank form |
| Expenses.ExpensesPage.Load | src/pages/Expenses.tsx:37-38 | the rows are replaced by the fetched ones (none on a failed fetch); the dialog is untouched |
| Expenses.ExpensesPage.MonthlyIncome | src/pages/Expenses.tsx:89 | 0 without incomes; non-negative when no amount is negative |
| Expenses.ExpensesPage.MonthlyExpenses | src/pages/Expenses.tsx:90 | 0 without expenses; non-negative when no amount is negative |
| Expenses.ExpensesPage.OpenAdd | src/pages/Expenses.tsx:43-48 | the dialog state becomes `AddDialog(t)`; the rows are untouched |
| Expenses.ExpensesPage.OpenEdit | src/pages/Expenses.tsx:50-60 | the dialog state becomes `EditDialog(item, t)`; the rows are untouched |
| Expenses.ExpensesPage.EditName | src/pages/Expenses.tsx:186 | only the form's name changes |
| Expenses.ExpensesPage.EditAmount | src/pages/Expenses.tsx:187 | only the form's amount changes |
| Expenses.ExpensesPage.EditCategory | src/pages/Expenses.tsx:189 | only the form's category changes |
| Expenses.ExpensesPage.EditInterval | src/pages/Expenses.tsx:196 | only the form's interval changes |
| Expenses.ExpensesPage.SetDialogOpen | src/pages/Expenses.tsx:178 | only `dialogOpen` changes |
| Expenses.ExpensesPage.HandleSave | src/pages/Expenses.tsx:62-81 | without a user nothing happens; otherwise it returns `SaveRequest` of the current dialog, and the dialog closes only when no error is reported |

## Left out

- Fetching, inserting, updating and deleting through Supabase, the async `load`, `Promise.all`, toasts, and the reload after a successful save or a delete. The model takes fetched rows as values and the save outcome as an `error` flag.
- React hooks and re-rendering (`useState`, `useEffect`, `useMemo`). Derived figures are functions of the current state.
- IEEE-754 doubles. Amounts are exact reals, so the model has no rounding drift in sums, no `NaN` from `Number(...)` or `parseFloat`, and no infinities. The `|| 0` in the category grouping is modelled only for missing keys, not for `NaN`.
- The amount field of the dialog form holds the number its text denotes, not the text. `parseFloat` and `String(amount)` are not modelled, and the model assumes they round-trip.
- The chart label `Jahr <y>` is kept as the number `y`. The string formatting is not modelled.
- JavaScript object quirks in `categoryData`: a category named like an `Object.prototype` member (such as "constructor") and the numeric-first key order `Object.entries` gives integer-like keys. Categories come from the fixed drop-down list, and none of its entries is affected.
- `toLocaleString` currency formatting, chart rendering, colours, and the X-axis tick interval at src/pages/Savings.tsx:124.
- Slider ranges at src/pages/Savings.tsx:84-93. They are UI limits only, so the model accepts any contribution, rate and integer number of years. Fractional years are not modelled.
- src/pages/Auth.tsx, src/pages/ResetPassword.tsx and src/components/AppLayout.tsx: authentication, navigation and layout, with no computation. The `user` check in `load` is not modelled either.
