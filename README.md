# Bookkeeping core of a small-business Flask app

`app.py` is a Flask application. Small businesses use it to record sales
("venta") and expenses ("gasto"), keep a product list, and look at reports.
Under the routing, OAuth and plotting glue there is a small bookkeeping
core, and this project models that core in Dafny:

- **Ledger** (`ledger.dfy`): the `Movement` and `Product` records.
  - `LedgerStore` is a class standing for the two append-only tables, with a next-id counter for each.
  - The POST handlers append one row, tagged with the business id, and return its fresh id.
  - The GET and export handlers list exactly one business's rows.
  - SQL `WHERE` filters are a `Criterion` value and `Select`.
  - `SUM(amount)` is `Total`, with an empty sum read as 0.
- **Calendar** (`calendar.dfy`): Python's `datetime.date` on the proleptic Gregorian calendar.
  - `toordinal` is `Ordinal`.
  - `d ± timedelta(days=n)` is `AddDays`/`SubDays`, proved to move the ordinal by exactly `n`.
  - Comparing dates is proved to be the same as comparing ordinals.
- **Aggregation** (`aggregation.dfy`): the numbers the report endpoints compute.
  - The 30-day daily totals of `plot_sales`.
  - The per-category rows and pie-chart lists of `plot_category`.
  - The monthly summary of `fiscal_report`, including December rolling over into January of the next year.
- **Forecast** (`forecast.dfy`): the rest of `predict_sales` around the regression.
  - The refusal when fewer than five distinct sale days exist.
  - The training samples.
  - The seven projected dates after the latest sale day.
  - The fitted regression is a function parameter, `predict`.

`wrappers.dfy` holds the `Option` and `Result` datatypes.

Choices about values:
- Amounts are `real`.
- The clock reading `datetime.now()` in `plot_sales` is the parameter `today`.
- Request parsing is out of the model: handlers receive dates, times and numbers already parsed.

Where the code and the system's written description differ, the model follows the code:
- The write handlers check neither that the business exists nor the `tipo` value. So `RecordMovement` has no error path, and any `tipo` string is stored.
- The daily totals of `plot_sales` sum movements of every `tipo`, expenses included.
- The per-category rows mix sales and expenses.
- The fallback label is `sin-categoria`. Because it comes from Python's `or`, the empty-string category gets it too, not only a null one.

## Model

| member | source | states |
|---|---|---|
| Calendar.DaysInMonth | app.py:349-353 | A month has 28 to 31 days, and 29 exactly for February of a leap year. This is what makes "the day before the first of the next month" the month's last day. |
| Calendar.Ordinal | app.py:287 | `date.toordinal()`: days before the year, plus days before the month, plus the day; its properties are `OrdinalOrder`, `OrdinalInjective` and the day-step functions below. |
| Calendar.OrdinalOrder | app.py:287 | For valid dates, `a < b` holds exactly when `a.toordinal() < b.toordinal()`, so the regression's x-axis keeps date order. |
| Calendar.OrdinalInjective | app.py:287 | Distinct valid dates have distinct ordinals. |
| Calendar.NextDay | app.py:240 | The day after a valid date is valid, later, and one ordinal further on. |
| Calendar.PrevDay | app.py:351-353 | Subtracting one day gives a valid, earlier date, one ordinal back. |
| Calendar.AddDays | app.py:295 | Adding `n` days gives a valid date exactly `n` ordinals later. |
| Calendar.SubDays | app.py:239 | Subtracting `n` days gives a valid date exactly `n` ordinals earlier. |
| Calendar.SubThenAdd | app.py:239-240 | Going back `n` days and then forward `n` days returns to the same date. |
| Calendar.AddDaysOrdered | app.py:294-295 | `last + i` comes before `last + j` exactly when `i < j`. |
| Calendar.MonthBounds | app.py:354 | A valid date lies between the first and the last day of a month exactly when it is in that year and month. |
| Ledger.Select | app.py:202 | A filtered listing holds exactly the rows that are in the table and satisfy the filter, and is no longer than the table. |
| Ledger.SelectAppend | app.py:202 | Filtering a concatenation is the concatenation of the filtered parts, so table order is kept. |
| Ledger.Total | app.py:243 | SQL `SUM(amount)` over a list of rows, with the empty sum read as 0 (the `or 0` of app.py:243); additive by `TotalAppend`. |
| Ledger.TotalAppend | app.py:243 | The sum over two row lists put together is the sum of their sums. |
| Ledger.SelectTotalSnoc | app.py:243 | Appending a row adds it to a filtered listing, and its amount to the filtered sum, exactly when it matches the filter. |
| Ledger.NoMatchTotalZero | app.py:243 | When no row matches, the filtered listing is empty and its sum is 0, which is the `or 0` fallback. |
| Ledger.Distinct | app.py:283 | The keys of a `GROUP BY` are every value of the column, each exactly once. |
| Ledger.ProductsOf | app.py:224 | A product listing holds exactly the products of that business. |
| Ledger.ProductsOfAppend | app.py:224-229 | Appending a product extends the business's listing by that product exactly when it belongs to the business. |
| Ledger.NewProduct | app.py:227 | The new product keeps the given id, business and name. A missing `cost`, `price` or `stock` becomes 0, and a given one is kept. |
| Ledger.LedgerStore.constructor | app.py:72-88 | A fresh store has empty tables and satisfies the id invariant. |
| Ledger.LedgerStore.RecordMovement | app.py:206-218 | Appends exactly one movement carrying `bid` and the given fields. It returns its id, which no earlier row has, keeps the id invariant, and leaves products unchanged. |
| Ledger.LedgerStore.RecordProduct | app.py:226-230 | Appends exactly one product built with the zero defaults and returns an id no earlier product has. It keeps the invariant and leaves movements unchanged. |
| Ledger.LedgerStore.ListMovements | app.py:201-205 | Returns exactly the stored movements of `bid` and none of another business. The export handler at app.py:325 uses the same query. |
| Ledger.LedgerStore.ListProducts | app.py:223-225 | Returns exactly the stored products of `bid`. |
| Ledger.RecordThenList | app.py:202-217 | After a movement is recorded, its business's listing is the old listing followed by the new row, and every other business's listing is unchanged. |
| Ledger.RecordProductThenList | app.py:224-229 | The same for products. |
| Aggregation.DayTotal | app.py:243 | The per-day `SUM` query: `bid`'s movements of that date, of every `tipo`, summed (characterised by `DayTotalAfterRecord` and `DayTotalEmpty`). |
| Aggregation.DailyTotals | app.py:238-244 | Returns the window ending `today` and 30 totals. Entry `k` is the sum of all of `bid`'s movements of any `tipo` on the `k`-th day of the window. |
| Aggregation.DayTotals | app.py:241-244 | The loop produces one total per date, in date order, each that day's sum. |
| Aggregation.Window | app.py:238-240 | The window has 30 valid dates. Their ordinals run from `today - 29` to `today`, it ends on `today`, and it is strictly increasing. |
| Aggregation.WindowConsecutive | app.py:240 | Each day of the window is the day after the previous one. |
| Aggregation.DateRange | app.py:240 | `n` valid dates whose ordinals count up from `start`'s. The source calls `pd.date_range(start, end)`; this count form is the model's own, and `Window` proves it gives exactly the days from `start` to `end`. |
| Aggregation.WindowShape | app.py:238-240 | Thirty valid dates with ordinals `today - 29 + k` end on `today`, are consecutive and strictly increase. |
| Aggregation.ConsecutiveDays | app.py:240 | Valid dates with consecutive ordinals are consecutive days in increasing order. |
| Aggregation.DayTotalAfterRecord | app.py:243 | Recording a movement raises the total of its own business and date by its amount, whatever its `tipo`, and leaves every other day's total unchanged. |
| Aggregation.DayTotalEmpty | app.py:243 | A day with no movements of the business totals 0. |
| Aggregation.GroupRows | app.py:264 | Each key gets one row, holding the sum of the rows in that category. |
| Aggregation.CategoryTotals | app.py:264 | Category values are pairwise distinct. Each belongs to some movement of `bid`, and every movement of `bid` has its category's row. Each row's total is the sum of that category's amounts over every `tipo`. |
| Aggregation.GroupRowsSum | app.py:264 | When the keys list every category once, the group sums add up to the sum of all rows. |
| Aggregation.CategoryTotalsSum | app.py:264 | The category totals add up to the business's total amount. |
| Aggregation.Label | app.py:265 | The label is `sin-categoria` exactly for a null or empty category, or one literally named so. Any other category is its own label. |
| Aggregation.CategoryChart | app.py:265-266 | The labels and values lists are as long as the rows. Position `i` holds row `i`'s label and total, and the values add up to the rows' totals. |
| Aggregation.ChartSum | app.py:264-266 | The pie chart's values add up to the business's total amount. |
| Aggregation.FiscalPeriod | app.py:349-353 | Succeeds exactly when the year is 1..9999, the month is 1..12, and it is not December 9999, whose next first day cannot be built. On success it gives the first and the last day of that month, both valid. |
| Aggregation.FiscalPeriodIsMonth | app.py:349-354 | A valid date is within the period's bounds exactly when it is in that year and month. |
| Aggregation.FiscalReport | app.py:349-358 | Fails exactly when the period does. On success it echoes year and month, with `profit == sales - expenses`. |
| Aggregation.FiscalAfterRecord | app.py:354-356 | Recording a movement adds its amount to sales exactly when it is `bid`'s, dated in the month, and a `venta`. Likewise it adds to expenses for a `gasto`. |
| Aggregation.MonthRows | app.py:354 | The fiscal query's rows: `bid`'s movements with `start <= date <= end` (characterised by `MonthRowsAfterRecord` and `FiscalPeriodIsMonth`). |
| Aggregation.MonthRowsAfterRecord | app.py:354 | The month's rows grow by the new movement exactly when it is `bid`'s and dated in that month. |
| Aggregation.FiscalEmpty | app.py:355-358 | With no movements, a valid month reports 0 sales, 0 expenses and 0 profit. |
| Aggregation.FiscalIgnoresOtherKinds | app.py:355-356 | A movement whose `tipo` is neither `venta` nor `gasto` never changes the summary. |
| Forecast.SaleDates | app.py:283 | The grouped dates are pairwise distinct. Each carries a `venta` of `bid`, and every `venta` of `bid` has its date among them. |
| Forecast.SalesOf | app.py:283 | The rows the forecast query groups are `bid`'s movements of `tipo` `venta` (its contract is `Ledger.Select`'s, applied twice). |
| Forecast.SaleDayTotal | app.py:283 | The `total` column of the forecast query: the sum of `bid`'s `venta` amounts on one day (characterised by `SaleDayTotalAfterRecord` and `SaleDayTotalEmpty`). |
| Forecast.TrainingSet | app.py:283-289 | One sample per sale day, in the order of the grouped dates: that day's ordinal and its `SaleDayTotal`. |
| Forecast.TrainingOrdinalsDistinct | app.py:283-288 | No two samples share an x value: the grouped dates are distinct and distinct valid dates have distinct ordinals. |
| Forecast.SaleDayTotalAfterRecord | app.py:283 | Recording a movement raises a day's training total by its amount exactly when it is a `venta` of `bid` on that day; expenses and other businesses never change it. |
| Forecast.SaleDayTotalEmpty | app.py:283 | A day that is not a sale day of `bid` has a sales total of 0. |
| Forecast.Latest | app.py:292 | The latest date is one of the sale days and no sale day is after it. |
| Forecast.PredictSales | app.py:283-298 | Fails exactly when there are fewer than 5 distinct sale days. Otherwise it gives 7 predictions. Prediction `i` is dated `last + i + 1` and its value is the model at that date's ordinal. The dates strictly increase, and all come after every sale day. |
| Forecast.Project | app.py:293-297 | The loop's 7 entries are dated `last + 1` through `last + 7`, each with the model's value at its ordinal. |
| Forecast.ProjectionOrdered | app.py:294-297 | The projected dates strictly increase and each is later than every observed sale day. |

## Left out

- Google OAuth login, the callback, logout, the session lookup and `login_required` are left out, as identity-provider and framework plumbing. No route checks that the user owns `bid`, so there is no ownership check to model.
- Business and user creation, the dashboard and the business list are left out: they are HTML rendering and single-row inserts with no computation.
- The printable ticket page is left out (HTML output only).
- The matplotlib figures and PNG encoding are left out. Only the lists handed to `plot` and `pie` are modelled.
- The CSV and XLSX exports are left out as file formatting. The CSV handler also uses `csv` without importing it, so it fails before writing anything. The rows they list are the `ListMovements` query.
- The least-squares fit and `predict` values of scikit-learn are left out, as floating-point numerics in a library: the model is the parameter `predict`. The pandas and numpy conversions around it are left out for the same reason.
- `datetime.fromisoformat`, `float()` and `int()` parsing of request fields are left out: the handlers receive parsed values. Malformed input, which raises in the source, is not modelled.
- Table creation, server start-up, and SQLAlchemy session and commit behaviour are left out. The store is in memory and a write always succeeds.
- Float rounding is left out. Amounts are exact `real`s, so sums are associative here where Python's float sums are not exactly.
- `Calendar`: dates carry an unbounded year. Python's 1..9999 range is modelled only where a handler builds a date from request input (`FiscalPeriod`). Not modelled: `end - timedelta(days=29)` falling before 0001-01-01 (app.py:239), `last + Timedelta(days=i)` leaving the representable range (app.py:295), and pandas `Timestamp` bounds in `pd.date_range` (app.py:240) and `pd.to_datetime` (app.py:287, app.py:295).
- `CategoryTotals`: SQL leaves the row order of a `GROUP BY` open. The model fixes order of first appearance, so the order of the rows and chart lists is not a claim about the database.
- `SaleDates`: likewise, the order of the grouped dates is fixed to first appearance.
- PredictSales: the training samples reach `predict` in that first-appearance order. The source's least-squares fit does not depend on the order of its rows, but the abstract `predict` may, so the model does not claim that the predicted values are independent of row order; the guard, the count and the dates are.
- Concurrent requests are not modelled. Each handler is one atomic step on the store.
