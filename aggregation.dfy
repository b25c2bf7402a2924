/**
 * The numbers the report endpoints compute from the movement table before
 * handing them to a plotting or JSON layer: the 30-day daily totals of
 * `plot_sales`, the per-category totals of `plot_category` and the monthly
 * summary of `fiscal_report`.
 */
module Aggregation {
  import opened Calendar
  import opened Wrappers
  import opened Ledger

  // ---------------------------------------------------------------------
  // Daily totals over the last 30 days
  // ---------------------------------------------------------------------

  /**
   * The per-day query of `plot_sales`: the sum of the amounts of business
   * `bid`'s movements dated `d`, whatever their `tipo` (0 when there are none).
   */
  function DayTotal(ms: seq<Movement>, bid: int, d: Date): real {
    Total(Select(Select(ms, OfBusiness(bid)), OnDate(d)))
  }

  /** The window is 30 days long. */
  const WindowDays := 30

  /**
   * The loop of `plot_sales`: one entry per day from `today - 29` to
   * `today`, in increasing date order, each that day's total.  `today` is
   * the clock reading the handler takes.
   */
  method DailyTotals(ms: seq<Movement>, bid: int, today: Date) returns (dates: seq<Date>, totals: seq<real>)
    requires ValidDate(today)
    ensures dates == Window(today)
    ensures |totals| == WindowDays
    ensures forall k :: 0 <= k < WindowDays ==> totals[k] == DayTotal(ms, bid, dates[k])
  {
    dates := Window(today);
    totals := DayTotals(ms, bid, dates);
  }

  /** One query per day of `dates`, in the same order. */
  method DayTotals(ms: seq<Movement>, bid: int, dates: seq<Date>) returns (totals: seq<real>)
    ensures |totals| == |dates|
    ensures forall k :: 0 <= k < |dates| ==> totals[k] == DayTotal(ms, bid, dates[k])
  {
    totals := [];
    for k := 0 to |dates|
      invariant |totals| == k
      invariant forall j :: 0 <= j < k ==> totals[j] == DayTotal(ms, bid, dates[j])
    {
      totals := totals + [DayTotal(ms, bid, dates[k])];
    }
  }

  /**
   * The thirty days of the window: valid, ending today, one day apart and
   * in increasing order.
   */
  function Window(today: Date): (dates: seq<Date>)
    requires ValidDate(today)
    ensures |dates| == WindowDays
    ensures forall k :: 0 <= k < WindowDays ==> ValidDate(dates[k]) && Ordinal(dates[k]) == Ordinal(today) - (WindowDays - 1) + k
    ensures dates[WindowDays - 1] == today
    ensures forall i, j :: 0 <= i < j < WindowDays ==> Before(dates[i], dates[j])
  {
    var dates := DateRange(SubDays(today, WindowDays - 1), WindowDays);
    WindowShape(today, dates);
    dates
  }

  /** Each day of the window is the day after the one before it. */
  lemma WindowConsecutive(today: Date)
    requires ValidDate(today)
    ensures forall k :: 0 <= k < WindowDays - 1 ==> Window(today)[k + 1] == NextDay(Window(today)[k])
  {
    WindowShape(today, Window(today));
  }

  /** `pd.date_range(start, periods=n)`: `n` consecutive days from `start` on. */
  function DateRange(start: Date, n: nat): (r: seq<Date>)
    requires ValidDate(start)
    ensures |r| == n
    ensures forall k :: 0 <= k < n ==> ValidDate(r[k]) && Ordinal(r[k]) == Ordinal(start) + k
    decreases n
  {
    if n == 0 then [] else [start] + DateRange(NextDay(start), n - 1)
  }

  /** Thirty valid days whose ordinals count up to today's are the window ending today. */
  lemma WindowShape(today: Date, dates: seq<Date>)
    requires ValidDate(today) && |dates| == WindowDays
    requires forall k :: 0 <= k < WindowDays ==> ValidDate(dates[k]) && Ordinal(dates[k]) == Ordinal(today) - (WindowDays - 1) + k
    ensures dates[WindowDays - 1] == today
    ensures forall k :: 0 <= k < WindowDays - 1 ==> dates[k + 1] == NextDay(dates[k])
    ensures forall i, j :: 0 <= i < j < WindowDays ==> Before(dates[i], dates[j])
  {
    ConsecutiveDays(dates[0], dates);
    OrdinalInjective(dates[WindowDays - 1], today);
  }

  /**
   * Valid dates with consecutive ordinals are consecutive days, in
   * increasing order.
   */
  lemma ConsecutiveDays(first: Date, dates: seq<Date>)
    requires ValidDate(first)
    requires forall k :: 0 <= k < |dates| ==> ValidDate(dates[k]) && Ordinal(dates[k]) == Ordinal(first) + k
    ensures forall k :: 0 <= k < |dates| - 1 ==> dates[k + 1] == NextDay(dates[k])
    ensures forall i, j :: 0 <= i < j < |dates| ==> Before(dates[i], dates[j])
  {
    forall k | 0 <= k < |dates| - 1 ensures dates[k + 1] == NextDay(dates[k]) {
      OrdinalInjective(dates[k + 1], NextDay(dates[k]));
    }
    forall i, j | 0 <= i < j < |dates| ensures Before(dates[i], dates[j]) {
      OrdinalOrder(dates[i], dates[j]);
    }
  }

  /**
   * Recording a movement adds its amount, whatever its `tipo`, to the total
   * of its own business and date, and to no other day's total.
   */
  lemma DayTotalAfterRecord(ms: seq<Movement>, m: Movement, bid: int, d: Date)
    ensures DayTotal(ms + [m], bid, d)
            == DayTotal(ms, bid, d) + (if m.businessId == bid && m.date == d then m.amount else 0.0)
  {
    RecordThenList(ms, m, bid);
    if m.businessId == bid {
      SelectTotalSnoc(Select(ms, OfBusiness(bid)), m, OnDate(d));
    }
  }

  /** A day on which business `bid` has no movement totals 0. */
  lemma DayTotalEmpty(ms: seq<Movement>, bid: int, d: Date)
    requires forall m :: m in ms ==> m.businessId != bid || m.date != d
    ensures DayTotal(ms, bid, d) == 0.0
  {
    NoMatchTotalZero(Select(ms, OfBusiness(bid)), OnDate(d));
  }

  // ---------------------------------------------------------------------
  // Totals per category
  // ---------------------------------------------------------------------

  /** One row of the `GROUP BY Movement.category` query. */
  datatype CategoryRow = CategoryRow(category: Option<string>, total: real)

  function CategoriesOf(ms: seq<Movement>): seq<Option<string>> {
    seq(|ms|, i requires 0 <= i < |ms| => ms[i].category)
  }

  /** For each key of `ks`, the sum of the amounts of the rows of `ms` in that category. */
  function GroupRows(ks: seq<Option<string>>, ms: seq<Movement>): (rows: seq<CategoryRow>)
    ensures |rows| == |ks|
    ensures forall i :: 0 <= i < |ks| ==> rows[i] == CategoryRow(ks[i], Total(Select(ms, InCategory(ks[i]))))
  {
    if ks == [] then [] else [CategoryRow(ks[0], Total(Select(ms, InCategory(ks[0]))))] + GroupRows(ks[1..], ms)
  }

  function SumTotals(rows: seq<CategoryRow>): real {
    if rows == [] then 0.0 else rows[0].total + SumTotals(rows[1..])
  }

  /**
   * The rows of `plot_category`'s query: one per distinct category value of
   * business `bid`'s movements (a null category is a value of its own), each
   * with the sum of that group's amounts, sales and expenses together.  SQL
   * leaves the row order open; here it is order of first appearance.
   */
  function CategoryTotals(ms: seq<Movement>, bid: int): (rows: seq<CategoryRow>)
    ensures forall i, j :: 0 <= i < j < |rows| ==> rows[i].category != rows[j].category
    ensures forall i :: 0 <= i < |rows| ==>
              exists m :: m in ms && m.businessId == bid && m.category == rows[i].category
    ensures forall m :: m in ms && m.businessId == bid ==>
              exists i :: 0 <= i < |rows| && rows[i].category == m.category
    ensures forall i :: 0 <= i < |rows| ==>
              rows[i].total == Total(Select(Select(ms, OfBusiness(bid)), InCategory(rows[i].category)))
  {
    var own := Select(ms, OfBusiness(bid));
    var ks := Distinct(CategoriesOf(own));
    GroupKeys(ms, bid, own, ks);
    GroupRows(ks, own)
  }

  lemma GroupKeys(ms: seq<Movement>, bid: int, own: seq<Movement>, ks: seq<Option<string>>)
    requires own == Select(ms, OfBusiness(bid)) && ks == Distinct(CategoriesOf(own))
    ensures forall i :: 0 <= i < |ks| ==> exists m :: m in ms && m.businessId == bid && m.category == ks[i]
    ensures forall m :: m in ms && m.businessId == bid ==> m.category in ks
  {
    var cs := CategoriesOf(own);
    forall i | 0 <= i < |ks| ensures exists m :: m in ms && m.businessId == bid && m.category == ks[i] {
      assert ks[i] in cs;
      var j :| 0 <= j < |cs| && cs[j] == ks[i];
      assert own[j] in own;
    }
    forall m | m in ms && m.businessId == bid ensures m.category in ks {
      assert m in own;
      var j :| 0 <= j < |own| && own[j] == m;
      assert cs[j] == m.category;
    }
  }

  /** Adding one row to the grouped rows adds its amount once, if its category is a key. */
  lemma {:induction false} GroupRowsCons(ks: seq<Option<string>>, m: Movement, ms: seq<Movement>)
    requires forall i, j :: 0 <= i < j < |ks| ==> ks[i] != ks[j]
    ensures SumTotals(GroupRows(ks, [m] + ms))
            == SumTotals(GroupRows(ks, ms)) + (if m.category in ks then m.amount else 0.0)
  {
    if ks != [] {
      SelectCons(m, ms, InCategory(ks[0]));
      assert m.category in ks[1..] ==> m.category != ks[0] by {
        if m.category in ks[1..] {
          var j :| 0 <= j < |ks[1..]| && ks[1..][j] == m.category;
          assert ks[j + 1] == m.category;
        }
      }
      GroupRowsCons(ks[1..], m, ms);
    }
  }

  lemma SelectCons(m: Movement, ms: seq<Movement>, c: Criterion)
    ensures Total(Select([m] + ms, c)) == (if Matches(m, c) then m.amount else 0.0) + Total(Select(ms, c))
  {
    assert ([m] + ms)[1..] == ms;
    TotalAppend(if Matches(m, c) then [m] else [], Select(ms, c));
  }

  /** When `ks` lists every category of `ms` once, the group sums add up to the sum of `ms`. */
  lemma {:induction false} GroupRowsSum(ks: seq<Option<string>>, ms: seq<Movement>)
    requires forall i, j :: 0 <= i < j < |ks| ==> ks[i] != ks[j]
    requires forall m :: m in ms ==> m.category in ks
    ensures SumTotals(GroupRows(ks, ms)) == Total(ms)
  {
    if ms == [] {
      GroupRowsZero(ks);
    } else {
      assert ms == [ms[0]] + ms[1..];
      GroupRowsSum(ks, ms[1..]);
      GroupRowsCons(ks, ms[0], ms[1..]);
    }
  }

  lemma {:induction false} GroupRowsZero(ks: seq<Option<string>>)
    ensures SumTotals(GroupRows(ks, [])) == 0.0
  {
    if ks != [] {
      GroupRowsZero(ks[1..]);
    }
  }

  /** Every amount of business `bid` lands in exactly one category total. */
  lemma CategoryTotalsSum(ms: seq<Movement>, bid: int)
    ensures SumTotals(CategoryTotals(ms, bid)) == Total(Select(ms, OfBusiness(bid)))
  {
    var own := Select(ms, OfBusiness(bid));
    var ks := Distinct(CategoriesOf(own));
    forall m | m in own ensures m.category in ks {
      var i :| 0 <= i < |own| && own[i] == m;
      assert CategoriesOf(own)[i] == m.category;
    }
    GroupRowsSum(ks, own);
  }

  const NoCategory := "sin-categoria"

  /**
   * `r[0] or 'sin-categoria'`: a null category and the empty string (both
   * falsy) are labelled "sin-categoria", so two rows may share that label.
   */
  function Label(c: Option<string>): (l: string)
    ensures l == NoCategory <==> c == None || c == Some("") || c == Some(NoCategory)
    ensures c.Some? && c.value != "" ==> l == c.value
  {
    if c.None? || c.value == "" then NoCategory else c.value
  }

  /**
   * The two lists `plot_category` hands to the pie chart: labels and values,
   * position by position from the grouped rows.
   */
  function CategoryChart(rows: seq<CategoryRow>): (chart: (seq<string>, seq<real>))
    ensures |chart.0| == |chart.1| == |rows|
    ensures forall i :: 0 <= i < |rows| ==> chart.0[i] == Label(rows[i].category) && chart.1[i] == rows[i].total
    ensures SumReals(chart.1) == SumTotals(rows)
  {
    var cats := seq(|rows|, i requires 0 <= i < |rows| => Label(rows[i].category));
    var vals := seq(|rows|, i requires 0 <= i < |rows| => rows[i].total);
    SumValues(rows, vals);
    (cats, vals)
  }

  /** The slices of a business's pie chart add up to its total amount. */
  lemma ChartSum(ms: seq<Movement>, bid: int)
    ensures SumReals(CategoryChart(CategoryTotals(ms, bid)).1) == Total(Select(ms, OfBusiness(bid)))
  {
    CategoryTotalsSum(ms, bid);
  }

  function SumReals(xs: seq<real>): real {
    if xs == [] then 0.0 else xs[0] + SumReals(xs[1..])
  }

  lemma {:induction false} SumValues(rows: seq<CategoryRow>, vals: seq<real>)
    requires |vals| == |rows| && forall i :: 0 <= i < |rows| ==> vals[i] == rows[i].total
    ensures SumReals(vals) == SumTotals(rows)
  {
    if rows != [] {
      SumValues(rows[1..], vals[1..]);
    }
  }

  // ---------------------------------------------------------------------
  // Monthly fiscal summary
  // ---------------------------------------------------------------------

  /** `datetime.MINYEAR` and `datetime.MAXYEAR`. */
  const MinYear := 1
  const MaxYear := 9999

  /** The `ValueError` the `datetime` constructor raises for an out-of-range year or month. */
  datatype FiscalError = InvalidDate

  /**
   * The bounds `fiscal_report` computes: the first of the month, and the
   * day before the first of the next month (January 1 of `year + 1` for
   * December).  Constructing either first day fails when its year or month
   * is out of range.
   */
  function FiscalPeriod(year: int, month: int): (r: Result<(Date, Date), FiscalError>)
    ensures r.Success? <==> MinYear <= year <= MaxYear && 1 <= month <= 12 && !(year == MaxYear && month == 12)
    ensures r.Success? ==> r.value.0 == Date(year, month, 1) && r.value.1 == Date(year, month, DaysInMonth(year, month))
    ensures r.Success? ==> ValidDate(r.value.0) && ValidDate(r.value.1)
  {
    if year < MinYear || year > MaxYear || month < 1 || month > 12 then Failure(InvalidDate)
    else if month == 12 then
      if year + 1 > MaxYear then Failure(InvalidDate)
      else Success((Date(year, month, 1), PrevDay(Date(year + 1, 1, 1))))
    else Success((Date(year, month, 1), PrevDay(Date(year, month + 1, 1))))
  }

  /** A valid date falls within the fiscal period exactly when it is in that year and month. */
  lemma FiscalPeriodIsMonth(year: int, month: int, d: Date)
    requires FiscalPeriod(year, month).Success? && ValidDate(d)
    ensures var (start, end) := FiscalPeriod(year, month).value;
            NotAfter(start, d) && NotAfter(d, end) <==> d.year == year && d.month == month
  {
    MonthBounds(year, month, d);
  }

  datatype FiscalSummary = FiscalSummary(year: int, month: int, sales: real, expenses: real, profit: real)

  /**
   * `fiscal_report`: over business `bid`'s movements dated within the
   * month, the sum of the "venta" amounts, the sum of the "gasto" amounts,
   * and their difference.  Movements of any other `tipo` count in neither.
   */
  function FiscalReport(ms: seq<Movement>, bid: int, year: int, month: int): (r: Result<FiscalSummary, FiscalError>)
    ensures r.Success? <==> FiscalPeriod(year, month).Success?
    ensures r.Success? ==> r.value.year == year && r.value.month == month
    ensures r.Success? ==> r.value.profit == r.value.sales - r.value.expenses
  {
    match FiscalPeriod(year, month)
    case Failure(e) => Failure(e)
    case Success((start, end)) =>
      var rows := MonthRows(ms, bid, start, end);
      var sales := Total(Select(rows, OfKind(Sale)));
      var expenses := Total(Select(rows, OfKind(Expense)));
      Success(FiscalSummary(year, month, sales, expenses, sales - expenses))
  }

  /**
   * Recording a movement changes the month's sales by its amount exactly
   * when it belongs to `bid`, is dated in that month and is a "venta", and
   * the expenses likewise for a "gasto"; anything else leaves both as they were.
   */
  lemma FiscalAfterRecord(ms: seq<Movement>, m: Movement, bid: int, year: int, month: int)
    requires FiscalPeriod(year, month).Success? && ValidDate(m.date)
    ensures FiscalReport(ms + [m], bid, year, month).Success?
    ensures var before := FiscalReport(ms, bid, year, month).value;
            var after := FiscalReport(ms + [m], bid, year, month).value;
            var counted := m.businessId == bid && m.date.year == year && m.date.month == month;
            && after.sales == before.sales + (if counted && m.tipo == Sale then m.amount else 0.0)
            && after.expenses == before.expenses + (if counted && m.tipo == Expense then m.amount else 0.0)
  {
    var (start, end) := FiscalPeriod(year, month).value;
    var counted := m.businessId == bid && m.date.year == year && m.date.month == month;
    MonthRowsAfterRecord(ms, m, bid, year, month, start, end);
    var rows := MonthRows(ms, bid, start, end);
    if counted {
      SelectTotalSnoc(rows, m, OfKind(Sale));
      SelectTotalSnoc(rows, m, OfKind(Expense));
    } else {
      assert MonthRows(ms + [m], bid, start, end) == rows + [] == rows;
    }
  }

  /** The rows `fiscal_report` sums: business `bid`'s movements dated from `start` to `end`. */
  function MonthRows(ms: seq<Movement>, bid: int, start: Date, end: Date): seq<Movement> {
    Select(Select(ms, OfBusiness(bid)), Within(start, end))
  }

  lemma MonthRowsAfterRecord(ms: seq<Movement>, m: Movement, bid: int, year: int, month: int, start: Date, end: Date)
    requires 1 <= month <= 12 && start == Date(year, month, 1) && end == Date(year, month, DaysInMonth(year, month))
    requires ValidDate(m.date)
    ensures MonthRows(ms + [m], bid, start, end)
            == MonthRows(ms, bid, start, end)
               + (if m.businessId == bid && m.date.year == year && m.date.month == month then [m] else [])
  {
    MonthBounds(year, month, m.date);
    RecordThenList(ms, m, bid);
    if m.businessId == bid {
      SelectTotalSnoc(Select(ms, OfBusiness(bid)), m, Within(start, end));
    }
  }

  /** With no movements, a valid month reports zero sales, expenses and profit. */
  lemma FiscalEmpty(bid: int, year: int, month: int)
    requires FiscalPeriod(year, month).Success?
    ensures FiscalReport([], bid, year, month) == Success(FiscalSummary(year, month, 0.0, 0.0, 0.0))
  {
    assert MonthRows([], bid, FiscalPeriod(year, month).value.0, FiscalPeriod(year, month).value.1) == [];
  }

  /** A movement whose `tipo` is neither "venta" nor "gasto" never changes the summary. */
  lemma FiscalIgnoresOtherKinds(ms: seq<Movement>, m: Movement, bid: int, year: int, month: int)
    requires m.tipo != Sale && m.tipo != Expense && ValidDate(m.date)
    ensures FiscalReport(ms + [m], bid, year, month) == FiscalReport(ms, bid, year, month)
  {
    if FiscalPeriod(year, month).Success? {
      FiscalAfterRecord(ms, m, bid, year, month);
      var after, before := FiscalReport(ms + [m], bid, year, month).value, FiscalReport(ms, bid, year, month).value;
      assert after.sales == before.sales && after.expenses == before.expenses;
      assert after == before;
    }
  }
}
