/**
 * The forecast endpoint: the guard on how many days of sales exist, the
 * training samples handed to the regression, and the seven days it
 * predicts.  The fitted line itself comes from a statistics library and is
 * a parameter here.
 */
module Forecast {
  import opened Calendar
  import opened Wrappers
  import opened Ledger

  /** Fewer distinct sale days than this and no forecast is made. */
  const MinSaleDays := 5
  /** Days predicted after the latest sale day. */
  const Horizon := 7

  /** The rows the forecast query groups: business `bid`'s "venta" movements. */
  function SalesOf(ms: seq<Movement>, bid: int): seq<Movement> {
    Select(Select(ms, OfBusiness(bid)), OfKind(Sale))
  }

  function DatesOf(ms: seq<Movement>): seq<Date> {
    seq(|ms|, i requires 0 <= i < |ms| => ms[i].date)
  }

  /**
   * The group keys of the forecast query (`GROUP BY Movement.date`): each
   * date on which business `bid` has at least one "venta" movement, once.
   * Days without a sale are not among them.
   */
  function SaleDates(ms: seq<Movement>, bid: int): (ds: seq<Date>)
    ensures forall i, j :: 0 <= i < j < |ds| ==> ds[i] != ds[j]
    ensures forall d :: d in ds ==> exists m :: m in ms && m.businessId == bid && m.tipo == Sale && m.date == d
    ensures forall m :: m in ms && m.businessId == bid && m.tipo == Sale ==> m.date in ds
  {
    var sales := SalesOf(ms, bid);
    var ds := Distinct(DatesOf(sales));
    forall d | d in ds ensures exists m :: m in ms && m.businessId == bid && m.tipo == Sale && m.date == d {
      var i :| 0 <= i < |sales| && DatesOf(sales)[i] == d;
      assert sales[i] in sales;
    }
    forall m | m in ms && m.businessId == bid && m.tipo == Sale ensures m.date in ds {
      assert m in sales;
      var i :| 0 <= i < |sales| && sales[i] == m;
      assert DatesOf(sales)[i] == m.date;
    }
    ds
  }

  /** One training point: `date.toordinal()` and that day's summed sales. */
  datatype Sample = Sample(ordinal: int, total: real)

  /** The summed `venta` amounts of business `bid` on day `d`: the `total` column of the forecast query. */
  function SaleDayTotal(ms: seq<Movement>, bid: int, d: Date): real {
    Total(Select(SalesOf(ms, bid), OnDate(d)))
  }

  /** The points the regression is fitted on, one per sale day. */
  function TrainingSet(ms: seq<Movement>, bid: int): (xs: seq<Sample>)
    requires forall m :: m in ms ==> ValidDate(m.date)
    ensures |xs| == |SaleDates(ms, bid)|
    ensures forall i :: 0 <= i < |xs| ==>
              ValidDate(SaleDates(ms, bid)[i])
              && xs[i] == Sample(Ordinal(SaleDates(ms, bid)[i]), SaleDayTotal(ms, bid, SaleDates(ms, bid)[i]))
  {
    var ds := SaleDates(ms, bid);
    assert forall i :: 0 <= i < |ds| ==> ValidDate(ds[i]) by {
      forall i | 0 <= i < |ds| ensures ValidDate(ds[i]) {
        assert ds[i] in ds;
      }
    }
    seq(|ds|, i requires 0 <= i < |ds| => Sample(Ordinal(ds[i]), SaleDayTotal(ms, bid, ds[i])))
  }

  /** No two training points share an x value: one point per sale day. */
  lemma TrainingOrdinalsDistinct(ms: seq<Movement>, bid: int)
    requires forall m :: m in ms ==> ValidDate(m.date)
    ensures var xs := TrainingSet(ms, bid);
            forall i, j :: 0 <= i < j < |xs| ==> xs[i].ordinal != xs[j].ordinal
  {
    var xs, ds := TrainingSet(ms, bid), SaleDates(ms, bid);
    forall i, j | 0 <= i < j < |xs| ensures xs[i].ordinal != xs[j].ordinal {
      if xs[i].ordinal == xs[j].ordinal {
        OrdinalInjective(ds[i], ds[j]);
      }
    }
  }

  /**
   * Recording a movement raises a day's training total by its amount
   * exactly when it is a "venta" of `bid` on that day; expenses and other
   * businesses never move the y values.
   */
  lemma SaleDayTotalAfterRecord(ms: seq<Movement>, m: Movement, bid: int, d: Date)
    ensures SaleDayTotal(ms + [m], bid, d)
            == SaleDayTotal(ms, bid, d) + (if m.businessId == bid && m.tipo == Sale && m.date == d then m.amount else 0.0)
  {
    var own := Select(ms, OfBusiness(bid));
    RecordThenList(ms, m, bid);
    if m.businessId == bid {
      SelectTotalSnoc(own, m, OfKind(Sale));
      if m.tipo == Sale {
        SelectTotalSnoc(Select(own, OfKind(Sale)), m, OnDate(d));
      } else {
        assert SalesOf(ms + [m], bid) == SalesOf(ms, bid);
      }
    }
  }

  /** A day on which `bid` has no "venta" movement has no sales to train on. */
  lemma SaleDayTotalEmpty(ms: seq<Movement>, bid: int, d: Date)
    requires d !in SaleDates(ms, bid)
    ensures SaleDayTotal(ms, bid, d) == 0.0
  {
    NoMatchTotalZero(SalesOf(ms, bid), OnDate(d));
  }

  /** `df['date'].max()`: the latest of a non-empty list of dates. */
  function Latest(ds: seq<Date>): (r: Date)
    requires |ds| > 0
    ensures r in ds
    ensures forall d :: d in ds ==> NotAfter(d, r)
  {
    if |ds| == 1 then ds[0]
    else
      var r := Latest(ds[1..]);
      assert forall d :: d in ds ==> d == ds[0] || d in ds[1..];
      if Before(r, ds[0]) then ds[0] else r
  }

  datatype Prediction = Prediction(date: Date, predicted: real)

  /** The 400 answer "Not enough data for prediction". */
  datatype ForecastError = NotEnoughData

  /**
   * `predict_sales`: refuse with fewer than five sale days; otherwise, with
   * `last` the latest sale day, predict for `last + 1` through `last + 7`
   * by evaluating the fitted model at each date's ordinal.  `predict`
   * stands for `LinearRegression().fit(samples).predict([[ordinal]])`.
   */
  method PredictSales(ms: seq<Movement>, bid: int, predict: (seq<Sample>, int) -> real)
    returns (r: Result<seq<Prediction>, ForecastError>)
    requires forall m :: m in ms ==> ValidDate(m.date)
    ensures r.Failure? <==> |SaleDates(ms, bid)| < MinSaleDays
    ensures r.Success? ==> |r.value| == Horizon
    ensures r.Success? ==>
              var last := Latest(SaleDates(ms, bid));
              ValidDate(last)
              && forall i :: 0 <= i < Horizon ==>
                   && ValidDate(r.value[i].date)
                   && Ordinal(r.value[i].date) == Ordinal(last) + i + 1
                   && r.value[i].predicted == predict(TrainingSet(ms, bid), Ordinal(r.value[i].date))
    ensures r.Success? ==> forall i, j :: 0 <= i < j < Horizon ==> Before(r.value[i].date, r.value[j].date)
    ensures r.Success? ==> forall d, i :: d in SaleDates(ms, bid) && 0 <= i < Horizon ==> Before(d, r.value[i].date)
  {
    var days := SaleDates(ms, bid);
    if |days| < MinSaleDays {
      return Failure(NotEnoughData);
    }
    var samples := TrainingSet(ms, bid);
    var last := Latest(days);
    assert ValidDate(last);
    var preds := Project(last, samples, predict);
    ProjectionOrdered(days, last, preds);
    r := Success(preds);
  }

  /**
   * The seven predictions after `last`: day `last + i + 1` at index `i`,
   * each the model's value at that day's ordinal.
   */
  method Project(last: Date, samples: seq<Sample>, predict: (seq<Sample>, int) -> real) returns (preds: seq<Prediction>)
    requires ValidDate(last)
    ensures |preds| == Horizon
    ensures forall k :: 0 <= k < Horizon ==>
              && ValidDate(preds[k].date)
              && Ordinal(preds[k].date) == Ordinal(last) + k + 1
              && preds[k].predicted == predict(samples, Ordinal(preds[k].date))
  {
    preds := [];
    for i := 1 to Horizon + 1
      invariant |preds| == i - 1
      invariant forall k :: 0 <= k < i - 1 ==>
                  && ValidDate(preds[k].date)
                  && Ordinal(preds[k].date) == Ordinal(last) + k + 1
                  && preds[k].predicted == predict(samples, Ordinal(preds[k].date))
    {
      var d := AddDays(last, i);
      preds := preds + [Prediction(d, predict(samples, Ordinal(d)))];
    }
  }

  /** The projected dates increase, and all come after every observed sale day. */
  lemma ProjectionOrdered(days: seq<Date>, last: Date, preds: seq<Prediction>)
    requires ValidDate(last) && forall d :: d in days ==> NotAfter(d, last)
    requires forall k :: 0 <= k < |preds| ==> ValidDate(preds[k].date) && Ordinal(preds[k].date) == Ordinal(last) + k + 1
    ensures forall i, j :: 0 <= i < j < |preds| ==> Before(preds[i].date, preds[j].date)
    ensures forall d, i :: d in days && 0 <= i < |preds| ==> Before(d, preds[i].date)
  {
    forall i, j | 0 <= i < j < |preds| ensures Before(preds[i].date, preds[j].date) {
      OrdinalOrder(preds[i].date, preds[j].date);
    }
    forall d, i | d in days && 0 <= i < |preds| ensures Before(d, preds[i].date) {
      OrdinalOrder(last, preds[i].date);
      BeforeTransitive(d, last, preds[i].date);
    }
  }
}
