/** The deterministic layer of the demand forecasting agent
    (ai-service/agents/demand_forecasting.py): the monthly seasonal profile
    of the fetched order items, and the repair of the oracle's forecast. */
module DemandForecasting {
  import opened Common
  import opened Responses

  type Month = m: int | 1 <= m <= 12 witness 1

  /** The `created_at` entry of an order: absent from the order, null, or a
      date (of which only the month matters here). */
  datatype CreatedAt = MissingCreatedAt | NullCreatedAt | CreatedIn(month: Month)

  /** The value under `orders` in a fetched order item: an order object, or
      anything else (null when the join found no order). */
  datatype OrdersValue = NotAnOrder | Order(createdAt: CreatedAt)

  /** One fetched order item: its `orders` entry (`None` when the row has no
      such key) and its quantity. */
  datatype OrderItemRow = OrderItemRow(orders: Option<OrdersValue>, quantity: real)

  /** An order item that survives the date filter. */
  datatype DatedQuantity = DatedQuantity(month: Month, quantity: real)

  // ---------------------------------------------------------------------
  // Which rows the profile is computed from

  /** The table has an `orders` column when some row has that key. */
  predicate HasOrdersColumn(rows: seq<OrderItemRow>)
  {
    exists i :: 0 <= i < |rows| && rows[i].orders.Some?
  }

  /** Reading `created_at` from an order that lacks it raises `KeyError`,
      which abandons the whole profile. */
  predicate ReadsMissingDate(rows: seq<OrderItemRow>)
  {
    exists i :: 0 <= i < |rows| && rows[i].orders == Some(Order(MissingCreatedAt))
  }

  predicate IsDated(row: OrderItemRow)
  {
    row.orders.Some? && row.orders.value.Order? && row.orders.value.createdAt.CreatedIn?
  }

  /** The rows left after dropping those without a date, in order. */
  function Dated(rows: seq<OrderItemRow>): (ds: seq<DatedQuantity>)
    ensures |ds| <= |rows|
    ensures |ds| == 0 <==> forall i :: 0 <= i < |rows| ==> !IsDated(rows[i])
  {
    if rows == [] then []
    else
      var rest := Dated(rows[1..]);
      assert forall i :: 1 <= i < |rows| ==> rows[i] == rows[1..][i - 1];
      if IsDated(rows[0])
      then [DatedQuantity(rows[0].orders.value.createdAt.month, rows[0].quantity)] + rest
      else rest
  }

  /** The dated rows the profile is computed from, or `None` when the
      source returns the empty profile: no rows, no `orders` column, an
      order without `created_at`, or no dated row. */
  function ProfileInput(rows: seq<OrderItemRow>): Option<seq<DatedQuantity>>
  {
    if rows == [] || !HasOrdersColumn(rows) then None
    else if ReadsMissingDate(rows) then None
    else
      var dated := Dated(rows);
      if dated == [] then None else Some(dated)
  }

  /** Without an `orders` column no row is dated, so that check never decides
      the outcome on its own. */
  lemma NoOrdersColumnNoDates(rows: seq<OrderItemRow>)
    requires !HasOrdersColumn(rows)
    ensures Dated(rows) == []
  {
    forall i | 0 <= i < |rows|
      ensures !IsDated(rows[i])
    {
      assert rows[i].orders.None?;
    }
  }

  // ---------------------------------------------------------------------
  // Monthly means

  function Quantities(ds: seq<DatedQuantity>): (qs: seq<real>)
    ensures |qs| == |ds|
    ensures forall i :: 0 <= i < |ds| ==> qs[i] == ds[i].quantity
  {
    if ds == [] then [] else [ds[0].quantity] + Quantities(ds[1..])
  }

  /** The quantities of the rows dated in month `m`, in order. */
  function MonthQuantities(ds: seq<DatedQuantity>, m: Month): (qs: seq<real>)
    ensures |qs| <= |ds|
    ensures |qs| == 0 <==> forall i :: 0 <= i < |ds| ==> ds[i].month != m
  {
    if ds == [] then []
    else
      var rest := MonthQuantities(ds[1..], m);
      assert forall i :: 1 <= i < |ds| ==> ds[i] == ds[1..][i - 1];
      if ds[0].month == m then [ds[0].quantity] + rest else rest
  }

  predicate Observed(ds: seq<DatedQuantity>, m: Month)
  {
    |MonthQuantities(ds, m)| > 0
  }

  /** The overall mean quantity; the profile divides by it. */
  function OverallMean(ds: seq<DatedQuantity>): real
    requires ds != []
  {
    Mean(Quantities(ds))
  }

  /** The overall mean lies between the smallest and the largest quantity. */
  lemma OverallMeanBounds(ds: seq<DatedQuantity>)
    requires ds != []
    ensures Min(Quantities(ds)) <= OverallMean(ds) <= Max(Quantities(ds))
  {
    MinMeanMax(Quantities(ds));
  }

  /** What the profile is defined for: the source divides by the overall
      mean, and this model has no infinity or NaN to give for a zero one. */
  predicate RatiosDefined(rows: seq<OrderItemRow>)
  {
    ProfileInput(rows).Some? ==> OverallMean(ProfileInput(rows).value) != 0.0
  }

  /** The seasonal factor of month `m`: its mean quantity relative to the
      overall mean, and 1.0 for a month without data. */
  function MonthRatio(ds: seq<DatedQuantity>, m: Month): (r: real)
    requires ds != [] && OverallMean(ds) != 0.0
    ensures !Observed(ds, m) ==> r == 1.0
    ensures Observed(ds, m) ==> r * OverallMean(ds) == Mean(MonthQuantities(ds, m))
  {
    if Observed(ds, m) then Mean(MonthQuantities(ds, m)) / OverallMean(ds) else 1.0
  }

  // ---------------------------------------------------------------------
  // The profile's keys

  /** `f'month_{m}'`. */
  function MonthKey(m: Month): (key: string)
    ensures |key| == 7 || |key| == 8
    ensures MonthOfKey(key) == m
  {
    "month_" + (if m < 10 then [DigitChar(m)] else ['1', DigitChar(m - 10)])
  }

  /** Every key starts with `month_`, followed by the month's one or two
      decimal digits. */
  lemma MonthKeyDigits(m: Month)
    ensures MonthKey(m)[..6] == "month_"
    ensures m < 10 ==> MonthKey(m)[6..] == [DigitChar(m)]
    ensures m >= 10 ==> MonthKey(m)[6..] == ['1', DigitChar(m - 10)]
  {
    var digits := if m < 10 then [DigitChar(m)] else ['1', DigitChar(m - 10)];
    assert MonthKey(m) == "month_" + digits;
  }

  /** Reads the month back from a key `MonthKey` built. */
  function MonthOfKey(key: string): int
  {
    if |key| == 7 then DigitValue(key[6])
    else if |key| == 8 then 10 + DigitValue(key[7])
    else 0
  }

  lemma MonthKeyInjective(m1: Month, m2: Month)
    ensures MonthKey(m1) == MonthKey(m2) <==> m1 == m2
  {
    if MonthKey(m1) == MonthKey(m2) {
      assert MonthOfKey(MonthKey(m1)) == MonthOfKey(MonthKey(m2));
    }
  }

  /** The keys of months 1 to n. */
  function MonthKeys(n: int): (keys: set<string>)
    requires 0 <= n <= 12
    ensures forall m: Month :: m <= n ==> MonthKey(m) in keys
  {
    if n == 0 then {} else MonthKeys(n - 1) + {MonthKey(n)}
  }

  /** Every key of months 1 to n is the key of one of those months. */
  lemma {:induction false} OnlyMonthKeys(n: int)
    requires 0 <= n <= 12
    ensures forall k :: k in MonthKeys(n) ==> 1 <= MonthOfKey(k) <= n && k == MonthKey(MonthOfKey(k))
  {
    if n > 0 {
      OnlyMonthKeys(n - 1);
      assert MonthOfKey(MonthKey(n)) == n;
    }
  }

  /** Adding an element a set does not hold adds one to its size. */
  lemma AddOne(s: set<string>, x: string)
    requires x !in s
    ensures |s + {x}| == |s| + 1
  {
  }

  /** Month n adds a key that months 1 to n - 1 do not have. */
  lemma NewMonthKey(n: int)
    requires 1 <= n <= 12
    ensures MonthKey(n) !in MonthKeys(n - 1)
    ensures |MonthKeys(n)| == |MonthKeys(n - 1)| + 1
  {
    var key := MonthKey(n);
    assert MonthOfKey(key) == n;
    OnlyMonthKeys(n - 1);
    AddOne(MonthKeys(n - 1), key);
  }

  lemma {:induction false} MonthKeysCount(n: int)
    requires 0 <= n <= 12
    ensures |MonthKeys(n)| == n
  {
    if n > 0 {
      MonthKeysCount(n - 1);
      NewMonthKey(n);
    }
  }

  // ---------------------------------------------------------------------
  // The seasonal profile

  /** `p` holds, for months 1 to n, the ratio of each month, and nothing
      else. */
  ghost predicate ProfileUpTo(p: map<string, real>, ds: seq<DatedQuantity>, n: int)
    requires 0 <= n <= 12
    requires ds != [] && OverallMean(ds) != 0.0
  {
    p.Keys == MonthKeys(n) && forall m: Month :: m <= n ==> p[MonthKey(m)] == MonthRatio(ds, m)
  }

  /** The profile the source computes from `rows`: empty when it gives up,
      otherwise one ratio per month of the year. */
  ghost predicate SeasonalProfileOf(p: map<string, real>, rows: seq<OrderItemRow>)
    requires RatiosDefined(rows)
  {
    match ProfileInput(rows)
    case None => p == map[]
    case Some(ds) => ProfileUpTo(p, ds, 12)
  }

  /** `_calculate_seasonal_patterns`. */
  method SeasonalPatterns(rows: seq<OrderItemRow>) returns (patterns: map<string, real>)
    requires RatiosDefined(rows)
    ensures SeasonalProfileOf(patterns, rows)
  {
    patterns := map[];
    if rows == [] {
      return;
    }
    if !HasOrdersColumn(rows) {
      return;
    }
    if ReadsMissingDate(rows) {
      return;
    }
    var dated := Dated(rows);
    if dated == [] {
      return;
    }
    var overall := OverallMean(dated);
    for month := 1 to 13
      invariant ProfileUpTo(patterns, dated, month - 1)
    {
      var previous := patterns;
      var monthly := MonthQuantities(dated, month);
      if |monthly| > 0 {
        patterns := patterns[MonthKey(month) := Mean(monthly) / overall];
      } else {
        patterns := patterns[MonthKey(month) := 1.0];
      }
      ExtendProfile(previous, patterns, dated, month);
    }
  }

  lemma ExtendProfile(p: map<string, real>, p': map<string, real>, ds: seq<DatedQuantity>, month: Month)
    requires ds != [] && OverallMean(ds) != 0.0
    requires ProfileUpTo(p, ds, month - 1)
    requires p' == p[MonthKey(month) := MonthRatio(ds, month)]
    ensures ProfileUpTo(p', ds, month)
  {
    forall m: Month | m < month
      ensures p'[MonthKey(m)] == MonthRatio(ds, m)
    {
      MonthKeyInjective(m, month);
    }
  }

  /** A profile that is not empty names each month of the year exactly once. */
  lemma ProfileHasTwelveMonths(p: map<string, real>, rows: seq<OrderItemRow>)
    requires RatiosDefined(rows) && SeasonalProfileOf(p, rows)
    ensures ProfileInput(rows).None? ==> p == map[]
    ensures ProfileInput(rows).Some? ==> |p| == 12 && "month_1" in p && "month_12" in p
  {
    if ProfileInput(rows).Some? {
      MonthKeysCount(12);
      assert |p.Keys| == 12;
      FirstAndLastKeys();
      assert MonthKey(1) in p.Keys && MonthKey(12) in p.Keys;
    }
  }

  lemma FirstAndLastKeys()
    ensures MonthKey(1) == "month_1" && MonthKey(12) == "month_12"
  {
    assert DigitChar(1) == '1' && DigitChar(2) == '2';
  }

  /** When every dated row has the same non-zero quantity, every month's
      factor is 1.0: there is no seasonality to see. */
  lemma FlatDemandIsFlatProfile(ds: seq<DatedQuantity>, q: real, m: Month)
    requires ds != [] && q != 0.0
    requires forall i :: 0 <= i < |ds| ==> ds[i].quantity == q
    ensures OverallMean(ds) == q
    ensures MonthRatio(ds, m) == 1.0
  {
    MeanConstant(Quantities(ds), q);
    if Observed(ds, m) {
      MonthQuantitiesFrom(ds, m, q);
      MeanConstant(MonthQuantities(ds, m), q);
      assert MonthRatio(ds, m) == q / q;
    }
  }

  lemma {:induction false} MonthQuantitiesFrom(ds: seq<DatedQuantity>, m: Month, q: real)
    requires forall i :: 0 <= i < |ds| ==> ds[i].quantity == q
    ensures forall i :: 0 <= i < |MonthQuantities(ds, m)| ==> MonthQuantities(ds, m)[i] == q
  {
    if ds != [] {
      assert forall i :: 0 <= i < |ds| - 1 ==> ds[1..][i] == ds[i + 1];
      MonthQuantitiesFrom(ds[1..], m, q);
    }
  }

  /** Total quantity of months 1 to n. */
  function MonthlyTotal(ds: seq<DatedQuantity>, n: int): real
    requires 0 <= n <= 12
  {
    if n == 0 then 0.0 else MonthlyTotal(ds, n - 1) + Sum(MonthQuantities(ds, n))
  }

  lemma {:induction false} MonthlyTotalCons(x: DatedQuantity, rest: seq<DatedQuantity>, n: int)
    requires 0 <= n <= 12
    ensures MonthlyTotal([x] + rest, n) == MonthlyTotal(rest, n) + (if x.month <= n then x.quantity else 0.0)
  {
    if n > 0 {
      MonthlyTotalCons(x, rest, n - 1);
      var ds := [x] + rest;
      assert ds[0] == x && ds[1..] == rest;
      if x.month == n {
        var rq := MonthQuantities(rest, n);
        assert MonthQuantities(ds, n) == [x.quantity] + rq;
        assert ([x.quantity] + rq)[1..] == rq;
      }
    }
  }

  /** Grouping by month loses no row: the monthly groups together hold the
      whole quantity of the dated rows. */
  lemma {:induction false} MonthsPartition(ds: seq<DatedQuantity>)
    ensures MonthlyTotal(ds, 12) == Sum(Quantities(ds))
  {
    if ds != [] {
      MonthsPartition(ds[1..]);
      assert ds == [ds[0]] + ds[1..];
      MonthlyTotalCons(ds[0], ds[1..], 12);
    } else {
      EmptyMonthlyTotal(12);
    }
  }

  lemma {:induction false} EmptyMonthlyTotal(n: int)
    requires 0 <= n <= 12
    ensures MonthlyTotal([], n) == 0.0
  {
    if n > 0 {
      EmptyMonthlyTotal(n - 1);
    }
  }

  /** With a positive overall mean, a month with the larger mean quantity has
      the larger factor. */
  lemma RatioOrder(ds: seq<DatedQuantity>, m1: Month, m2: Month)
    requires ds != [] && OverallMean(ds) > 0.0
    requires Observed(ds, m1) && Observed(ds, m2)
    ensures MonthRatio(ds, m1) <= MonthRatio(ds, m2) <==>
            Mean(MonthQuantities(ds, m1)) <= Mean(MonthQuantities(ds, m2))
  {
    DivisionMonotone(Mean(MonthQuantities(ds, m1)), Mean(MonthQuantities(ds, m2)), OverallMean(ds));
  }

  lemma DivisionMonotone(a: real, b: real, d: real)
    requires d > 0.0
    ensures a / d <= b / d <==> a <= b
  {
    var x, y := a / d, b / d;
    assert x * d == a && y * d == b;
    if x <= y {
      assert (y - x) * d >= 0.0;
    } else {
      assert (x - y) * d > 0.0;
    }
  }

  /** With seasonality switched off the profile is empty. */
  function GatedProfile(includeSeasonality: bool, computed: map<string, real>): map<string, real>
  {
    if includeSeasonality then computed else map[]
  }

  // ---------------------------------------------------------------------
  // Repair of the oracle's forecast

  /** The most fallback items the normaliser creates. */
  const MaxFallbackItems: int := 7

  /** Fallback item i: dated i days from now. */
  function FallbackItem(now: Timestamp, i: int): DemandForecastItem
  {
    DemandForecastItem("sample_product", None, now + i * SecondsPerDay, 10.0, 0.7, Some(1.0))
  }

  /** The placeholder list for an empty forecast: one item per day from
      today, for at most 7 days and never past the horizon. */
  function FallbackForecasts(forecastDays: int, now: Timestamp): (fs: seq<DemandForecastItem>)
    ensures |fs| == if forecastDays <= 0 then 0 else MinInt(forecastDays, MaxFallbackItems)
    ensures forall i :: 0 <= i < |fs| ==> fs[i].date == now + i * SecondsPerDay && WholeDays(now, fs[i].date) == i
    ensures forall i :: 0 <= i < |fs| ==> now <= fs[i].date < now + forecastDays * SecondsPerDay
    ensures forall i :: 0 <= i < |fs| ==>
      fs[i].productId == "sample_product" && fs[i].warehouseId.None? && fs[i].predictedDemand == 10.0
      && fs[i].confidenceScore == 0.7 && fs[i].seasonalFactor == Some(1.0)
  {
    var n := if forecastDays <= 0 then 0 else MinInt(forecastDays, MaxFallbackItems);
    seq(n, i requires 0 <= i < n => FallbackItem(now, i))
  }

  /** The fallback items are in strictly increasing date order, a day apart. */
  lemma FallbackDatesIncrease(forecastDays: int, now: Timestamp, i: int, j: int)
    requires 0 <= i < j < |FallbackForecasts(forecastDays, now)|
    ensures FallbackForecasts(forecastDays, now)[j].date - FallbackForecasts(forecastDays, now)[i].date
            == (j - i) * SecondsPerDay
    ensures FallbackForecasts(forecastDays, now)[i].date < FallbackForecasts(forecastDays, now)[j].date
  {
  }

  /** A month-long horizon still gets only a week of placeholders. */
  lemma FallbackLength()
    ensures |FallbackForecasts(30, 0)| == 7
    ensures |FallbackForecasts(3, 0)| == 3
    ensures FallbackForecasts(0, 0) == []
  {
  }

  const DefaultModelAccuracy: real := 0.85

  /** `_enhance_forecast_result`: an empty forecast list is replaced by the
      placeholders; the generation time and the horizon are always set; a
      zero accuracy becomes the default. */
  method EnhanceForecastResult(result: DemandForecastResponse, forecastDays: int, now: Timestamp)
    modifies result
    ensures result.forecasts ==
      if old(result.forecasts) == [] then FallbackForecasts(forecastDays, now) else old(result.forecasts)
    ensures result.generatedAt == now
    ensures result.forecastHorizonDays == forecastDays
    ensures result.modelAccuracy ==
      if old(result.modelAccuracy) == 0.0 then DefaultModelAccuracy else old(result.modelAccuracy)
  {
    if result.forecasts == [] {
      result.forecasts := FallbackForecasts(forecastDays, now);
    }
    result.generatedAt := now;
    result.forecastHorizonDays := forecastDays;
    if result.modelAccuracy == 0.0 {
      result.modelAccuracy := DefaultModelAccuracy;
    }
  }

  /** What the oracle is given; the external-factor stub is not part of it,
      since nothing reads it but the prompt. */
  datatype DemandContext = DemandContext(
    historicalData: seq<OrderItemRow>,
    seasonalPatterns: map<string, real>)

  /** `forecast_demand`: the fetched order items and the oracle's unrepaired
      answer are parameters; the result is that answer, repaired. A profile
      is only computed when seasonality is asked for. */
  method ForecastDemand(rows: seq<OrderItemRow>, forecastDays: int, includeSeasonality: bool,
                        answer: DemandForecastResponse, now: Timestamp)
    returns (result: DemandForecastResponse, context: DemandContext)
    requires includeSeasonality ==> RatiosDefined(rows)
    modifies answer
    ensures result == answer
    ensures context.historicalData == rows
    ensures !includeSeasonality ==> context.seasonalPatterns == map[]
    ensures includeSeasonality ==> SeasonalProfileOf(context.seasonalPatterns, rows)
    ensures result.forecasts ==
      if old(answer.forecasts) == [] then FallbackForecasts(forecastDays, now) else old(answer.forecasts)
    ensures result.generatedAt == now
    ensures result.forecastHorizonDays == forecastDays
    ensures result.modelAccuracy ==
      if old(answer.modelAccuracy) == 0.0 then DefaultModelAccuracy else old(answer.modelAccuracy)
  {
    var computed: map<string, real> := map[];
    if includeSeasonality {
      computed := SeasonalPatterns(rows);
    }
    context := DemandContext(rows, GatedProfile(includeSeasonality, computed));
    EnhanceForecastResult(answer, forecastDays, now);
    result := answer;
  }
}
