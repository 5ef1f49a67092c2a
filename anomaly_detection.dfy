/** The deterministic layer of the anomaly detection agent
    (ai-service/agents/anomaly_detection.py): baseline metrics over the
    fetched records, alert thresholds derived from them, a summary of the
    last 24 hours, and the repair of the oracle's detection result. */
module AnomalyDetection {
  import opened Common
  import opened Responses

  /** The `created_at` entry of a fetched row: absent from the row, null,
      or a time. */
  datatype RecordTime = NoCreatedAt | NullCreatedAt | CreatedAt(time: Timestamp)

  /** One fetched row: its `created_at` entry and its numeric columns. A
      column holding null in a row is absent from that row's `fields`. */
  datatype Record = Record(createdAt: RecordTime, fields: map<string, real>)

  // ---------------------------------------------------------------------
  // Columns of the data frame built from the records

  /** The data frame has column `name` when some record carries it. */
  predicate HasColumn(records: seq<Record>, name: string)
  {
    records != [] && (name in records[0].fields || HasColumn(records[1..], name))
  }

  /** The non-null values of column `name`, in record order. */
  function Column(records: seq<Record>, name: string): (xs: seq<real>)
    ensures |xs| <= |records|
    ensures |xs| > 0 <==> HasColumn(records, name)
  {
    if records == [] then []
    else
      var rest := Column(records[1..], name);
      (if name in records[0].fields then [records[0].fields[name]] else []) + rest
  }

  /** Some record has a non-null `created_at`. */
  predicate HasCreatedAt(records: seq<Record>)
  {
    records != [] && (records[0].createdAt.CreatedAt? || HasCreatedAt(records[1..]))
  }

  /** The data frame has a `created_at` column: some record carries the
      key, possibly with a null value. */
  predicate HasCreatedAtColumn(records: seq<Record>)
  {
    records != [] && (!records[0].createdAt.NoCreatedAt? || HasCreatedAtColumn(records[1..]))
  }

  /** A non-null `created_at` makes the column present. */
  lemma {:induction false} DatedRecordsHaveColumn(records: seq<Record>)
    requires HasCreatedAt(records)
    ensures HasCreatedAtColumn(records)
  {
    if !records[0].createdAt.CreatedAt? {
      DatedRecordsHaveColumn(records[1..]);
    }
  }

  /** The `created_at` timestamps present, in record order. */
  function Timestamps(records: seq<Record>): (ts: seq<Timestamp>)
    ensures |ts| <= |records|
    ensures |ts| > 0 <==> HasCreatedAt(records)
  {
    if records == [] then []
    else
      var rest := Timestamps(records[1..]);
      (if records[0].createdAt.CreatedAt? then [records[0].createdAt.time] else []) + rest
  }

  // ---------------------------------------------------------------------
  // Records per calendar day (`df.groupby(df['date'].dt.date).size()`)

  function Days(ts: seq<Timestamp>): (ds: seq<int>)
    ensures |ds| == |ts|
  {
    if ts == [] then [] else [DayOf(ts[0])] + Days(ts[1..])
  }

  /** The distinct elements of `ds`, in the order they first occur. */
  function Distinct(ds: seq<int>): (u: seq<int>)
    ensures forall x :: x in u <==> x in ds
    ensures forall x :: multiset(u)[x] <= 1
    ensures |ds| > 0 ==> |u| > 0
  {
    if ds == [] then []
    else
      var p := Distinct(ds[..|ds| - 1]);
      var x := ds[|ds| - 1];
      assert ds == ds[..|ds| - 1] + [x];
      if x in p then p else p + [x]
  }

  /** The number of records on each day of `keys`. */
  function CountsOn(ds: seq<int>, keys: seq<int>): (cs: seq<real>)
    ensures |cs| == |keys|
  {
    if keys == [] then [] else [multiset(ds)[keys[0]] as real] + CountsOn(ds, keys[1..])
  }

  /** The per-day record counts, one per distinct day. */
  function DailyCounts(records: seq<Record>): seq<real>
  {
    var ds := Days(Timestamps(records));
    CountsOn(ds, Distinct(ds))
  }

  /** The number of distinct calendar days the records fall on. */
  function DistinctDayCount(records: seq<Record>): nat
  {
    |Distinct(Days(Timestamps(records)))|
  }

  lemma {:induction false} CountsOnAppend(ds: seq<int>, x: int, keys: seq<int>)
    ensures Sum(CountsOn(ds + [x], keys)) == Sum(CountsOn(ds, keys)) + multiset(keys)[x] as real
  {
    if keys != [] {
      assert keys == [keys[0]] + keys[1..];
      CountsOnAppend(ds, x, keys[1..]);
    }
  }

  lemma {:induction false} CountsOnSplit(ds: seq<int>, keys: seq<int>, k: int)
    ensures CountsOn(ds, keys + [k]) == CountsOn(ds, keys) + [multiset(ds)[k] as real]
  {
    if keys != [] {
      assert (keys + [k])[1..] == keys[1..] + [k];
      CountsOnSplit(ds, keys[1..], k);
    }
  }

  /** The per-day counts add up to the number of dated records. */
  lemma {:induction false} DailyCountsSum(ds: seq<int>)
    ensures Sum(CountsOn(ds, Distinct(ds))) == |ds| as real
  {
    if ds != [] {
      var init := ds[..|ds| - 1];
      var x := ds[|ds| - 1];
      assert ds == init + [x];
      var p := Distinct(init);
      DailyCountsSum(init);
      CountsOnAppend(init, x, p);
      if x !in p {
        assert multiset(p)[x] == 0;
        CountsOnSplit(ds, p, x);
        SumAppend(CountsOn(ds, p), [multiset(ds)[x] as real]);
        Sum1([multiset(ds)[x] as real]);
        assert x !in init;
        assert multiset(init)[x] == 0;
      } else {
        assert multiset(p)[x] == 1;
      }
    }
  }

  /** The mean of the per-day counts is the number of dated records
      divided by the number of distinct days. */
  lemma DailyMeanIsRecordsPerDay(records: seq<Record>)
    requires HasCreatedAt(records)
    ensures |DailyCounts(records)| == DistinctDayCount(records) > 0
    ensures Mean(DailyCounts(records))
         == |Timestamps(records)| as real / DistinctDayCount(records) as real
  {
    var ds := Days(Timestamps(records));
    DailyCountsSum(ds);
  }

  // ---------------------------------------------------------------------
  // Baseline metrics

  /** The four keys that a numeric column contributes. */
  function ColumnKeys(avg: string, std: string, max: string, min: string): set<string>
  {
    {avg, std, max, min}
  }

  /** The keys `_calculate_inventory_baseline` produces: four for the
      quantity changes when that column is present, two for the daily
      movements when some record is dated. */
  function InventoryKeys(records: seq<Record>): set<string>
  {
    (if HasColumn(records, "quantity_change")
     then ColumnKeys("avg_quantity_change", "std_quantity_change", "max_quantity_change", "min_quantity_change")
     else {})
    + (if HasCreatedAt(records) then {"avg_daily_movements", "std_daily_movements"} else {})
  }

  /** The keys `_calculate_pricing_baseline` produces: four for the price
      column, two for the discount column, each when present. */
  function PricingKeys(records: seq<Record>): set<string>
  {
    (if HasColumn(records, "price") then ColumnKeys("avg_price", "std_price", "max_price", "min_price") else {})
    + (if HasColumn(records, "discount_percentage") then {"avg_discount", "std_discount"} else {})
  }

  /** The keys `_calculate_order_baseline` produces: four for the order
      totals when that column is present, two for the daily orders when
      some record is dated. */
  function OrderKeys(records: seq<Record>): set<string>
  {
    (if HasColumn(records, "total_amount")
     then ColumnKeys("avg_order_value", "std_order_value", "max_order_value", "min_order_value")
     else {})
    + (if HasCreatedAt(records) then {"avg_daily_orders", "std_daily_orders"} else {})
  }

  /** The keys of the baseline that `_calculate_baseline_metrics` builds for
      `dataType`: nothing for no records or an unknown data type; otherwise
      those of the helper for the data type. */
  function BaselineKeys(records: seq<Record>, dataType: string): set<string>
  {
    if records == [] then {}
    else if dataType == "inventory" then InventoryKeys(records)
    else if dataType == "pricing" then PricingKeys(records)
    else if dataType == "orders" then OrderKeys(records)
    else {}
  }

  /** `metrics` holds mean, deviation, maximum and minimum of column `xs`
      under the four given keys, in the order min <= avg <= max. */
  ghost predicate ColumnStats(metrics: map<string, real>, xs: seq<real>, stdev: seq<real> -> real,
                              avg: string, std: string, max: string, min: string)
  {
    && |xs| > 0
    && avg in metrics && std in metrics && max in metrics && min in metrics
    && metrics[avg] == Mean(xs) && metrics[std] == stdev(xs)
    && metrics[max] == Max(xs) && metrics[min] == Min(xs)
    && metrics[min] <= metrics[avg] <= metrics[max]
  }

  /** `metrics` holds the mean number of records per day (records divided
      by distinct days) and the deviation of the per-day counts. */
  ghost predicate DailyStats(metrics: map<string, real>, records: seq<Record>, stdev: seq<real> -> real,
                             avg: string, std: string)
  {
    && HasCreatedAt(records)
    && avg in metrics && std in metrics
    && DistinctDayCount(records) > 0
    && metrics[avg] == |Timestamps(records)| as real / DistinctDayCount(records) as real
    && metrics[avg] == Mean(DailyCounts(records))
    && metrics[std] == stdev(DailyCounts(records))
  }

  /** The four entries of a present column meet `ColumnStats`, and they
      are the column's four keys. */
  lemma AddColumnStats(xs: seq<real>, stdev: seq<real> -> real,
                       avg: string, std: string, max: string, min: string)
    requires |xs| > 0
    requires avg != std && avg != max && avg != min && std != max && std != min && max != min
    ensures var m := map[avg := Mean(xs)][std := stdev(xs)][max := Max(xs)][min := Min(xs)];
      m.Keys == ColumnKeys(avg, std, max, min) && ColumnStats(m, xs, stdev, avg, std, max, min)
  {
    MinMeanMax(xs);
    ColumnEntries(Mean(xs), stdev(xs), Max(xs), Min(xs), avg, std, max, min);
  }

  /** Four entries under four different keys. */
  lemma ColumnEntries(va: real, vs: real, vx: real, vn: real,
                      avg: string, std: string, max: string, min: string)
    requires avg != std && avg != max && avg != min && std != max && std != min && max != min
    ensures var m := map[avg := va][std := vs][max := vx][min := vn];
      && m.Keys == ColumnKeys(avg, std, max, min)
      && m[avg] == va && m[std] == vs && m[max] == vx && m[min] == vn
  {
  }

  /** Two entries added to the entries of one optional part give the keys
      of both optional parts. */
  lemma SecondPartKeys(m: map<string, real>, hasFirst: bool, first: set<string>,
                       a: string, va: real, b: string, vb: real)
    requires m.Keys == if hasFirst then first else {}
    ensures m[a := va][b := vb].Keys == (if hasFirst then first else {}) + {a, b}
  {
  }

  /** Without the second part the keys are those of the first. */
  lemma NoSecondPart(m: map<string, real>, hasFirst: bool, first: set<string>)
    requires m.Keys == if hasFirst then first else {}
    ensures m.Keys == (if hasFirst then first else {}) + {}
  {
  }

  /** Two entries under other keys leave a column's statistics in place. */
  lemma KeepColumnStats(m: map<string, real>, xs: seq<real>, stdev: seq<real> -> real,
                        avg: string, std: string, max: string, min: string,
                        k1: string, v1: real, k2: string, v2: real)
    requires ColumnStats(m, xs, stdev, avg, std, max, min)
    requires k1 !in {avg, std, max, min} && k2 !in {avg, std, max, min}
    ensures ColumnStats(m[k1 := v1][k2 := v2], xs, stdev, avg, std, max, min)
  {
  }

  /** The two entries of the daily counts meet `DailyStats`. */
  lemma AddDailyStats(m: map<string, real>, records: seq<Record>, stdev: seq<real> -> real,
                      avg: string, std: string)
    requires HasCreatedAt(records) && avg != std
    ensures DailyStats(m[avg := Mean(DailyCounts(records))][std := stdev(DailyCounts(records))],
                       records, stdev, avg, std)
  {
    DailyMeanIsRecordsPerDay(records);
  }

  /** What `_calculate_inventory_baseline` returns: the inventory keys,
      the statistics of `quantity_change` and those of the daily movements. */
  ghost predicate InventoryBaselineOf(metrics: map<string, real>, records: seq<Record>, stdev: seq<real> -> real)
  {
    && metrics.Keys == InventoryKeys(records)
    && (HasColumn(records, "quantity_change") ==>
          ColumnStats(metrics, Column(records, "quantity_change"), stdev,
                      "avg_quantity_change", "std_quantity_change", "max_quantity_change", "min_quantity_change"))
    && (HasCreatedAt(records) ==> DailyStats(metrics, records, stdev, "avg_daily_movements", "std_daily_movements"))
  }

  /** What `_calculate_pricing_baseline` returns: the pricing keys, the
      statistics of the price and the mean and deviation of the discount. */
  ghost predicate PricingBaselineOf(metrics: map<string, real>, records: seq<Record>, stdev: seq<real> -> real)
  {
    && metrics.Keys == PricingKeys(records)
    && (HasColumn(records, "price") ==>
          ColumnStats(metrics, Column(records, "price"), stdev, "avg_price", "std_price", "max_price", "min_price"))
    && (HasColumn(records, "discount_percentage") ==>
          var xs := Column(records, "discount_percentage");
          && |xs| > 0
          && "avg_discount" in metrics && metrics["avg_discount"] == Mean(xs)
          && "std_discount" in metrics && metrics["std_discount"] == stdev(xs))
  }

  /** What `_calculate_order_baseline` returns: the order keys, the
      statistics of `total_amount` and those of the daily orders. */
  ghost predicate OrderBaselineOf(metrics: map<string, real>, records: seq<Record>, stdev: seq<real> -> real)
  {
    && metrics.Keys == OrderKeys(records)
    && (HasColumn(records, "total_amount") ==>
          ColumnStats(metrics, Column(records, "total_amount"), stdev,
                      "avg_order_value", "std_order_value", "max_order_value", "min_order_value"))
    && (HasCreatedAt(records) ==> DailyStats(metrics, records, stdev, "avg_daily_orders", "std_daily_orders"))
  }

  /** What `_calculate_baseline_metrics` returns: nothing for no records or
      an unknown data type, otherwise the baseline of the data type. */
  ghost predicate BaselineOf(metrics: map<string, real>, records: seq<Record>, dataType: string,
                             stdev: seq<real> -> real)
  {
    if records == [] then metrics == map[]
    else if dataType == "inventory" then InventoryBaselineOf(metrics, records, stdev)
    else if dataType == "pricing" then PricingBaselineOf(metrics, records, stdev)
    else if dataType == "orders" then OrderBaselineOf(metrics, records, stdev)
    else metrics == map[]
  }

  /** Two maps with the same keys that agree on every key are the same map. */
  lemma MapsAgree(m1: map<string, real>, m2: map<string, real>)
    requires m1.Keys == m2.Keys
    requires forall k :: k in m1 ==> m1[k] == m2[k]
    ensures m1 == m2
  {
  }

  /** The inventory baseline is determined by the records and the deviation. */
  lemma InventoryBaselineUnique(m1: map<string, real>, m2: map<string, real>, records: seq<Record>,
                                stdev: seq<real> -> real)
    requires InventoryBaselineOf(m1, records, stdev) && InventoryBaselineOf(m2, records, stdev)
    ensures m1 == m2
  {
    forall k | k in m1 ensures m1[k] == m2[k] {
      if !(HasColumn(records, "quantity_change")
           && k in ColumnKeys("avg_quantity_change", "std_quantity_change", "max_quantity_change", "min_quantity_change")) {
        assert HasCreatedAt(records);
      }
    }
    MapsAgree(m1, m2);
  }

  /** The pricing baseline is determined by the records and the deviation. */
  lemma PricingBaselineUnique(m1: map<string, real>, m2: map<string, real>, records: seq<Record>,
                              stdev: seq<real> -> real)
    requires PricingBaselineOf(m1, records, stdev) && PricingBaselineOf(m2, records, stdev)
    ensures m1 == m2
  {
    forall k | k in m1 ensures m1[k] == m2[k] {
      if !(HasColumn(records, "price") && k in ColumnKeys("avg_price", "std_price", "max_price", "min_price")) {
        assert HasColumn(records, "discount_percentage");
      }
    }
    MapsAgree(m1, m2);
  }

  /** The order baseline is determined by the records and the deviation. */
  lemma OrderBaselineUnique(m1: map<string, real>, m2: map<string, real>, records: seq<Record>,
                            stdev: seq<real> -> real)
    requires OrderBaselineOf(m1, records, stdev) && OrderBaselineOf(m2, records, stdev)
    ensures m1 == m2
  {
    forall k | k in m1 ensures m1[k] == m2[k] {
      if !(HasColumn(records, "total_amount")
           && k in ColumnKeys("avg_order_value", "std_order_value", "max_order_value", "min_order_value")) {
        assert HasCreatedAt(records);
      }
    }
    MapsAgree(m1, m2);
  }

  /** The baseline of a data type is determined by the records and the
      deviation: two maps that both meet `BaselineOf` are equal. */
  lemma BaselineUnique(m1: map<string, real>, m2: map<string, real>, records: seq<Record>,
                       dataType: string, stdev: seq<real> -> real)
    requires BaselineOf(m1, records, dataType, stdev) && BaselineOf(m2, records, dataType, stdev)
    ensures m1 == m2
  {
    if records == [] {
    } else if dataType == "inventory" {
      InventoryBaselineUnique(m1, m2, records, stdev);
    } else if dataType == "pricing" {
      PricingBaselineUnique(m1, m2, records, stdev);
    } else if dataType == "orders" {
      OrderBaselineUnique(m1, m2, records, stdev);
    }
  }

  method InventoryBaseline(records: seq<Record>, stdev: seq<real> -> real) returns (metrics: map<string, real>)
    ensures InventoryBaselineOf(metrics, records, stdev)
  {
    if records == [] {
      return map[];
    }
    metrics := map[];
    var quantity := Column(records, "quantity_change");
    if |quantity| > 0 {
      metrics := metrics["avg_quantity_change" := Mean(quantity)];
      metrics := metrics["std_quantity_change" := stdev(quantity)];
      metrics := metrics["max_quantity_change" := Max(quantity)];
      metrics := metrics["min_quantity_change" := Min(quantity)];
      AddColumnStats(quantity, stdev, "avg_quantity_change", "std_quantity_change", "max_quantity_change", "min_quantity_change");
    }
    ghost var columnPart := metrics;
    assert columnPart.Keys == if HasColumn(records, "quantity_change")
       then ColumnKeys("avg_quantity_change", "std_quantity_change", "max_quantity_change", "min_quantity_change")
       else {};
    if |Timestamps(records)| > 0 {
      var daily := DailyCounts(records);
      metrics := metrics["avg_daily_movements" := Mean(daily)];
      metrics := metrics["std_daily_movements" := stdev(daily)];
      AddDailyStats(columnPart, records, stdev, "avg_daily_movements", "std_daily_movements");
      SecondPartKeys(columnPart, HasColumn(records, "quantity_change"), ColumnKeys("avg_quantity_change", "std_quantity_change", "max_quantity_change", "min_quantity_change"),
                     "avg_daily_movements", Mean(daily), "std_daily_movements", stdev(daily));
      if |quantity| > 0 {
        KeepColumnStats(columnPart, quantity, stdev, "avg_quantity_change", "std_quantity_change", "max_quantity_change", "min_quantity_change",
                        "avg_daily_movements", Mean(daily), "std_daily_movements", stdev(daily));
      }
    } else {
      NoSecondPart(columnPart, HasColumn(records, "quantity_change"), ColumnKeys("avg_quantity_change", "std_quantity_change", "max_quantity_change", "min_quantity_change"));
    }
  }

  method PricingBaseline(records: seq<Record>, stdev: seq<real> -> real) returns (metrics: map<string, real>)
    ensures PricingBaselineOf(metrics, records, stdev)
  {
    if records == [] {
      return map[];
    }
    metrics := map[];
    var price := Column(records, "price");
    if |price| > 0 {
      metrics := metrics["avg_price" := Mean(price)];
      metrics := metrics["std_price" := stdev(price)];
      metrics := metrics["max_price" := Max(price)];
      metrics := metrics["min_price" := Min(price)];
      AddColumnStats(price, stdev, "avg_price", "std_price", "max_price", "min_price");
    }
    ghost var columnPart := metrics;
    assert columnPart.Keys == if HasColumn(records, "price")
       then ColumnKeys("avg_price", "std_price", "max_price", "min_price") else {};
    var discount := Column(records, "discount_percentage");
    if |discount| > 0 {
      metrics := metrics["avg_discount" := Mean(discount)];
      metrics := metrics["std_discount" := stdev(discount)];
      SecondPartKeys(columnPart, HasColumn(records, "price"), ColumnKeys("avg_price", "std_price", "max_price", "min_price"),
                     "avg_discount", Mean(discount), "std_discount", stdev(discount));
      if |price| > 0 {
        KeepColumnStats(columnPart, price, stdev, "avg_price", "std_price", "max_price", "min_price",
                        "avg_discount", Mean(discount), "std_discount", stdev(discount));
      }
    } else {
      NoSecondPart(columnPart, HasColumn(records, "price"), ColumnKeys("avg_price", "std_price", "max_price", "min_price"));
    }
  }

  method OrderBaseline(records: seq<Record>, stdev: seq<real> -> real) returns (metrics: map<string, real>)
    ensures OrderBaselineOf(metrics, records, stdev)
  {
    if records == [] {
      return map[];
    }
    metrics := map[];
    var amount := Column(records, "total_amount");
    if |amount| > 0 {
      metrics := metrics["avg_order_value" := Mean(amount)];
      metrics := metrics["std_order_value" := stdev(amount)];
      metrics := metrics["max_order_value" := Max(amount)];
      metrics := metrics["min_order_value" := Min(amount)];
      AddColumnStats(amount, stdev, "avg_order_value", "std_order_value", "max_order_value", "min_order_value");
    }
    ghost var columnPart := metrics;
    assert columnPart.Keys == if HasColumn(records, "total_amount")
       then ColumnKeys("avg_order_value", "std_order_value", "max_order_value", "min_order_value")
       else {};
    if |Timestamps(records)| > 0 {
      var daily := DailyCounts(records);
      metrics := metrics["avg_daily_orders" := Mean(daily)];
      metrics := metrics["std_daily_orders" := stdev(daily)];
      AddDailyStats(columnPart, records, stdev, "avg_daily_orders", "std_daily_orders");
      SecondPartKeys(columnPart, HasColumn(records, "total_amount"), ColumnKeys("avg_order_value", "std_order_value", "max_order_value", "min_order_value"),
                     "avg_daily_orders", Mean(daily), "std_daily_orders", stdev(daily));
      if |amount| > 0 {
        KeepColumnStats(columnPart, amount, stdev, "avg_order_value", "std_order_value", "max_order_value", "min_order_value",
                        "avg_daily_orders", Mean(daily), "std_daily_orders", stdev(daily));
      }
    } else {
      NoSecondPart(columnPart, HasColumn(records, "total_amount"), ColumnKeys("avg_order_value", "std_order_value", "max_order_value", "min_order_value"));
    }
  }

  /** `_calculate_baseline_metrics`: no records or an unknown data type give
      an empty baseline; otherwise the helper for the data type decides. */
  method BaselineMetrics(records: seq<Record>, dataType: string, stdev: seq<real> -> real)
    returns (metrics: map<string, real>)
    ensures metrics.Keys == BaselineKeys(records, dataType)
    ensures BaselineOf(metrics, records, dataType, stdev)
  {
    if records == [] {
      return map[];
    }
    if dataType == "inventory" {
      metrics := InventoryBaseline(records, stdev);
    } else if dataType == "pricing" {
      metrics := PricingBaseline(records, stdev);
    } else if dataType == "orders" {
      metrics := OrderBaseline(records, stdev);
    } else {
      metrics := map[];
    }
  }

  // ---------------------------------------------------------------------
  // Alert thresholds

  /** `2.0 - sensitivity`: a higher sensitivity gives a smaller factor and
      so tighter bounds. */
  function SensitivityFactor(sensitivity: real): (f: real)
    ensures 0.0 <= sensitivity <= 1.0 ==> 1.0 <= f <= 2.0
  {
    2.0 - sensitivity
  }

  /** A metric name containing "std" is a deviation metric. */
  predicate IsStdMetric(metric: string)
  {
    HasInfix(metric, "std")
  }

  /** The key the source consults for the deviation that belongs to a
      metric: the name with every "avg" replaced by "std". For a name
      without "avg" (`max_price`, `min_order_value`) that is the name itself. */
  function StdKeyOf(metric: string): string
  {
    Replace(metric, "avg", "std")
  }

  /** A non-deviation metric gets an upper and a lower bound exactly when
      its deviation key is a baseline key. */
  predicate HasBounds(baseline: map<string, real>, metric: string)
  {
    metric in baseline && !IsStdMetric(metric) && StdKeyOf(metric) in baseline
  }

  /** Which of the three derived entries a threshold key is. */
  datatype KeyKind = Threshold | Upper | Lower

  /** A key of the threshold dictionary, held as the metric it is derived
      from and its kind; `KeyText` spells it as the source does. */
  datatype ThresholdKey = ThresholdKey(metric: string, kind: KeyKind)

  /** The suffixes the source appends: `_threshold`, `_upper`, `_lower`. */
  function Suffix(kind: KeyKind): string
  {
    match kind
    case Threshold => "_threshold"
    case Upper => "_upper"
    case Lower => "_lower"
  }

  /** A key read back from its text by its suffix. Only its value on
      spelt keys matters. */
  function KeyOf(text: string): ThresholdKey
  {
    if |text| >= 10 && text[|text| - 1] == 'd' then ThresholdKey(text[..|text| - 10], Threshold)
    else if |text| >= 6 && text[|text| - 5] == 'u' then ThresholdKey(text[..|text| - 6], Upper)
    else if |text| >= 6 && text[|text| - 5] == 'l' then ThresholdKey(text[..|text| - 6], Lower)
    else ThresholdKey(text, Threshold)
  }

  /** `f"{metric}_threshold"`, `f"{metric}_upper"`, `f"{metric}_lower"`.
      The text reads back to its key, so distinct metrics or distinct kinds
      never give the same text. */
  function KeyText(key: ThresholdKey): (text: string)
    ensures KeyOf(text) == key
  {
    var text := key.metric + Suffix(key.kind);
    match key.kind
    case Threshold =>
      assert text[|text| - 1] == 'd' && text[..|text| - 10] == key.metric;
      text
    case Upper =>
      assert text[|text| - 1] == 'r' && text[|text| - 5] == 'u' && text[..|text| - 6] == key.metric;
      text
    case Lower =>
      assert text[|text| - 1] == 'r' && text[|text| - 5] == 'l' && text[..|text| - 6] == key.metric;
      text
  }

  /** The dictionary the source builds: every key spelt out, and nothing
      else. */
  function Rendered(t: map<ThresholdKey, real>): (r: map<string, real>)
    ensures forall key :: key in t ==> KeyText(key) in r && r[KeyText(key)] == t[key]
    ensures forall text :: text in r ==> KeyOf(text) in t && KeyText(KeyOf(text)) == text
  {
    map text | text in (set key | key in t :: KeyText(key)) :: t[KeyOf(text)]
  }

  /** Every baseline value times the sensitivity factor. The products are
      gathered in one map so that the statements about thresholds below
      only look values up. */
  function Scaled(baseline: map<string, real>, f: real): (scaled: map<string, real>)
    ensures scaled.Keys == baseline.Keys
    ensures forall m :: m in baseline ==> scaled[m] == baseline[m] * f
  {
    map m | m in baseline :: baseline[m] * f
  }

  /** The pass produces `key` once it has visited `key.metric`: a
      `_threshold` entry for a deviation metric, `_upper` and `_lower` for
      a metric with bounds. */
  predicate Produces(baseline: map<string, real>, done: set<string>, key: ThresholdKey)
  {
    key.metric in done &&
    match key.kind
    case Threshold => IsStdMetric(key.metric)
    case _ => HasBounds(baseline, key.metric)
  }

  /** The value under `key`: the scaled deviation for a `_threshold`
      entry, the metric's value plus or minus the scaled value under its
      deviation key for a bound. */
  function Expected(baseline: map<string, real>, scaled: map<string, real>, key: ThresholdKey): real
    requires key.metric in baseline && baseline.Keys <= scaled.Keys
    requires key.kind != Threshold ==> StdKeyOf(key.metric) in baseline
  {
    match key.kind
    case Threshold => scaled[key.metric]
    case Upper => baseline[key.metric] + scaled[StdKeyOf(key.metric)]
    case Lower => baseline[key.metric] - scaled[StdKeyOf(key.metric)]
  }

  /** `t` is what `_calculate_alert_thresholds` has built after visiting the
      metrics in `done`, where `scaled` holds each baseline value times the
      sensitivity factor: its keys are exactly those the visited metrics
      produce, each with its expected value. */
  ghost predicate ThresholdsFor(t: map<ThresholdKey, real>, baseline: map<string, real>, done: set<string>,
                                scaled: map<string, real>)
  {
    && done <= baseline.Keys && baseline.Keys <= scaled.Keys
    && (forall key :: key in t <==> Produces(baseline, done, key))
    && (forall key :: key in t ==> t[key] == Expected(baseline, scaled, key))
  }

  /** The thresholds for a baseline and a sensitivity. */
  ghost predicate AlertThresholdsOf(t: map<ThresholdKey, real>, baseline: map<string, real>, sensitivity: real)
  {
    ThresholdsFor(t, baseline, baseline.Keys, Scaled(baseline, SensitivityFactor(sensitivity)))
  }

  /** Scaling a non-negative value by a larger factor never gives less. */
  lemma ScaleMonotone(d: real, f: real, g: real)
    requires d >= 0.0 && f <= g
    ensures d * f <= d * g
  {
    assert d * g - d * f == d * (g - f);
  }

  lemma ScaledEntry(baseline: map<string, real>, factor: real, key: string, value: real)
    requires key in baseline && value == baseline[key]
    ensures value * factor == Scaled(baseline, factor)[key]
  {
  }

  /** The predicate determines the thresholds: two maps that both satisfy
      it for the whole baseline are the same map. */
  lemma ThresholdsUnique(t1: map<ThresholdKey, real>, t2: map<ThresholdKey, real>,
                         baseline: map<string, real>, sensitivity: real)
    requires AlertThresholdsOf(t1, baseline, sensitivity)
    requires AlertThresholdsOf(t2, baseline, sensitivity)
    ensures t1 == t2
  {
    assert t1.Keys == t2.Keys;
  }

  /** A deviation metric gets a `<metric>_threshold` entry, its value times
      the factor, and no upper or lower entry. */
  lemma StdMetricThreshold(t: map<ThresholdKey, real>, baseline: map<string, real>, sensitivity: real, m: string)
    requires AlertThresholdsOf(t, baseline, sensitivity)
    requires m in baseline && IsStdMetric(m)
    ensures ThresholdKey(m, Threshold) in t
    ensures t[ThresholdKey(m, Threshold)] == baseline[m] * (2.0 - sensitivity)
    ensures ThresholdKey(m, Upper) !in t && ThresholdKey(m, Lower) !in t
  {
    ScaledEntry(baseline, SensitivityFactor(sensitivity), m, baseline[m]);
  }

  /** Any other metric of the baseline gets no `_threshold` entry, and gets
      an upper and a lower entry exactly when its deviation key is a
      baseline key. */
  lemma MetricBoundKeys(t: map<ThresholdKey, real>, baseline: map<string, real>, sensitivity: real, m: string)
    requires AlertThresholdsOf(t, baseline, sensitivity)
    requires m in baseline && !IsStdMetric(m)
    ensures ThresholdKey(m, Threshold) !in t
    ensures ThresholdKey(m, Upper) in t <==> StdKeyOf(m) in baseline
    ensures ThresholdKey(m, Lower) in t <==> StdKeyOf(m) in baseline
  {
    assert Produces(baseline, baseline.Keys, ThresholdKey(m, Upper)) <==> StdKeyOf(m) in baseline;
  }

  /** The bounds of a metric are its value plus and minus the value under
      its deviation key times the factor; with a non-negative deviation and
      a sensitivity inside [0, 1] they bracket the metric's own value. */
  lemma MetricBounds(t: map<ThresholdKey, real>, baseline: map<string, real>, sensitivity: real, m: string)
    requires AlertThresholdsOf(t, baseline, sensitivity)
    requires HasBounds(baseline, m)
    ensures ThresholdKey(m, Upper) in t && ThresholdKey(m, Lower) in t
    ensures t[ThresholdKey(m, Upper)] == baseline[m] + baseline[StdKeyOf(m)] * (2.0 - sensitivity)
    ensures t[ThresholdKey(m, Lower)] == baseline[m] - baseline[StdKeyOf(m)] * (2.0 - sensitivity)
    ensures baseline[StdKeyOf(m)] >= 0.0 && sensitivity <= 1.0 ==>
      t[ThresholdKey(m, Lower)] <= baseline[m] <= t[ThresholdKey(m, Upper)]
  {
    var f := SensitivityFactor(sensitivity);
    assert Produces(baseline, baseline.Keys, ThresholdKey(m, Upper));
    assert Produces(baseline, baseline.Keys, ThresholdKey(m, Lower));
    ScaledEntry(baseline, f, StdKeyOf(m), baseline[StdKeyOf(m)]);
    if baseline[StdKeyOf(m)] >= 0.0 && sensitivity <= 1.0 {
      ScaleMonotone(baseline[StdKeyOf(m)], 0.0, f);
    }
  }

  /** With the same baseline over sensitivities, the keys are the same;
      with non-negative deviations a higher sensitivity gives bounds that
      are no wider and `_threshold` values that are no larger. */
  lemma HigherSensitivityIsTighter(t1: map<ThresholdKey, real>, t2: map<ThresholdKey, real>,
                                   baseline: map<string, real>, s1: real, s2: real)
    requires s1 <= s2
    requires AlertThresholdsOf(t1, baseline, s1)
    requires AlertThresholdsOf(t2, baseline, s2)
    requires forall m :: m in baseline && IsStdMetric(m) ==> baseline[m] >= 0.0
    requires forall m :: HasBounds(baseline, m) ==> baseline[StdKeyOf(m)] >= 0.0
    ensures t1.Keys == t2.Keys
    ensures forall key :: key in t1 && key.kind != Lower ==> t2[key] <= t1[key]
    ensures forall key :: key in t1 && key.kind == Lower ==> t1[key] <= t2[key]
  {
    var f1, f2 := SensitivityFactor(s1), SensitivityFactor(s2);
    forall key | key in t1
      ensures key in t2
      ensures key.kind != Lower ==> t2[key] <= t1[key]
      ensures key.kind == Lower ==> t1[key] <= t2[key]
    {
      var m := key.metric;
      var d := if key.kind == Threshold then m else StdKeyOf(m);
      ScaledOrder(baseline, f2, f1, d);
    }
  }

  /** A larger factor scales a non-negative value to no less. */
  lemma ScaledOrder(baseline: map<string, real>, f: real, g: real, key: string)
    requires key in baseline && baseline[key] >= 0.0 && f <= g
    ensures Scaled(baseline, f)[key] <= Scaled(baseline, g)[key]
  {
    ScaleMonotone(baseline[key], f, g);
  }

  // One step of the pass below, for each of its three branches.

  lemma StdStep(t: map<ThresholdKey, real>, t': map<ThresholdKey, real>, baseline: map<string, real>,
                done: set<string>, done': set<string>, scaled: map<string, real>, metric: string)
    requires ThresholdsFor(t, baseline, done, scaled)
    requires metric in baseline && metric !in done && IsStdMetric(metric)
    requires t' == t[ThresholdKey(metric, Threshold) := scaled[metric]] && done' == done + {metric}
    ensures ThresholdsFor(t', baseline, done', scaled)
  {
  }

  lemma BoundedStep(t: map<ThresholdKey, real>, t': map<ThresholdKey, real>, baseline: map<string, real>,
                    done: set<string>, done': set<string>, scaled: map<string, real>, metric: string)
    requires ThresholdsFor(t, baseline, done, scaled)
    requires metric in baseline && metric !in done && HasBounds(baseline, metric)
    requires t' == t[ThresholdKey(metric, Upper) := baseline[metric] + scaled[StdKeyOf(metric)]]
                    [ThresholdKey(metric, Lower) := baseline[metric] - scaled[StdKeyOf(metric)]]
    requires done' == done + {metric}
    ensures ThresholdsFor(t', baseline, done', scaled)
  {
  }

  lemma VisitStdMetric(t: map<ThresholdKey, real>, t': map<ThresholdKey, real>, baseline: map<string, real>,
                       done: set<string>, done': set<string>, factor: real, metric: string, value: real)
    requires ThresholdsFor(t, baseline, done, Scaled(baseline, factor))
    requires metric in baseline && metric !in done && IsStdMetric(metric) && value == baseline[metric]
    requires t' == t[ThresholdKey(metric, Threshold) := value * factor] && done' == done + {metric}
    ensures ThresholdsFor(t', baseline, done', Scaled(baseline, factor))
  {
    ScaledEntry(baseline, factor, metric, value);
    StdStep(t, t', baseline, done, done', Scaled(baseline, factor), metric);
  }

  lemma VisitBoundedMetric(t: map<ThresholdKey, real>, t': map<ThresholdKey, real>, baseline: map<string, real>,
                           done: set<string>, done': set<string>, factor: real, metric: string,
                           value: real, stdValue: real)
    requires ThresholdsFor(t, baseline, done, Scaled(baseline, factor))
    requires metric in baseline && metric !in done && HasBounds(baseline, metric)
    requires value == baseline[metric] && stdValue == baseline[StdKeyOf(metric)]
    requires t' == t[ThresholdKey(metric, Upper) := value + stdValue * factor]
                    [ThresholdKey(metric, Lower) := value - stdValue * factor]
    requires done' == done + {metric}
    ensures ThresholdsFor(t', baseline, done', Scaled(baseline, factor))
  {
    ScaledEntry(baseline, factor, StdKeyOf(metric), stdValue);
    BoundedStep(t, t', baseline, done, done', Scaled(baseline, factor), metric);
  }

  lemma VisitUnboundedMetric(t: map<ThresholdKey, real>, baseline: map<string, real>,
                             done: set<string>, done': set<string>, scaled: map<string, real>, metric: string)
    requires ThresholdsFor(t, baseline, done, scaled)
    requires metric in baseline && metric !in done && !IsStdMetric(metric) && !HasBounds(baseline, metric)
    requires done' == done + {metric}
    ensures ThresholdsFor(t, baseline, done', scaled)
  {
  }

  /** Moving one element from `remaining` to `done` keeps the two a
      partition of `all`. */
  lemma MoveOne<T>(remaining: set<T>, done: set<T>, all: set<T>, x: T)
    requires remaining + done == all && remaining !! done && x in remaining
    ensures (remaining - {x}) + (done + {x}) == all && (remaining - {x}) !! (done + {x})
  {
  }

  /** `_calculate_alert_thresholds`: one pass over the baseline's metrics. */
  method AlertThresholds(baseline: map<string, real>, sensitivity: real) returns (thresholds: map<ThresholdKey, real>)
    ensures AlertThresholdsOf(thresholds, baseline, sensitivity)
  {
    thresholds := map[];
    var factor := SensitivityFactor(sensitivity);
    var remaining := baseline.Keys;
    ghost var done: set<string> := {};
    while remaining != {}
      invariant remaining + done == baseline.Keys && remaining !! done
      invariant ThresholdsFor(thresholds, baseline, done, Scaled(baseline, factor))
      decreases |remaining|
    {
      var metric :| metric in remaining;
      var value := baseline[metric];
      ghost var before, doneBefore := thresholds, done;
      MoveOne(remaining, done, baseline.Keys, metric);
      remaining := remaining - {metric};
      done := done + {metric};
      if IsStdMetric(metric) {
        thresholds := thresholds[ThresholdKey(metric, Threshold) := value * factor];
        VisitStdMetric(before, thresholds, baseline, doneBefore, done, factor, metric, value);
      } else {
        var stdKey := StdKeyOf(metric);
        if stdKey in baseline {
          var stdValue := baseline[stdKey];
          thresholds := thresholds[ThresholdKey(metric, Upper) := value + stdValue * factor];
          thresholds := thresholds[ThresholdKey(metric, Lower) := value - stdValue * factor];
          VisitBoundedMetric(before, thresholds, baseline, doneBefore, done, factor, metric, value, stdValue);
        } else {
          VisitUnboundedMetric(thresholds, baseline, doneBefore, done, Scaled(baseline, factor), metric);
        }
      }
    }
  }

  // ---------------------------------------------------------------------
  // Recent patterns (the last 24 hours)

  /** The `created_at` values at or after `cutoff`, in record order. */
  function Recent(ts: seq<Timestamp>, cutoff: Timestamp): (r: seq<Timestamp>)
    ensures |r| <= |ts|
    ensures forall t :: t >= cutoff ==> multiset(r)[t] == multiset(ts)[t]
    ensures forall t :: t < cutoff ==> multiset(r)[t] == 0
  {
    if ts == [] then []
    else
      assert ts == [ts[0]] + ts[1..];
      (if ts[0] >= cutoff then [ts[0]] else []) + Recent(ts[1..], cutoff)
  }

  /** The cutoff of "recent": 24 hours before `now`. */
  function RecentCutoff(now: Timestamp): Timestamp
  {
    now - 24 * SecondsPerHour
  }

  function RecentTimestamps(records: seq<Record>, now: Timestamp): seq<Timestamp>
  {
    Recent(Timestamps(records), RecentCutoff(now))
  }

  /** The recent records are those of the last 24 hours: each timestamp at
      most 24 hours before `now` is kept as often as it occurs, and every
      older one is dropped. */
  lemma RecentWindow(records: seq<Record>, now: Timestamp)
    ensures forall t :: multiset(RecentTimestamps(records, now))[t]
                        == if now - t <= 24 * SecondsPerHour then multiset(Timestamps(records))[t] else 0
  {
  }

  /** When every dated record is recent, all of them are kept. */
  lemma {:induction false} AllRecent(ts: seq<Timestamp>, cutoff: Timestamp)
    requires forall i :: 0 <= i < |ts| ==> ts[i] >= cutoff
    ensures Recent(ts, cutoff) == ts
  {
    if ts != [] {
      var rest := ts[1..];
      assert forall i :: 0 <= i < |rest| ==> rest[i] == ts[i + 1];
      AllRecent(rest, cutoff);
      assert Recent(ts, cutoff) == [ts[0]] + Recent(rest, cutoff);
      assert ts == [ts[0]] + rest;
    }
  }

  /** Number of timestamps falling in hour `h` of their day
      (`groupby('hour').size()` at `h`). */
  function HourCount(ts: seq<Timestamp>, h: int): (n: nat)
    ensures n <= |ts|
  {
    if ts == [] then 0 else (if HourOf(ts[0]) == h then 1 else 0) + HourCount(ts[1..], h)
  }

  /** Total of the hourly counts over the hours below `n`. */
  function CountBelow(ts: seq<Timestamp>, n: nat): nat
  {
    if n == 0 then 0 else CountBelow(ts, n - 1) + HourCount(ts, n - 1)
  }

  lemma {:induction false} OneHourBelow(t: Timestamp, n: nat)
    ensures CountBelow([t], n) == if HourOf(t) < n then 1 else 0
  {
    if n > 0 {
      OneHourBelow(t, n - 1);
      assert [t][1..] == [];
    }
  }

  lemma {:induction false} CountBelowSplit(t: Timestamp, rest: seq<Timestamp>, n: nat)
    ensures CountBelow([t] + rest, n) == CountBelow([t], n) + CountBelow(rest, n)
  {
    if n > 0 {
      CountBelowSplit(t, rest, n - 1);
      assert ([t] + rest)[1..] == rest;
      assert [t][1..] == [];
    }
  }

  lemma {:induction false} NoCountsBelow(ts: seq<Timestamp>, n: nat)
    requires ts == []
    ensures CountBelow(ts, n) == 0
  {
    if n > 0 {
      NoCountsBelow(ts, n - 1);
    }
  }

  /** Every timestamp falls in exactly one of the 24 hours: the hourly
      counts add up to the number of recent records. */
  lemma {:induction false} HourCountsCover(ts: seq<Timestamp>)
    ensures CountBelow(ts, 24) == |ts|
  {
    if ts != [] {
      var t, rest := ts[0], ts[1..];
      assert ts == [t] + rest;
      CountBelowSplit(t, rest, 24);
      OneHourBelow(t, 24);
      assert HourOf(t) < 24;
      HourCountsCover(rest);
    } else {
      NoCountsBelow(ts, 24);
    }
  }

  /** Some hour below `n` has a positive count when the counts below `n`
      add up to something positive. */
  lemma {:induction false} SomeHourPositive(ts: seq<Timestamp>, n: nat)
    requires CountBelow(ts, n) > 0
    ensures exists g :: 0 <= g < n && HourCount(ts, g) > 0
  {
    if HourCount(ts, n - 1) == 0 {
      SomeHourPositive(ts, n - 1);
    }
  }

  /** The first hour below `n` with the largest count. */
  function PeakBelow(ts: seq<Timestamp>, n: nat): (h: int)
    requires n >= 1
    ensures 0 <= h < n
    ensures forall g :: 0 <= g < n ==> HourCount(ts, g) <= HourCount(ts, h)
    ensures forall g :: 0 <= g < h ==> HourCount(ts, g) < HourCount(ts, h)
  {
    if n == 1 then 0
    else
      var p := PeakBelow(ts, n - 1);
      if HourCount(ts, n - 1) > HourCount(ts, p) then n - 1 else p
  }

  /** The first hour below `n` with the smallest positive count, if any
      hour below `n` has a positive count. */
  function QuietestBelow(ts: seq<Timestamp>, n: nat): (o: Option<int>)
    ensures o.Some? <==> exists g :: 0 <= g < n && HourCount(ts, g) > 0
    ensures o.Some? ==> 0 <= o.value < n && HourCount(ts, o.value) > 0
    ensures o.Some? ==> forall g :: 0 <= g < n && HourCount(ts, g) > 0 ==> HourCount(ts, o.value) <= HourCount(ts, g)
    ensures o.Some? ==> forall g :: 0 <= g < o.value && HourCount(ts, g) > 0 ==> HourCount(ts, o.value) < HourCount(ts, g)
  {
    if n == 0 then None
    else
      var q := QuietestBelow(ts, n - 1);
      var c := HourCount(ts, n - 1);
      assert (exists g :: 0 <= g < n && HourCount(ts, g) > 0) ==>
             (exists g :: 0 <= g < n - 1 && HourCount(ts, g) > 0) || c > 0 by {
        if g :| 0 <= g < n && HourCount(ts, g) > 0 {
          if g < n - 1 {
            assert 0 <= g < n - 1 && HourCount(ts, g) > 0;
          }
        }
      }
      assert q.Some? ==> 0 <= q.value < n && HourCount(ts, q.value) > 0;
      if c > 0 && (q.None? || c < HourCount(ts, q.value)) then
        assert 0 <= n - 1 < n && HourCount(ts, n - 1) > 0;
        Some(n - 1)
      else q
  }

  /** The positive hourly counts, hour by hour below `n` (the values of
      the `hourly_counts` series). */
  function ActiveCounts(ts: seq<Timestamp>, n: nat): (cs: seq<real>)
    ensures forall i :: 0 <= i < |cs| ==> cs[i] >= 1.0
    ensures |cs| <= n
  {
    if n == 0 then []
    else
      ActiveCounts(ts, n - 1) + (if HourCount(ts, n - 1) > 0 then [HourCount(ts, n - 1) as real] else [])
  }

  lemma {:induction false} ActiveCountsNonEmpty(ts: seq<Timestamp>, n: nat, g: int)
    requires 0 <= g < n && HourCount(ts, g) > 0
    ensures |ActiveCounts(ts, n)| > 0
  {
    if g < n - 1 {
      ActiveCountsNonEmpty(ts, n - 1, g);
    }
  }

  lemma {:induction false} NoActiveHours(ts: seq<Timestamp>, n: nat)
    requires forall g :: 0 <= g < n ==> HourCount(ts, g) == 0
    ensures ActiveCounts(ts, n) == []
  {
    if n > 0 {
      NoActiveHours(ts, n - 1);
    }
  }

  /** With at most one hour below `n` occurring there is at most one count. */
  lemma {:induction false} AtMostOneActiveHour(ts: seq<Timestamp>, n: nat)
    requires forall g, h :: 0 <= g < n && 0 <= h < n && HourCount(ts, g) > 0 && HourCount(ts, h) > 0 ==> g == h
    ensures |ActiveCounts(ts, n)| <= 1
  {
    if n > 0 {
      if HourCount(ts, n - 1) > 0 {
        NoActiveHours(ts, n - 1);
      } else {
        AtMostOneActiveHour(ts, n - 1);
      }
    }
  }

  /** All recent records in one hour of the day: the hourly variance is 0. */
  lemma SingleHourNoVariance(ts: seq<Timestamp>)
    requires |ts| > 0
    requires forall g, h :: 0 <= g < 24 && 0 <= h < 24 && HourCount(ts, g) > 0 && HourCount(ts, h) > 0 ==> g == h
    ensures Hourly(ts).hourlyVariance == 0.0
  {
    AtMostOneActiveHour(ts, 24);
  }

  function SquaredDeviations(xs: seq<real>, mean: real): (ds: seq<real>)
    ensures |ds| == |xs|
    ensures forall i :: 0 <= i < |xs| ==> ds[i] == (xs[i] - mean) * (xs[i] - mean)
  {
    if xs == [] then [] else [(xs[0] - mean) * (xs[0] - mean)] + SquaredDeviations(xs[1..], mean)
  }

  /** Sample variance (`Series.var()`, one degree of freedom removed) of a
      series of at least two values; with fewer the source reports 0. */
  function SampleVariance(xs: seq<real>): (v: real)
    ensures v >= 0.0
    ensures |xs| <= 1 ==> v == 0.0
  {
    if |xs| <= 1 then 0.0
    else
      var ds := SquaredDeviations(xs, Mean(xs));
      assert forall i :: 0 <= i < |ds| ==> 0.0 <= ds[i] by {
        forall i | 0 <= i < |ds|
          ensures 0.0 <= ds[i]
        {
          SquareNonNegative(xs[i] - Mean(xs));
        }
      }
      SumBounds(ds, 0.0, Max(ds));
      QuotientNonNegative(Sum(ds), (|xs| - 1) as real);
      Sum(ds) / (|xs| - 1) as real
  }

  lemma SquareNonNegative(x: real)
    ensures x * x >= 0.0
  {
  }

  /** A quotient of a non-negative value by a positive one is
      non-negative. */
  lemma QuotientNonNegative(a: real, b: real)
    requires a >= 0.0 && b > 0.0
    ensures a / b >= 0.0
  {
  }

  /** A series whose values are all equal has variance zero. */
  lemma ConstantSeriesNoVariance(xs: seq<real>)
    requires |xs| > 0 && forall i :: 0 <= i < |xs| ==> xs[i] == xs[0]
    ensures SampleVariance(xs) == 0.0
  {
    if |xs| > 1 {
      MeanConstant(xs, xs[0]);
      var ds := SquaredDeviations(xs, xs[0]);
      assert forall i :: 0 <= i < |ds| ==> ds[i] == 0.0;
      SumBounds(ds, 0.0, 0.0);
    }
  }

  /** The hourly part of the recent patterns. */
  datatype HourlyPattern = HourlyPattern(peakHour: int, minHour: int, hourlyVariance: real)

  /** `_analyze_recent_patterns`'s dictionary; `NoPatterns` is its `{}`. */
  datatype RecentPatterns =
    | NoPatterns
    | Patterns(totalRecentRecords: nat, recentDataAvailable: bool, dataFrequency: string,
               hourly: Option<HourlyPattern>)

  /** The hourly pattern of a non-empty series of recent timestamps: the
      first busiest hour, the first quietest hour among those that occur,
      and the variance of the counts of the hours that occur. */
  function Hourly(ts: seq<Timestamp>): (hp: HourlyPattern)
    requires |ts| > 0
    ensures 0 <= hp.peakHour < 24 && HourCount(ts, hp.peakHour) > 0
    ensures forall g :: 0 <= g < 24 ==> HourCount(ts, g) <= HourCount(ts, hp.peakHour)
    ensures forall g :: 0 <= g < hp.peakHour ==> HourCount(ts, g) < HourCount(ts, hp.peakHour)
    ensures 0 <= hp.minHour < 24 && HourCount(ts, hp.minHour) > 0
    ensures forall g :: 0 <= g < 24 && HourCount(ts, g) > 0 ==> HourCount(ts, hp.minHour) <= HourCount(ts, g)
    ensures forall g :: 0 <= g < hp.minHour && HourCount(ts, g) > 0 ==> HourCount(ts, hp.minHour) < HourCount(ts, g)
    ensures hp.hourlyVariance >= 0.0
  {
    HourCountsCover(ts);
    SomeHourPositive(ts, 24);
    var counts := ActiveCounts(ts, 24);
    HourlyPattern(PeakBelow(ts, 24), QuietestBelow(ts, 24).value, SampleVariance(counts))
  }

  /** `_analyze_recent_patterns`: nothing without records or without a
      `created_at` column (reading it raises `KeyError`); otherwise the
      count of records of the last 24 hours and, when there are any, their
      hourly pattern. A column that is null in every row is present: its
      times are `NaT`, which no comparison keeps. */
  function AnalyzeRecentPatterns(records: seq<Record>, now: Timestamp): (p: RecentPatterns)
    ensures p.NoPatterns? <==> records == [] || !HasCreatedAtColumn(records)
    ensures p.Patterns? ==>
      var ts := RecentTimestamps(records, now);
      && p.totalRecentRecords == |ts|
      && (p.recentDataAvailable <==> |ts| > 0)
      && p.dataFrequency == "normal"
      && (p.hourly.Some? <==> |ts| > 0)
      && (p.hourly.Some? ==> p.hourly.value == Hourly(ts))
  {
    if records == [] || !HasCreatedAtColumn(records) then NoPatterns
    else
      var ts := RecentTimestamps(records, now);
      Patterns(|ts|, |ts| > 0, "normal", if |ts| > 0 then Some(Hourly(ts)) else None)
  }

  /** A `created_at` column that is null in every row still gives the
      three-field dictionary, with no recent records. */
  lemma NullTimesNoRecentRecords(records: seq<Record>, now: Timestamp)
    requires HasCreatedAtColumn(records) && !HasCreatedAt(records)
    ensures AnalyzeRecentPatterns(records, now) == Patterns(0, false, "normal", None)
  {
    assert |Timestamps(records)| == 0;
  }

  /** Records with some time always get a pattern dictionary. */
  lemma DatedRecordsHavePatterns(records: seq<Record>, now: Timestamp)
    requires HasCreatedAt(records)
    ensures AnalyzeRecentPatterns(records, now).Patterns?
  {
    DatedRecordsHaveColumn(records);
  }

  // ---------------------------------------------------------------------
  // Confidence and the next check

  /** Data quality and baseline quality, each capped at 1, averaged. */
  function ModelConfidence(historyCount: nat, baselineCount: nat): (c: real)
    ensures 0.0 <= c <= 1.0
    ensures c == 1.0 <==> historyCount >= 100 && baselineCount >= 10
  {
    (MinReal(historyCount as real / 100.0, 1.0) + MinReal(baselineCount as real / 10.0, 1.0)) / 2.0
  }

  /** More records or more baseline metrics never lower the confidence. */
  lemma ModelConfidenceMonotone(n1: nat, b1: nat, n2: nat, b2: nat)
    requires n1 <= n2 && b1 <= b2
    ensures ModelConfidence(n1, b1) <= ModelConfidence(n2, b2)
  {
    assert n1 as real / 100.0 <= n2 as real / 100.0;
    assert b1 as real / 10.0 <= b2 as real / 10.0;
  }

  /** Number of anomalies of severity "critical". */
  function CriticalCount(anomalies: seq<AnomalyItem>): (n: nat)
    ensures n <= |anomalies|
    ensures n > 0 <==> exists i :: 0 <= i < |anomalies| && anomalies[i].severity == "critical"
  {
    if anomalies == [] then 0
    else
      var rest := CriticalCount(anomalies[1..]);
      assert forall i :: 1 <= i < |anomalies| ==> anomalies[i] == anomalies[1..][i - 1];
      (if anomalies[0].severity == "critical" then 1 else 0) + rest
  }

  /** Seconds from now to the recommended next check: 15 minutes with a
      critical anomaly, an hour with anomalies none of which is critical,
      four hours without anomalies. */
  function NextCheckDelay(anomalies: seq<AnomalyItem>): (d: int)
    ensures (exists i :: 0 <= i < |anomalies| && anomalies[i].severity == "critical") <==> d == 15 * SecondsPerMinute
    ensures anomalies == [] <==> d == 4 * SecondsPerHour
    ensures anomalies != [] && !(exists i :: 0 <= i < |anomalies| && anomalies[i].severity == "critical")
            <==> d == SecondsPerHour
    ensures 15 * SecondsPerMinute <= d <= 4 * SecondsPerHour
  {
    if |anomalies| > 0 then
      if CriticalCount(anomalies) > 0 then 15 * SecondsPerMinute else SecondsPerHour
    else 4 * SecondsPerHour
  }

  /** What the oracle is given and the result is repaired with. */
  datatype AnomalyContext = AnomalyContext(
    historicalData: seq<Record>,
    baselineMetrics: map<string, real>,
    alertThresholds: map<ThresholdKey, real>,
    recentPatterns: RecentPatterns)

  /** `_enhance_detection_result`: the count and the analysis period are
      always set; a zero confidence is replaced by the data-quality
      estimate; an unset next check is scheduled by the anomalies found. */
  method EnhanceDetectionResult(result: AnomalyDetectionResponse, context: AnomalyContext,
                                timeRange: map<string, Timestamp>, now: Timestamp)
    modifies result
    ensures result.anomalies == old(result.anomalies)
    ensures result.totalAnomalies == |result.anomalies|
    ensures result.analysisPeriod == timeRange
    ensures result.modelConfidence ==
      if old(result.modelConfidence) == 0.0
      then ModelConfidence(|context.historicalData|, |context.baselineMetrics|)
      else old(result.modelConfidence)
    ensures result.nextCheckRecommended ==
      if old(result.nextCheckRecommended).None?
      then Some(now + NextCheckDelay(result.anomalies))
      else old(result.nextCheckRecommended)
  {
    if result.anomalies == [] {
      result.anomalies := [];
    }
    result.totalAnomalies := |result.anomalies|;
    result.analysisPeriod := timeRange;
    if result.modelConfidence == 0.0 {
      var dataQuality := MinReal(|context.historicalData| as real / 100.0, 1.0);
      var baselineQuality := MinReal(|context.baselineMetrics| as real / 10.0, 1.0);
      result.modelConfidence := (dataQuality + baselineQuality) / 2.0;
    }
    if result.nextCheckRecommended.None? {
      if result.totalAnomalies > 0 {
        var critical := CriticalCount(result.anomalies);
        if critical > 0 {
          result.nextCheckRecommended := Some(now + 15 * SecondsPerMinute);
        } else {
          result.nextCheckRecommended := Some(now + SecondsPerHour);
        }
      } else {
        result.nextCheckRecommended := Some(now + 4 * SecondsPerHour);
      }
    }
  }

  // ---------------------------------------------------------------------
  // The detection pipeline

  const DataTypes: set<string> := {"inventory", "pricing", "orders"}

  /** `_fetch_data_for_analysis`: the rows the store returns for a known
      data type and a time range with both bounds; nothing for an unknown
      data type or a range without `start` or `end` (the source catches
      the missing key and returns an empty list). */
  function FetchedRecords(dataType: string, timeRange: map<string, Timestamp>, rows: seq<Record>): seq<Record>
  {
    if "start" in timeRange && "end" in timeRange && dataType in DataTypes then rows else []
  }

  /** `detect_anomalies`: the store's rows and the oracle's unrepaired
      answer are parameters. The context is built first; a time range
      without `start` or `end` then fails the request, because the prompt
      reads both bounds outside any `try` (the `KeyError` becomes an
      error response), and the answer is left as it was. Otherwise the
      result is that answer, repaired with the context. */
  method DetectAnomalies(dataType: string, timeRange: map<string, Timestamp>, sensitivity: real,
                         rows: seq<Record>, answer: AnomalyDetectionResponse, now: Timestamp,
                         stdev: seq<real> -> real)
    returns (failed: bool, result: AnomalyDetectionResponse, context: AnomalyContext)
    modifies answer
    ensures failed <==> "start" !in timeRange || "end" !in timeRange
    ensures result == answer
    ensures failed ==> unchanged(answer)
    ensures dataType !in DataTypes || "start" !in timeRange || "end" !in timeRange ==> context.historicalData == []
    ensures dataType in DataTypes && "start" in timeRange && "end" in timeRange ==> context.historicalData == rows
    ensures context.baselineMetrics.Keys == BaselineKeys(context.historicalData, dataType)
    ensures BaselineOf(context.baselineMetrics, context.historicalData, dataType, stdev)
    ensures AlertThresholdsOf(context.alertThresholds, context.baselineMetrics, sensitivity)
    ensures context.recentPatterns == AnalyzeRecentPatterns(context.historicalData, now)
    ensures !failed ==> result.anomalies == old(answer.anomalies)
    ensures !failed ==> result.totalAnomalies == |result.anomalies|
    ensures !failed ==> result.analysisPeriod == timeRange
    ensures !failed ==>
              result.modelConfidence ==
                if old(answer.modelConfidence) == 0.0
                then ModelConfidence(|context.historicalData|, |context.baselineMetrics|)
                else old(answer.modelConfidence)
    ensures !failed ==>
              result.nextCheckRecommended ==
                if old(answer.nextCheckRecommended).None?
                then Some(now + NextCheckDelay(result.anomalies))
                else old(answer.nextCheckRecommended)
  {
    var historical := FetchedRecords(dataType, timeRange, rows);
    var baseline := BaselineMetrics(historical, dataType, stdev);
    var thresholds := AlertThresholds(baseline, sensitivity);
    var patterns := AnalyzeRecentPatterns(historical, now);
    context := AnomalyContext(historical, baseline, thresholds, patterns);
    result := answer;
    failed := "start" !in timeRange || "end" !in timeRange;
    if !failed {
      EnhanceDetectionResult(answer, context, timeRange, now);
    }
  }

  /** Fifty orders, each with an amount and a creation time, give a
      baseline of six metrics; with no anomalies and neither confidence
      nor next check from the oracle, the repaired result has confidence
      (0.5 + 0.6) / 2 and the next check four hours ahead. */
  lemma FiftyOrders(records: seq<Record>)
    requires |records| == 50
    requires forall i :: 0 <= i < 50 ==> "total_amount" in records[i].fields && records[i].createdAt.CreatedAt?
    ensures |BaselineKeys(records, "orders")| == 6
    ensures ModelConfidence(|records|, |BaselineKeys(records, "orders")|) == 0.55
    ensures NextCheckDelay([]) == 4 * SecondsPerHour
  {
    assert "total_amount" in records[0].fields && records[0].createdAt.CreatedAt?;
    assert HasColumn(records, "total_amount") && HasCreatedAt(records);
    assert BaselineKeys(records, "orders")
        == {"avg_order_value", "std_order_value", "max_order_value", "min_order_value",
            "avg_daily_orders", "std_daily_orders"};
  }

  /** A name without "avg" is its own deviation key. */
  lemma {:induction false} ReplaceAbsent(s: string, target: string, replacement: string)
    requires target != [] && !HasInfix(s, target)
    ensures Replace(s, target, replacement) == s
  {
    if |s| >= |target| {
      ReplaceAbsent(s[1..], target, replacement);
      assert s == [s[0]] + s[1..];
    }
  }

  /** So a non-deviation metric without "avg" in its name (a maximum or a
      minimum) is its own deviation key and always gets bounds, which by
      `MetricBounds` are `value ± value * factor`. */
  lemma SelfDeviation(baseline: map<string, real>, m: string)
    requires m in baseline && !IsStdMetric(m) && !HasInfix(m, "avg")
    ensures StdKeyOf(m) == m
    ensures HasBounds(baseline, m)
  {
    ReplaceAbsent(m, "avg", "std");
  }

  /** An average metric `avg<rest>` whose remainder holds no further "avg"
      is bounded through the deviation metric `std<rest>`. */
  lemma {:induction false} AverageDeviationKey(rest: string)
    requires !HasInfix(rest, "avg")
    ensures StdKeyOf("avg" + rest) == "std" + rest
    ensures IsStdMetric("std" + rest)
  {
    var m := "avg" + rest;
    assert m[..3] == "avg" && m[3..] == rest;
    ReplaceAbsent(rest, "avg", "std");
    var d := "std" + rest;
    assert d[..3] == "std";
  }
}
