# ai-service: the deterministic layer of the three prediction agents

The ai-service answers three kinds of request: demand forecasts, delivery
time predictions and anomaly reports. Each answer comes from a reasoning
oracle, a language model asked for a structured response. Around that call
each agent runs deterministic code in two places:

- **Before the call**, feature computation builds a context from the
  fetched records:
  - baseline statistics and alert thresholds, with a summary of the last
    24 hours (anomaly detection);
  - a zip-prefix distance estimate and a carrier profile (delivery
    prediction);
  - a monthly seasonal profile (demand forecasting).
- **After the call**, result normalisation repairs the response object
  in place. Counts and metadata are always set. Fields the oracle left
  zero, empty or unset get defaults.

This project models that layer in Dafny. There is one module per agent
file, plus two shared modules:

- `Common` (common.dfy): optional values, timestamps as whole seconds, and
  the statistics the agents take from pandas (sum, mean, minimum,
  maximum). It also holds ASCII case folding, digits, and Python's
  `in` and `str.replace` on text.
- `Responses` (responses.dfy): the shapes of the response objects. The
  three responses are classes, because the normalisers change their fields
  in place. Their items are datatypes.
- `AnomalyDetection` (anomaly_detection.dfy):
  - the baseline metrics per data type;
  - the alert-threshold loop, specified by a predicate on the baseline.
    The threshold dictionary is keyed by (metric, kind) pairs, where the
    kind is threshold, upper or lower. `KeyText` spells a pair as the
    source's `<metric>_threshold`, `<metric>_upper` or `<metric>_lower`,
    and `Rendered` turns the map into the source's string-keyed
    dictionary;
  - the recent-pattern summary;
  - the normaliser, and the pipeline that connects them.
- `DeliveryPrediction` (delivery_prediction.dfy):
  - Python's `int()` on the first three characters of a zip code;
  - the distance heuristic and the route data;
  - the carrier table;
  - the normaliser, and the pipeline.
- `DemandForecasting` (demand_forecasting.dfy):
  - the row filter behind the seasonal profile;
  - the month-by-month loop that builds the profile;
  - the fallback forecast list;
  - the normaliser, and the pipeline.

The things the model cannot compute are parameters:

- the store's rows;
- the oracle's unrepaired answer;
- the clock ("now", one timestamp per request);
- pandas' standard deviation (an uninterpreted function `stdev`).

Where the code does something one might not expect, the model follows the code:

- **Empty zip.** One might expect a missing zip code to give the
  default 500 miles. The code reads an empty or missing zip as prefix 0
  (`ai-service/agents/delivery_prediction.py:239-240`), and
  `DeliveryPrediction.EmptyZipIsPrefixZero` states that.
- **Bounds for maxima and minima.** For metrics like `max_price` and
  `min_order_value`, `metric.replace('avg', 'std')` is the metric itself.
  Such metrics therefore get `_upper`/`_lower` bounds at their own value
  plus or minus their own value times the factor, although the comment in
  the source speaks only of averages. `AnomalyDetection.SelfDeviation`
  states this.
- **Service level of the fallback date.** The fallback delivery date
  always uses the carrier's standard service level, whatever service level
  was requested.

## Model

| member | source | states |
|---|---|---|
| Common.MinMeanMax | ai-service/agents/anomaly_detection.py:227-231 | the minimum of a column is at most its mean, and the mean at most its maximum |
| Common.WholeDays | ai-service/agents/delivery_prediction.py:311 | `timedelta.days`: the whole days d with d days <= difference < d+1 days, rounded down |
| Common.DayOf | ai-service/agents/anomaly_detection.py:195 | `.dt.date`: the day d whose 86400 seconds contain the timestamp |
| Common.HourOf | ai-service/agents/anomaly_detection.py:290 | `.dt.hour`: an hour in [0, 24) whose 3600 seconds within the timestamp's day contain it |
| Common.Lower | ai-service/agents/delivery_prediction.py:164 | `str.lower()` on ASCII: same length, each letter A-Z mapped to a-z, everything else kept |
| Common.LowerChar | ai-service/agents/delivery_prediction.py:164 | each letter A-Z becomes the letter at the same position in a-z; no upper-case ASCII letter remains; everything else is kept |
| Common.HasInfixAt | ai-service/agents/anomaly_detection.py:252 | `sub in s` holds iff `sub` occurs at some position of `s` |
| Common.Replace | ai-service/agents/anomaly_detection.py:257 | `str.replace`: same length when the replacement is as long as the target; the text itself when they are equal |
| AnomalyDetection.Column | ai-service/agents/anomaly_detection.py:187-191 | the non-null values of a column; there are some exactly when the column is present |
| AnomalyDetection.DailyCountsSum | ai-service/agents/anomaly_detection.py:195 | the per-day record counts add up to the number of records |
| AnomalyDetection.DailyMeanIsRecordsPerDay | ai-service/agents/anomaly_detection.py:193-196 | the mean of the per-day counts is the record count divided by the number of distinct days |
| AnomalyDetection.InventoryBaseline | ai-service/agents/anomaly_detection.py:180-199 | meets `InventoryBaselineOf`: the inventory key set; mean, deviation, max and min of `quantity_change` with min <= avg <= max; mean and deviation of the daily movement counts |
| AnomalyDetection.PricingBaseline | ai-service/agents/anomaly_detection.py:201-218 | meets `PricingBaselineOf`: the pricing key set; the four price statistics with min <= avg <= max; mean and deviation of the discount |
| AnomalyDetection.OrderBaseline | ai-service/agents/anomaly_detection.py:220-239 | meets `OrderBaselineOf`: the order key set; the four `total_amount` statistics with min <= avg <= max; mean and deviation of the daily order counts |
| AnomalyDetection.BaselineMetrics | ai-service/agents/anomaly_detection.py:157-178 | meets `BaselineOf`: empty for no records or an unknown data type; otherwise the baseline of that data type, keys and values |
| AnomalyDetection.InventoryBaselineUnique | ai-service/agents/anomaly_detection.py:180-199 | two maps meeting `InventoryBaselineOf` for the same records are equal, so the predicate pins every value |
| AnomalyDetection.PricingBaselineUnique | ai-service/agents/anomaly_detection.py:201-218 | two maps meeting `PricingBaselineOf` for the same records are equal |
| AnomalyDetection.OrderBaselineUnique | ai-service/agents/anomaly_detection.py:220-239 | two maps meeting `OrderBaselineOf` for the same records are equal |
| AnomalyDetection.BaselineUnique | ai-service/agents/anomaly_detection.py:157-239 | two maps meeting `BaselineOf` for the same records and data type are equal: the baseline is a function of its input |
| AnomalyDetection.KeyText | ai-service/agents/anomaly_detection.py:254-261 | the text `<metric><suffix>` reads back to its (metric, kind) pair, so different pairs never share a text |
| AnomalyDetection.Rendered | ai-service/agents/anomaly_detection.py:244-263 | the string-keyed dictionary holds every pair's text with its value, and only such texts |
| AnomalyDetection.SensitivityFactor | ai-service/agents/anomaly_detection.py:249 | the factor lies in [1, 2] for a sensitivity in [0, 1] |
| AnomalyDetection.AlertThresholds | ai-service/agents/anomaly_detection.py:241-263 | the loop builds exactly the thresholds that `AlertThresholdsOf` characterises from the baseline and the sensitivity |
| AnomalyDetection.ThresholdsUnique | ai-service/agents/anomaly_detection.py:241-263 | the characterisation determines the threshold map: two maps meeting it are equal |
| AnomalyDetection.StdMetricThreshold | ai-service/agents/anomaly_detection.py:251-254 | a key containing "std" yields `<key>_threshold` = value × (2 − sensitivity) and no upper or lower entry |
| AnomalyDetection.MetricBoundKeys | ai-service/agents/anomaly_detection.py:251-261 | a non-"std" key gets no threshold; it gets upper and lower bounds iff its "avg"→"std" key is in the baseline |
| AnomalyDetection.MetricBounds | ai-service/agents/anomaly_detection.py:256-261 | with bounds, upper = value + deviation × (2 − sensitivity) and lower = value − the same; lower <= value <= upper for a non-negative deviation and a sensitivity at most 1 |
| AnomalyDetection.HigherSensitivityIsTighter | ai-service/agents/anomaly_detection.py:247-261 | with non-negative deviations, a higher sensitivity gives the same keys, thresholds no larger and bounds no wider |
| AnomalyDetection.SelfDeviation | ai-service/agents/anomaly_detection.py:256-261 | a key without "avg" or "std" has itself as its deviation key, so it gets bounds built from its own value |
| AnomalyDetection.AverageDeviationKey | ai-service/agents/anomaly_detection.py:257 | `avg_x` looks up `std_x`, a "std" key |
| AnomalyDetection.ReplaceAbsent | ai-service/agents/anomaly_detection.py:257 | `str.replace` leaves text without the target unchanged |
| AnomalyDetection.RecentWindow | ai-service/agents/anomaly_detection.py:278-280 | a timestamp at most 24 hours before now is kept as often as it occurs; an older one is dropped |
| AnomalyDetection.Recent | ai-service/agents/anomaly_detection.py:278-280 | keeps every timestamp at or after the cutoff, as often as it occurs, and none before it |
| AnomalyDetection.AllRecent | ai-service/agents/anomaly_detection.py:280 | a series entirely after the cutoff is kept whole |
| AnomalyDetection.HourCountsCover | ai-service/agents/anomaly_detection.py:290-291 | the 24 hourly counts add up to the number of recent records |
| AnomalyDetection.PeakBelow | ai-service/agents/anomaly_detection.py:293 | `idxmax`: an hour with the largest count, and the first such hour |
| AnomalyDetection.QuietestBelow | ai-service/agents/anomaly_detection.py:294 | `idxmin` over the hours that occur: present iff some hour occurs; smallest positive count, first such hour |
| AnomalyDetection.SampleVariance | ai-service/agents/anomaly_detection.py:295 | the sample variance is never negative, and it is 0 for fewer than two values |
| AnomalyDetection.ConstantSeriesNoVariance | ai-service/agents/anomaly_detection.py:295 | equal counts have sample variance 0 |
| AnomalyDetection.SingleHourNoVariance | ai-service/agents/anomaly_detection.py:295 | when all recent records fall in one hour of the day, the hourly variance is 0 |
| AnomalyDetection.Hourly | ai-service/agents/anomaly_detection.py:288-295 | the peak and the quietest hour are hours that occur, with the argmax/argmin properties over the 24 hours; the variance is >= 0 |
| AnomalyDetection.AnalyzeRecentPatterns | ai-service/agents/anomaly_detection.py:265-301 | empty iff there are no records or no record has a `created_at` field (reading the missing column raises `KeyError`); otherwise the count of the last 24 hours, available iff positive, "normal" frequency, hourly pattern iff positive |
| AnomalyDetection.NullTimesNoRecentRecords | ai-service/agents/anomaly_detection.py:278-286 | a `created_at` column holding only nulls gives the three-field summary with 0 recent records and no hourly pattern |
| AnomalyDetection.DatedRecordsHavePatterns | ai-service/agents/anomaly_detection.py:272-286 | records with some non-null `created_at` always get a summary, never the empty result |
| AnomalyDetection.ModelConfidence | ai-service/agents/anomaly_detection.py:367-371 | the confidence lies in [0, 1], and it is 1 iff there are at least 100 records and 10 baseline metrics |
| AnomalyDetection.ModelConfidenceMonotone | ai-service/agents/anomaly_detection.py:367-371 | more records or more baseline metrics never lower the confidence |
| AnomalyDetection.CriticalCount | ai-service/agents/anomaly_detection.py:376 | at most the number of anomalies; positive iff some anomaly is "critical" |
| AnomalyDetection.NextCheckDelay | ai-service/agents/anomaly_detection.py:373-382 | 15 minutes iff some anomaly is critical; 1 hour iff there are anomalies and none is critical; 4 hours iff there are none |
| AnomalyDetection.EnhanceDetectionResult | ai-service/agents/anomaly_detection.py:350-384 | new state: anomalies kept, total = their number, period = time range; a zero confidence recomputed; an unset next check set to now + the tiered delay |
| AnomalyDetection.DetectAnomalies | ai-service/agents/anomaly_detection.py:47-116 | the request fails, leaving the answer untouched, iff the range lacks `start` or `end` (the prompt reads both); the context holds no records for an unknown data type and the store's rows otherwise, their baseline as `BaselineOf` pins it, its thresholds and the recent patterns; a request that does not fail repairs the answer as the normaliser states |
| AnomalyDetection.FiftyOrders | ai-service/agents/anomaly_detection.py:220-239 | fifty dated orders with amounts give six baseline keys, and a repaired confidence of 0.55 |
| DeliveryPrediction.Strip | ai-service/agents/delivery_prediction.py:239 | `int()`'s stripping: the text between the leading and trailing white space, beginning and ending with a non-space character; text without white space is kept |
| DeliveryPrediction.SpaceIsNotPartOfNumber | ai-service/agents/delivery_prediction.py:239 | the ASCII blanks are white space, and no white-space character is a digit, a sign or an underscore |
| DeliveryPrediction.ParseInt | ai-service/agents/delivery_prediction.py:239-240 | blank text is not an integer; an all-digit text is its decimal value |
| DeliveryPrediction.ParseRejects | ai-service/agents/delivery_prediction.py:239-247 | text with a character other than a digit, a sign, an underscore or white space is not an integer |
| DeliveryPrediction.PrefixDistance | ai-service/agents/delivery_prediction.py:241-244 | the miles lie in [0, 3000]; 3000 iff the difference is at least 60; 50 per unit below that |
| DeliveryPrediction.EstimateDistance | ai-service/agents/delivery_prediction.py:234-247 | in [0, 3000]; 500 when either prefix does not parse; the capped prefix distance when both do |
| DeliveryPrediction.DistanceSymmetric | ai-service/agents/delivery_prediction.py:239-244 | the estimate does not depend on which zip is the origin |
| DeliveryPrediction.DistanceMonotone | ai-service/agents/delivery_prediction.py:241-244 | a larger prefix difference never gives a smaller distance |
| DeliveryPrediction.EmptyZipIsPrefixZero | ai-service/agents/delivery_prediction.py:239-240 | an empty zip counts as "000", not as a parse failure; two empty zips are 0 miles apart |
| DeliveryPrediction.NonNumericZip | ai-service/agents/delivery_prediction.py:239-247 | a character `int()` cannot read among a zip's first three gives exactly 500 miles, on either side |
| DeliveryPrediction.DigitPrefix | ai-service/agents/delivery_prediction.py:239-240 | a zip starting with three digits has the decimal value of those digits as its prefix |
| DeliveryPrediction.DigitZips | ai-service/agents/delivery_prediction.py:239-244 | two zips starting with three digits (five-digit zips among them) are compared by the difference of those three-digit values |
| DeliveryPrediction.NearbyPrefixes | ai-service/agents/delivery_prediction.py:241-244 | zips 10001 and 10234 are 100 miles apart, in either order |
| DeliveryPrediction.CappedPrefixes | ai-service/agents/delivery_prediction.py:244 | zips 94105 and 10001 are at the 3000-mile cap |
| DeliveryPrediction.CalculateDistanceData | ai-service/agents/delivery_prediction.py:193-232 | hours × 50 = miles on both paths; a failed lookup gives 500 miles and 10 hours; otherwise the estimate between the warehouse and destination zips; medium complexity, no cities, no crossings |
| DeliveryPrediction.CarrierPerformance | ai-service/agents/delivery_prediction.py:127-176 | the table entry of the lower-cased name, else the average profile; every profile has a rate in [0, 1] and overnight <= express <= standard days |
| DeliveryPrediction.CarrierCaseInsensitive | ai-service/agents/delivery_prediction.py:164-165 | names equal up to letter case get the same profile |
| DeliveryPrediction.UnknownCarrierStandard | ai-service/agents/delivery_prediction.py:167-176 | an absent or unknown carrier gets the default profile, with a standard level of 4 days |
| DeliveryPrediction.MixedCaseFedEx | ai-service/agents/delivery_prediction.py:134-165 | "FedEx" finds the "fedex" entry |
| DeliveryPrediction.UpperCaseUps | ai-service/agents/delivery_prediction.py:144-165 | "UPS" finds the "ups" entry, with an on-time rate of 0.89 |
| DeliveryPrediction.UpperCaseUsps | ai-service/agents/delivery_prediction.py:154-165 | "USPS" finds the "usps" entry, with a standard level of 5 days |
| DeliveryPrediction.UnknownUpperCaseName | ai-service/agents/delivery_prediction.py:164-176 | "DHL" is not in the table and gets the default profile |
| DeliveryPrediction.FallbackDeliveryDate | ai-service/agents/delivery_prediction.py:302-305 | the fallback date is the standard level in whole days from now, and later than now for a table profile |
| DeliveryPrediction.EnhancePredictionResult | ai-service/agents/delivery_prediction.py:294-325 | new state: unset date → fallback date; zero confidence → 0.8; zero transit → whole days to the date (the standard level after a fallback); empty carrier → "FedEx"; empty factors → the five defaults; alternatives kept |
| DeliveryPrediction.PredictDelivery | ai-service/agents/delivery_prediction.py:45-94 | the context holds the history, the carrier's profile and the route data; the answer is repaired as the normaliser states |
| DeliveryPrediction.FallbackDays | ai-service/agents/delivery_prediction.py:302-311 | without a date or transit days, an unknown carrier's shipment is due in 4 days and a USPS one in 5 |
| DemandForecasting.Dated | ai-service/agents/demand_forecasting.py:125-128 | at most as many rows as given; none iff no row has a dated `orders` object |
| DemandForecasting.NoOrdersColumnNoDates | ai-service/agents/demand_forecasting.py:121-128 | without an `orders` column no row is dated |
| DemandForecasting.MonthQuantities | ai-service/agents/demand_forecasting.py:138 | the quantities of one month; empty iff no dated row falls in it |
| DemandForecasting.MonthRatio | ai-service/agents/demand_forecasting.py:143-148 | 1.0 for an unobserved month; otherwise the ratio times the overall mean is the month's mean |
| DemandForecasting.OverallMeanBounds | ai-service/agents/demand_forecasting.py:139 | the overall mean lies between the smallest and the largest quantity |
| DemandForecasting.MonthKey | ai-service/agents/demand_forecasting.py:144 | `month_<m>` of 7 or 8 characters, from which the month reads back |
| DemandForecasting.MonthKeyInjective | ai-service/agents/demand_forecasting.py:142-148 | different months have different keys |
| DemandForecasting.MonthKeyDigits | ai-service/agents/demand_forecasting.py:144 | the key is "month_" followed by the month's decimal digits |
| DemandForecasting.OnlyMonthKeys | ai-service/agents/demand_forecasting.py:141-148 | every key of months 1 to n is the key of one of those months |
| DemandForecasting.NewMonthKey | ai-service/agents/demand_forecasting.py:141-148 | month n's key is new after months 1 to n − 1, so it adds one key |
| DemandForecasting.MonthKeysCount | ai-service/agents/demand_forecasting.py:141-148 | months 1 to n give exactly n keys |
| DemandForecasting.SeasonalPatterns | ai-service/agents/demand_forecasting.py:110-154 | the loop yields the empty profile when the source gives up, and otherwise one ratio per month under its key and no other key |
| DemandForecasting.ProfileHasTwelveMonths | ai-service/agents/demand_forecasting.py:141-150 | a non-empty profile has exactly 12 entries, from `month_1` to `month_12` |
| DemandForecasting.FlatDemandIsFlatProfile | ai-service/agents/demand_forecasting.py:138-148 | equal non-zero quantities give an overall mean of that quantity and a factor of 1.0 for every month |
| DemandForecasting.MonthsPartition | ai-service/agents/demand_forecasting.py:138-139 | the monthly groups together hold the whole quantity of the dated rows |
| DemandForecasting.RatioOrder | ai-service/agents/demand_forecasting.py:143-146 | with a positive overall mean, factors are ordered as the monthly means are |
| DemandForecasting.FallbackForecasts | ai-service/agents/demand_forecasting.py:208-220 | min(days, 7) items (none for a non-positive horizon); item i dated i days from now, inside the horizon; demand 10.0, confidence 0.7, factor 1.0, "sample_product", no warehouse |
| DemandForecasting.FallbackDatesIncrease | ai-service/agents/demand_forecasting.py:214 | fallback dates strictly increase, one day apart |
| DemandForecasting.FallbackLength | ai-service/agents/demand_forecasting.py:219 | a 30-day horizon gets 7 placeholders, a 3-day one 3 |
| DemandForecasting.EnhanceForecastResult | ai-service/agents/demand_forecasting.py:201-230 | new state: an empty list becomes the fallback list and a non-empty one is kept; generation time = now; horizon = the days asked; zero accuracy → 0.85 |
| DemandForecasting.ForecastDemand | ai-service/agents/demand_forecasting.py:45-82 | the context holds the rows and, only with seasonality on, their profile; the answer is repaired as the normaliser states |

## Left out

- The store: the `_fetch_*` queries, the warehouse query and the client in `ai-service/services/supabase_client.py` are database I/O. Their results are parameters, and a failed query is a value (`WarehouseLookup.LookupFailed`, or the empty row list the fetchers return).
- The oracle: the `Agent(...)` constructors and `agent.run` are calls to an external model. Its answer is an arbitrary response object given to the normaliser.
- The prompt builders: their text depends on dict `repr`, float formatting and `strftime`, and nothing computed downstream reads it. The one way they affect the outcome, the `KeyError` of `_build_detection_prompt` for a time range without `start` or `end` (`ai-service/agents/anomaly_detection.py:315`), is modelled as the `failed` result of `AnomalyDetection.DetectAnomalies`; the HTTP 500 response it becomes is not.
- The weather and external-factor stubs: they are constant dictionaries that only the prompts read, so they are not fields of the context datatypes.
- The HTTP layer (`ai-service/main.py`), the mock agents and the smoke script, and async/await: the model is sequential.
- AnomalyDetection.Column: a column present only as nulls counts as absent. In the source `'x' in df.columns` holds for it, and its statistics come out NaN.
- AnomalyDetection.InventoryBaseline: a `quantity_change` or `created_at` column holding only nulls gives no keys in the model. The source gives NaN-valued keys, so its baseline is larger and its confidence higher.
- AnomalyDetection.PricingBaseline: a `price` or `discount_percentage` column holding only nulls gives no keys in the model. The source gives NaN-valued keys.
- AnomalyDetection.OrderBaseline: a `total_amount` or `created_at` column holding only nulls gives no keys in the model. The source gives NaN-valued keys.
- AnomalyDetection.BaselineMetrics: omits the NaN-valued keys of all-null columns, as the three helpers above do. Standard deviations are an uninterpreted function `stdev` of the column, not pandas' floating-point `std()` (NaN for a single value). The per-day counts are listed in the order each day first occurs, where `groupby(...).size()` sorts them by date, so `std_daily_movements` and `std_daily_orders` agree with the source for a `stdev` that ignores order, as a standard deviation does.
- All arithmetic is on exact reals, with no floating-point rounding, NaN or infinity.
- Timestamp parsing by `pd.to_datetime`: times arrive as whole seconds and months as integers. A string it would fail to parse, which aborts the computation in the source, is not representable.
- One clock reading per request. The source calls `datetime.now()` separately for each use.
- DeliveryPrediction.EnhancePredictionResult: uses one `now`, while the source reads the clock at line 305 and again at line 311. After a fallback date the source's `.days` therefore usually comes out one lower (3 instead of 4) than the model's.
- DemandForecasting.FallbackForecasts: dates every item from one `now`; the source reads the clock once per item.
- DeliveryPrediction.ParseInt: accepts ASCII digits only, where Python's `int()` also accepts other Unicode decimal digits.
- Common.Lower: folds ASCII letters only, where `str.lower()` folds all Unicode letters.
- A zip that is not text (the `TypeError` path of `_estimate_distance`): zips are modelled as text, and a null zip column as an absent one, which the source also treats as empty.
- DemandForecasting.SeasonalPatterns: requires a non-zero overall mean, since dividing by zero gives infinity or NaN in the source, which reals do not have.
- DemandForecasting.OrderItemRow: every row carries a quantity; rows whose quantity is null are not modelled.
- The `hasattr` checks in the normalisers: pydantic objects always have these attributes. An unset datetime, which the schema does not actually allow, is modelled as `None`.
