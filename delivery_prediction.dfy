/** The deterministic layer of the delivery prediction agent
    (ai-service/agents/delivery_prediction.py): the zip-prefix distance
    heuristic, the static carrier table, and the repair of the oracle's
    prediction. */
module DeliveryPrediction {
  import opened Common
  import opened Responses

  // ---------------------------------------------------------------------
  // Python's `int()` on a short piece of text

  /** Python's `str.isspace()`: the characters `int()` strips from both ends. */
  predicate IsSpace(c: char)
  {
    var n := c as int;
    n == 32 || 9 <= n <= 13 || 28 <= n <= 31 || n == 0x85 || n == 0xA0 || n == 0x1680
    || 0x2000 <= n <= 0x200A || n == 0x2028 || n == 0x2029 || n == 0x202F
    || n == 0x205F || n == 0x3000
  }

  /** The ASCII blanks are white space, and no white space is a digit, a
      sign or an underscore, so stripping never removes part of a number. */
  lemma SpaceIsNotPartOfNumber(c: char)
    ensures IsSpace(' ') && IsSpace('\t') && IsSpace('\n') && IsSpace('\r')
    ensures IsSpace(c) ==> !IsDigit(c) && c != '+' && c != '-' && c != '_'
  {
  }

  /** A character that can occur in text `int()` accepts: a digit, a sign,
      an underscore or white space. */
  predicate IsIntChar(c: char)
  {
    IsDigit(c) || c == '+' || c == '-' || c == '_' || IsSpace(c)
  }

  /** Number of white-space characters at the start of `s`. */
  function LeadingSpaces(s: string): (k: nat)
    ensures k <= |s|
    ensures forall i :: 0 <= i < k ==> IsSpace(s[i])
    ensures k < |s| ==> !IsSpace(s[k])
  {
    if s == [] || !IsSpace(s[0]) then 0
    else
      var k := LeadingSpaces(s[1..]);
      assert forall i :: 1 <= i < 1 + k ==> s[i] == s[1..][i - 1];
      1 + k
  }

  /** Number of white-space characters at the end of `s`. */
  function TrailingSpaces(s: string): (k: nat)
    ensures k <= |s|
    ensures forall i :: |s| - k <= i < |s| ==> IsSpace(s[i])
    ensures k < |s| ==> !IsSpace(s[|s| - k - 1])
  {
    if s == [] || !IsSpace(s[|s| - 1]) then 0
    else
      var k := TrailingSpaces(s[..|s| - 1]);
      assert forall i :: |s| - 1 - k <= i < |s| - 1 ==> s[i] == s[..|s| - 1][i];
      1 + k
  }

  /** `str.strip()`: the text between the leading and the trailing white
      space. */
  function Strip(s: string): (r: string)
    ensures |r| <= |s| - LeadingSpaces(s)
    ensures r == s[LeadingSpaces(s)..LeadingSpaces(s) + |r|]
    ensures forall i :: LeadingSpaces(s) + |r| <= i < |s| ==> IsSpace(s[i])
    ensures (forall i :: 0 <= i < |s| ==> !IsSpace(s[i])) ==> r == s
    ensures |r| > 0 ==> !IsSpace(r[0]) && !IsSpace(r[|r| - 1])
  {
    var a := LeadingSpaces(s);
    if a == |s| then []
    else
      var t := TrailingSpaces(s);
      s[a..|s| - t]
  }

  /** The digits of an integer literal as `int()` accepts them: at least one
      digit, and single underscores only between two digits. */
  predicate IsDigitGroup(s: string)
  {
    |s| > 0 && IsDigit(s[0]) && IsDigit(s[|s| - 1]) &&
    forall i :: 0 <= i < |s| ==> DigitOrJoin(s, i)
  }

  /** Position `i` of `s` holds a digit, or an underscore before a digit. */
  predicate DigitOrJoin(s: string, i: int)
    requires 0 <= i < |s|
  {
    IsDigit(s[i]) || (s[i] == '_' && i + 1 < |s| && IsDigit(s[i + 1]))
  }

  /** Decimal value of a digit group; underscores are skipped. */
  function LiteralValue(s: string): nat
  {
    if s == [] then 0
    else if s[|s| - 1] == '_' then LiteralValue(s[..|s| - 1])
    else LiteralValue(s[..|s| - 1]) * 10 + DigitValue(s[|s| - 1])
  }

  /** Python's `int(s)` on text: `None` stands for the `ValueError` it raises.
      Only ASCII digits are accepted here. */
  function ParseInt(s: string): (r: Option<int>)
    ensures (forall i :: 0 <= i < |s| ==> IsSpace(s[i])) ==> r.None?
    ensures |s| > 0 && (forall i :: 0 <= i < |s| ==> IsDigit(s[i])) ==> r == Some(LiteralValue(s))
  {
    var t := Strip(s);
    if |t| > 0 && (t[0] == '+' || t[0] == '-') then
      if IsDigitGroup(t[1..]) then
        var v: int := LiteralValue(t[1..]);
        Some(if t[0] == '-' then -v else v)
      else
        None
    else if IsDigitGroup(t) then
      Some(LiteralValue(t))
    else
      None
  }

  lemma NotDigitGroup(s: string, j: int)
    requires 0 <= j < |s| && !IsDigit(s[j]) && s[j] != '_'
    ensures !IsDigitGroup(s)
  {
    assert !DigitOrJoin(s, j);
  }

  /** Text holding a character that is neither a digit, a sign, an
      underscore nor white space is not an integer. */
  lemma ParseRejects(s: string, i: int)
    requires 0 <= i < |s| && !IsIntChar(s[i])
    ensures ParseInt(s).None?
  {
    var t := Strip(s);
    var k := LeadingSpaces(s);
    assert k <= i < k + |t|;
    assert t[i - k] == s[i];
    if |t| > 0 && (t[0] == '+' || t[0] == '-') {
      assert t[0] == s[k];
      assert i - k > 0;
      var body := t[1..];
      assert body[i - k - 1] == s[i];
      NotDigitGroup(body, i - k - 1);
    } else {
      NotDigitGroup(t, i - k);
    }
  }

  // ---------------------------------------------------------------------
  // The distance heuristic

  /** The number a zip code stands for in the heuristic: its first three
      characters read as an integer, and 0 for an empty zip (the source
      only parses a non-empty one). */
  function ZipPrefix(zip: string): Option<int>
  {
    if zip == [] then Some(0) else ParseInt(zip[..MinInt(3, |zip|)])
  }

  /** Miles for a prefix difference: 50 per unit, capped at 3000. */
  function PrefixDistance(diff: nat): (miles: int)
    ensures 0 <= miles <= 3000
    ensures miles == 3000 <==> diff >= 60
    ensures diff < 60 ==> miles == diff * 50
  {
    MinInt(diff * 50, 3000)
  }

  /** The distance used when either prefix does not parse. */
  const UnparsedDistance: int := 500

  /** `_estimate_distance`. */
  function EstimateDistance(originZip: string, destZip: string): (miles: int)
    ensures 0 <= miles <= 3000
    ensures ZipPrefix(originZip).None? || ZipPrefix(destZip).None? ==> miles == UnparsedDistance
    ensures ZipPrefix(originZip).Some? && ZipPrefix(destZip).Some? ==>
      miles == PrefixDistance(AbsInt(ZipPrefix(originZip).value - ZipPrefix(destZip).value))
  {
    var o := ZipPrefix(originZip);
    var d := ZipPrefix(destZip);
    if o.None? || d.None? then UnparsedDistance
    else PrefixDistance(AbsInt(o.value - d.value))
  }

  lemma DistanceSymmetric(a: string, b: string)
    ensures EstimateDistance(a, b) == EstimateDistance(b, a)
  {
    var pa, pb := ZipPrefix(a), ZipPrefix(b);
    if pa.Some? && pb.Some? {
      assert AbsInt(pa.value - pb.value) == AbsInt(pb.value - pa.value);
    }
  }

  lemma DistanceMonotone(d1: nat, d2: nat)
    requires d1 <= d2
    ensures PrefixDistance(d1) <= PrefixDistance(d2)
  {
  }

  /** An empty zip counts as prefix 0 (the same as "000"), not as a parse
      failure. */
  lemma EmptyZipIsPrefixZero(destZip: string)
    ensures EstimateDistance("", destZip) == EstimateDistance("000", destZip)
    ensures EstimateDistance("", "") == 0
  {
    var z := "000";
    assert z[..MinInt(3, |z|)] == z;
    assert ParseInt(z) == Some(LiteralValue(z));
    assert z[..2] == "00" && z[..1] == "0";
    assert LiteralValue(z) == 0;
  }

  /** A character among the first three of a zip that `int()` cannot read
      makes the estimate exactly 500 miles, whatever the other zip. */
  lemma NonNumericZip(zip: string, other: string, i: int)
    requires 0 <= i < |zip| && i < 3 && !IsIntChar(zip[i])
    ensures EstimateDistance(zip, other) == UnparsedDistance
    ensures EstimateDistance(other, zip) == UnparsedDistance
  {
    var p := zip[..MinInt(3, |zip|)];
    assert p[i] == zip[i];
    ParseRejects(p, i);
  }

  lemma {:induction false} ThreeDigitValue(s: string)
    requires |s| == 3 && IsDigit(s[0]) && IsDigit(s[1]) && IsDigit(s[2])
    ensures LiteralValue(s) == 100 * DigitValue(s[0]) + 10 * DigitValue(s[1]) + DigitValue(s[2])
  {
    assert s[..2][..1] == s[..1];
    assert LiteralValue(s[..1]) == LiteralValue(s[..1][..0]) * 10 + DigitValue(s[0]);
    assert s[..1][..0] == [];
  }

  /** Two zips with parsed prefixes are as far apart as their prefixes. */
  lemma ParsedPrefixes(a: string, b: string, pa: int, pb: int)
    requires ZipPrefix(a) == Some(pa) && ZipPrefix(b) == Some(pb)
    ensures EstimateDistance(a, b) == PrefixDistance(AbsInt(pa - pb))
  {
  }

  /** The number the first three characters of `z` spell as decimal
      digits. */
  function ThreeDigits(z: string): nat
    requires |z| >= 3
  {
    100 * DigitValue(z[0]) + 10 * DigitValue(z[1]) + DigitValue(z[2])
  }

  /** Text made of digits only parses to its decimal value. */
  lemma DigitsParse(s: string)
    requires |s| > 0 && forall i :: 0 <= i < |s| ==> IsDigit(s[i])
    ensures ParseInt(s) == Some(LiteralValue(s))
  {
  }

  /** A zip whose first three characters are digits has those three digits,
      read as a number, for its prefix. */
  lemma DigitPrefix(z: string)
    requires |z| >= 3 && IsDigit(z[0]) && IsDigit(z[1]) && IsDigit(z[2])
    ensures ZipPrefix(z) == Some(ThreeDigits(z))
  {
    var p := z[..3];
    assert z[..MinInt(3, |z|)] == p;
    assert p[0] == z[0] && p[1] == z[1] && p[2] == z[2];
    assert forall i :: 0 <= i < |p| ==> IsDigit(p[i]);
    DigitsParse(p);
    ThreeDigitValue(p);
  }

  /** Two zips that start with three digits, five-digit zips among them, are
      compared by the decimal value of those three digits. */
  lemma DigitZips(a: string, b: string)
    requires |a| >= 3 && IsDigit(a[0]) && IsDigit(a[1]) && IsDigit(a[2])
    requires |b| >= 3 && IsDigit(b[0]) && IsDigit(b[1]) && IsDigit(b[2])
    ensures EstimateDistance(a, b) == PrefixDistance(AbsInt(ThreeDigits(a) - ThreeDigits(b)))
  {
    DigitPrefix(a);
    DigitPrefix(b);
    ParsedPrefixes(a, b, ThreeDigits(a), ThreeDigits(b));
  }

  /** Prefixes 100 and 102 are 100 miles apart, in either order. */
  lemma NearbyPrefixes()
    ensures EstimateDistance("10001", "10234") == 100
    ensures EstimateDistance("10234", "10001") == 100
  {
    var a, b := "10001", "10234";
    assert a[0] == '1' && a[1] == '0' && a[2] == '0';
    assert b[0] == '1' && b[1] == '0' && b[2] == '2';
    DigitZips(a, b);
    DigitZips(b, a);
  }

  /** Prefixes 941 and 100 are further apart than the cap. */
  lemma CappedPrefixes()
    ensures EstimateDistance("94105", "10001") == 3000
  {
    var a, b := "94105", "10001";
    assert a[0] == '9' && a[1] == '4' && a[2] == '1';
    assert b[0] == '1' && b[1] == '0' && b[2] == '0';
    DigitZips(a, b);
  }

  // ---------------------------------------------------------------------
  // Route data

  /** The outcome of the warehouse query: the rows returned (each a column to
      text map, a null column absent), or a failure of the store. */
  datatype WarehouseLookup = LookupFailed | Rows(rows: seq<map<string, string>>)

  datatype DistanceData = DistanceData(
    estimatedMiles: int,
    estimatedDrivingHours: real,
    routeComplexity: string,
    majorCitiesOnRoute: seq<string>,
    borderCrossings: int)

  /** `dict.get(key, '')` on a row. */
  function Field(row: map<string, string>, key: string): string
  {
    if key in row then row[key] else ""
  }

  /** The warehouse zip: that of the first row, or empty without rows. */
  function WarehouseZip(rows: seq<map<string, string>>): string
  {
    if rows == [] then "" else Field(rows[0], "zip")
  }

  /** Average driving speed the route data assumes, in miles per hour. */
  const AverageSpeed: real := 50.0

  /** `_calculate_distance_data` once the warehouse query has been answered.
      On both paths the hours are the miles at 50 mph. */
  function CalculateDistanceData(warehouse: WarehouseLookup, destination: map<string, string>): (d: DistanceData)
    ensures d.estimatedDrivingHours * AverageSpeed == d.estimatedMiles as real
    ensures 0 <= d.estimatedMiles <= 3000 && 0.0 <= d.estimatedDrivingHours <= 60.0
    ensures warehouse.LookupFailed? ==> d.estimatedMiles == 500 && d.estimatedDrivingHours == 10.0
    ensures warehouse.Rows? ==>
      d.estimatedMiles == EstimateDistance(WarehouseZip(warehouse.rows), Field(destination, "zip"))
    ensures d.routeComplexity == "medium" && d.majorCitiesOnRoute == [] && d.borderCrossings == 0
  {
    match warehouse
    case LookupFailed => DistanceData(500, 10.0, "medium", [], 0)
    case Rows(rows) =>
      var miles := EstimateDistance(WarehouseZip(rows), Field(destination, "zip"));
      DistanceData(miles, miles as real / AverageSpeed, "medium", [], 0)
  }

  // ---------------------------------------------------------------------
  // Carrier performance

  datatype CarrierProfile = CarrierProfile(
    onTimeRate: real,
    averageTransitDays: real,
    serviceLevels: map<string, int>)

  const ServiceLevelNames: set<string> := {"standard", "express", "overnight"}

  /** A profile of the carrier table: a rate in [0, 1], and a day count for
      each of the three service levels, faster levels taking no longer. */
  predicate WellFormedProfile(p: CarrierProfile)
  {
    0.0 <= p.onTimeRate <= 1.0 && p.averageTransitDays > 0.0
    && p.serviceLevels.Keys == ServiceLevelNames
    && 1 <= p.serviceLevels["overnight"] <= p.serviceLevels["express"] <= p.serviceLevels["standard"]
  }

  const Carriers: map<string, CarrierProfile> := map[
    "fedex" := CarrierProfile(0.92, 3.2, map["standard" := 4, "express" := 2, "overnight" := 1]),
    "ups" := CarrierProfile(0.89, 3.5, map["standard" := 4, "express" := 2, "overnight" := 1]),
    "usps" := CarrierProfile(0.85, 4.1, map["standard" := 5, "express" := 3, "overnight" := 2])]

  /** The average profile returned for an absent or unknown carrier. */
  const DefaultProfile: CarrierProfile :=
    CarrierProfile(0.89, 3.6, map["standard" := 4, "express" := 2, "overnight" := 1])

  /** `_get_carrier_performance`: the table entry of the carrier's lower-case
      name, and the average profile for no carrier, the empty name or a
      name the table lacks. */
  function CarrierPerformance(carrier: Option<string>): (p: CarrierProfile)
    ensures carrier.Some? && Lower(carrier.value) in Carriers ==> p == Carriers[Lower(carrier.value)]
    ensures carrier.None? || Lower(carrier.value) !in Carriers ==> p == DefaultProfile
    ensures WellFormedProfile(p)
  {
    if carrier.Some? && carrier.value != "" && Lower(carrier.value) in Carriers then
      Carriers[Lower(carrier.value)]
    else
      DefaultProfile
  }

  /** Names that differ only in the case of ASCII letters get the same profile. */
  lemma CarrierCaseInsensitive(a: string, b: string)
    requires Lower(a) == Lower(b)
    ensures CarrierPerformance(Some(a)) == CarrierPerformance(Some(b))
  {
  }

  /** The standard level of an unknown carrier is 4 days. */
  lemma UnknownCarrierStandard(carrier: Option<string>)
    requires carrier.Some? ==> Lower(carrier.value) !in Carriers
    ensures CarrierPerformance(carrier) == DefaultProfile
    ensures CarrierPerformance(carrier).serviceLevels["standard"] == 4
  {
  }

  /** Carrier names are looked up case-insensitively: "FedEx" finds the
      "fedex" entry. */
  lemma MixedCaseFedEx()
    ensures CarrierPerformance(Some("FedEx")) == Carriers["fedex"]
  {
    assert Lower("FedEx") == "fedex";
  }

  /** "UPS" finds the "ups" entry. */
  lemma UpperCaseUps()
    ensures CarrierPerformance(Some("UPS")).onTimeRate == 0.89
  {
    assert Lower("UPS") == "ups";
  }

  /** "USPS" finds the "usps" entry. */
  lemma UpperCaseUsps()
    ensures CarrierPerformance(Some("USPS")).serviceLevels["standard"] == 5
  {
    assert Lower("USPS") == "usps";
  }

  /** A carrier outside the table, whatever its case, gets the default. */
  lemma UnknownUpperCaseName()
    ensures CarrierPerformance(Some("DHL")) == DefaultProfile
  {
    var dhl := Lower("DHL");
    assert dhl[0] == 'd';
    assert dhl != "fedex" && dhl != "ups" && dhl != "usps";
  }

  /** `service_levels.get('standard', 4)`. */
  function StandardDays(p: CarrierProfile): int
  {
    if "standard" in p.serviceLevels then p.serviceLevels["standard"] else 4
  }

  // ---------------------------------------------------------------------
  // Repair of the oracle's prediction

  /** What the oracle is given and the result is repaired with. The weather
      stub is not part of it: nothing reads it but the prompt. */
  datatype DeliveryContext = DeliveryContext(
    historicalDeliveries: seq<map<string, string>>,
    carrierPerformance: CarrierProfile,
    distanceData: DistanceData)

  const DefaultCarrierRecommendation: string := "FedEx"

  const DefaultFactors: seq<string> := [
    "Historical performance data",
    "Distance and route complexity",
    "Carrier performance metrics",
    "Weather conditions",
    "Service level requirements"]

  /** The date assumed when the oracle gives none: the carrier's standard
      service level, in days from now. */
  function FallbackDeliveryDate(p: CarrierProfile, now: Timestamp): (date: Timestamp)
    ensures WholeDays(now, date) == StandardDays(p)
    ensures WellFormedProfile(p) ==> date > now
  {
    WholeDaysOfDayOffset(now, StandardDays(p));
    now + StandardDays(p) * SecondsPerDay
  }

  /** `_enhance_prediction_result`: each of the five fields that the oracle
      left unset or zero is filled in; the transit days are taken from the
      delivery date as it stands after the first rule. */
  method EnhancePredictionResult(result: DeliveryPredictionResponse, context: DeliveryContext, now: Timestamp)
    modifies result
    ensures result.estimatedDeliveryDate ==
      if old(result.estimatedDeliveryDate).None?
      then Some(FallbackDeliveryDate(context.carrierPerformance, now))
      else old(result.estimatedDeliveryDate)
    ensures result.confidenceScore ==
      if old(result.confidenceScore) == 0.0 then 0.8 else old(result.confidenceScore)
    ensures result.transitDays ==
      if old(result.transitDays) == 0
      then WholeDays(now, result.estimatedDeliveryDate.value)
      else old(result.transitDays)
    ensures old(result.estimatedDeliveryDate).None? && old(result.transitDays) == 0 ==>
      result.transitDays == StandardDays(context.carrierPerformance)
    ensures result.carrierRecommendation ==
      if old(result.carrierRecommendation) == "" then DefaultCarrierRecommendation
      else old(result.carrierRecommendation)
    ensures result.factorsConsidered ==
      if old(result.factorsConsidered) == [] then DefaultFactors else old(result.factorsConsidered)
    ensures result.alternativeOptions == old(result.alternativeOptions)
  {
    if result.estimatedDeliveryDate.None? {
      var baseDays := StandardDays(context.carrierPerformance);
      result.estimatedDeliveryDate := Some(now + baseDays * SecondsPerDay);
    }
    if result.confidenceScore == 0.0 {
      result.confidenceScore := 0.8;
    }
    if result.transitDays == 0 {
      result.transitDays := WholeDays(now, result.estimatedDeliveryDate.value);
    }
    if result.carrierRecommendation == "" {
      result.carrierRecommendation := DefaultCarrierRecommendation;
    }
    if result.factorsConsidered == [] {
      result.factorsConsidered := DefaultFactors;
    }
  }

  /** `predict_delivery`: the stored history, the warehouse query's outcome
      and the oracle's unrepaired answer are parameters; the result is that
      answer, repaired with the context built from them. The requested
      service level only reaches the prompt: the fallback date always uses
      the standard level. */
  method PredictDelivery(destination: map<string, string>, carrier: Option<string>,
                         history: seq<map<string, string>>, warehouse: WarehouseLookup,
                         answer: DeliveryPredictionResponse, now: Timestamp)
    returns (result: DeliveryPredictionResponse, context: DeliveryContext)
    modifies answer
    ensures result == answer
    ensures context.historicalDeliveries == history
    ensures context.carrierPerformance == CarrierPerformance(carrier)
    ensures context.distanceData == CalculateDistanceData(warehouse, destination)
    ensures result.estimatedDeliveryDate ==
      if old(answer.estimatedDeliveryDate).None?
      then Some(FallbackDeliveryDate(CarrierPerformance(carrier), now))
      else old(answer.estimatedDeliveryDate)
    ensures result.confidenceScore ==
      if old(answer.confidenceScore) == 0.0 then 0.8 else old(answer.confidenceScore)
    ensures result.transitDays ==
      if old(answer.transitDays) == 0
      then WholeDays(now, result.estimatedDeliveryDate.value)
      else old(answer.transitDays)
    ensures result.carrierRecommendation ==
      if old(answer.carrierRecommendation) == "" then DefaultCarrierRecommendation
      else old(answer.carrierRecommendation)
    ensures result.factorsConsidered ==
      if old(answer.factorsConsidered) == [] then DefaultFactors else old(answer.factorsConsidered)
    ensures result.alternativeOptions == old(answer.alternativeOptions)
  {
    var performance := CarrierPerformance(carrier);
    var distance := CalculateDistanceData(warehouse, destination);
    context := DeliveryContext(history, performance, distance);
    EnhancePredictionResult(answer, context, now);
    result := answer;
  }

  /** With no date and no transit days from the oracle, an unknown carrier's
      shipment is due in 4 days and a USPS one in 5. */
  lemma FallbackDays(now: Timestamp)
    ensures WholeDays(now, FallbackDeliveryDate(CarrierPerformance(None), now)) == 4
    ensures WholeDays(now, FallbackDeliveryDate(CarrierPerformance(Some("usps")), now)) == 5
  {
    assert Lower("usps") == "usps";
  }
}
