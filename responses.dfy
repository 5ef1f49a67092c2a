/** Shapes of the structured objects that the reasoning oracle returns
    (ai-service/models/responses.py). The three response objects are
    classes, because the agents' normalisers repair them in place; their
    items are values. A datetime field that the normalisers may find unset
    is an `Option`. */
module Responses {
  import opened Common

  datatype DemandForecastItem = DemandForecastItem(
    productId: string,
    warehouseId: Option<string>,
    date: Timestamp,
    predictedDemand: real,
    confidenceScore: real,
    seasonalFactor: Option<real>)

  class DemandForecastResponse {
    var forecasts: seq<DemandForecastItem>
    var modelAccuracy: real
    var generatedAt: Timestamp
    var forecastHorizonDays: int

    constructor (forecasts: seq<DemandForecastItem>, modelAccuracy: real,
                 generatedAt: Timestamp, forecastHorizonDays: int)
      ensures this.forecasts == forecasts && this.modelAccuracy == modelAccuracy
      ensures this.generatedAt == generatedAt && this.forecastHorizonDays == forecastHorizonDays
    {
      this.forecasts := forecasts;
      this.modelAccuracy := modelAccuracy;
      this.generatedAt := generatedAt;
      this.forecastHorizonDays := forecastHorizonDays;
    }
  }

  /** `alternative_options` holds free-form dictionaries; their values are
      kept as text here, since no computation looks inside them. */
  class DeliveryPredictionResponse {
    var estimatedDeliveryDate: Option<Timestamp>
    var confidenceScore: real
    var transitDays: int
    var carrierRecommendation: string
    var factorsConsidered: seq<string>
    var alternativeOptions: Option<seq<map<string, string>>>

    constructor (estimatedDeliveryDate: Option<Timestamp>, confidenceScore: real,
                 transitDays: int, carrierRecommendation: string,
                 factorsConsidered: seq<string>,
                 alternativeOptions: Option<seq<map<string, string>>>)
      ensures this.estimatedDeliveryDate == estimatedDeliveryDate
      ensures this.confidenceScore == confidenceScore && this.transitDays == transitDays
      ensures this.carrierRecommendation == carrierRecommendation
      ensures this.factorsConsidered == factorsConsidered
      ensures this.alternativeOptions == alternativeOptions
    {
      this.estimatedDeliveryDate := estimatedDeliveryDate;
      this.confidenceScore := confidenceScore;
      this.transitDays := transitDays;
      this.carrierRecommendation := carrierRecommendation;
      this.factorsConsidered := factorsConsidered;
      this.alternativeOptions := alternativeOptions;
    }
  }

  /** `severity` is one of "low", "medium", "high", "critical" by convention
      only; the schema does not restrict it. */
  datatype AnomalyItem = AnomalyItem(
    anomalyType: string,
    severity: string,
    description: string,
    affectedEntities: seq<string>,
    detectedAt: Timestamp,
    recommendation: Option<string>)

  class AnomalyDetectionResponse {
    var anomalies: seq<AnomalyItem>
    var totalAnomalies: int
    var analysisPeriod: map<string, Timestamp>
    var modelConfidence: real
    var nextCheckRecommended: Option<Timestamp>

    constructor (anomalies: seq<AnomalyItem>, totalAnomalies: int,
                 analysisPeriod: map<string, Timestamp>, modelConfidence: real,
                 nextCheckRecommended: Option<Timestamp>)
      ensures this.anomalies == anomalies && this.totalAnomalies == totalAnomalies
      ensures this.analysisPeriod == analysisPeriod && this.modelConfidence == modelConfidence
      ensures this.nextCheckRecommended == nextCheckRecommended
    {
      this.anomalies := anomalies;
      this.totalAnomalies := totalAnomalies;
      this.analysisPeriod := analysisPeriod;
      this.modelConfidence := modelConfidence;
      this.nextCheckRecommended := nextCheckRecommended;
    }
  }
}
