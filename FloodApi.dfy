/** The HTTP endpoints' decision logic: gating on the loaded models, the fixed
    fallback weather and prediction records, the single-ward response, the
    all-wards batch with its summary, and the current-weather endpoint that
    never fails.

    The two module-level globals, assigned once at startup, are the value
    `Globals`. Network answers, the forest's raw outputs, the month and the hour
    are parameters. Timestamps are not modelled. */
module FloodApi {
  import opened Wrappers
  import opened Text
  import opened Weather
  import opened FloodModels

  datatype HttpError = HttpError(status: int, detail: string)

  /** `flood_system` and `weather_service`; `None` when their construction failed. */
  datatype Globals = Globals(floodSystem: Option<FloodSystem>, weatherService: Option<DataService>)

  /** The objects an endpoint reads: the clustering model of the flood system. */
  function ModelFrame(g: Globals): set<object> {
    if g.floodSystem.Some? then {g.floodSystem.value.clustering} else {}
  }

  /** `FloodPredictionResponse`. */
  datatype Response = Response(
    wardCode: string,
    wardName: string,
    wardRiskZone: string,
    randomForest: ForestPrediction,
    bayesianProbability: real,
    combined: CombinedAssessment,
    weather: CompleteWeather)

  // ------------------------------------------------------ fallback records

  /** The weather dictionary the single-ward endpoint uses without a weather
      service: a moderate monsoon reading at Mumbai's centre. The code is
      upper-cased but the name keeps the code as requested. */
  function FallbackWeatherRecord(code: string): (w: CompleteWeather)
    ensures w.weather.season == Monsoon && w.weather.rainfallMm == 5.0 && w.rainfall24hr == 10.0
    ensures w.tideLevelM == 2.0 && w.highTideM == 4.2 && w.lowTideM == 0.6
    ensures w.wardCode == Upper(code) && w.wardName == "Ward " + code
    ensures w.lat == DefaultLat && w.lon == DefaultLon
  {
    CompleteWeather(
      WeatherRecord(5.0, 28.0, 80.0, 15.0, Monsoon, "Fallback weather data"),
      10.0, 2.0, HighTideM, LowTideM, Upper(code), "Ward " + code, DefaultLat, DefaultLon)
  }

  /** The prediction the single-ward endpoint substitutes when predicting
      raises: forest level 0 without flood, zone "Medium Risk", probability 0.3,
      not high-risk, Medium confidence with score 0.5. */
  function FallbackPrediction(code: string): (p: Prediction)
    ensures p.wardCode == Upper(code) && p.wardRiskZone == "Medium Risk"
    ensures p.randomForest.floodRiskLevel == 0 && !p.randomForest.willFlood
    ensures p.bayesianProbability == 0.3
    ensures !p.combined.highRisk && p.combined.confidence == Medium && p.combined.confidenceScore == 0.5
  {
    Prediction(Upper(code), "Medium Risk", ForestPrediction(0, false, 0.7, 0.2, 0.1), 0.3,
               CombinedAssessment(false, Medium, 0.5))
  }

  /** The fallback prediction obeys the combined-assessment rules for its
      flood flag, its high-risk flag and its confidence band, but its score 0.5
      is not the mean (0.2) of its High-class and Bayesian probabilities, which
      would be banded Low. */
  lemma FallbackPredictionRules(code: string)
    ensures var p := FallbackPrediction(code);
      && (p.randomForest.willFlood <==> p.randomForest.floodRiskLevel >= 1)
      && (p.combined.highRisk <==> p.randomForest.floodRiskLevel >= 2 || p.bayesianProbability > 0.7)
      && p.combined.confidence == ConfidenceLevel(p.combined.confidenceScore)
      && (p.randomForest.high + p.bayesianProbability) / 2.0 == 0.2
      && ConfidenceLevel((p.randomForest.high + p.bayesianProbability) / 2.0) == Low
  {
  }

  // ----------------------------------------------------- single-ward path

  /** The fields of a complete weather record the models read. */
  function ModelInput(w: CompleteWeather): WeatherInput {
    WeatherInput(Some(w.weather.rainfallMm), Some(w.tideLevelM), Some(SeasonName(w.weather.season)))
  }

  function Respond(code: string, weather: CompleteWeather, p: Prediction): Response {
    Response(code, weather.wardName, p.wardRiskZone, p.randomForest, p.bayesianProbability, p.combined, weather)
  }

  /** The weather the single-ward endpoint predicts from: the service's record
      for the upper-cased code, or the fixed fallback without a service. The
      service cannot raise here, so its `except` branch is never taken. */
  function WardWeather(g: Globals, code: string, feed: WardFeed, month: int, hour: nat): (w: CompleteWeather)
    ensures w.wardCode == Upper(code)
    ensures 0.8 <= w.tideLevelM <= 3.5
    ensures g.weatherService.Some? ==> w == CompleteWeatherData(g.weatherService.value, Upper(code), feed, month, hour)
    ensures g.weatherService.None? ==> w == FallbackWeatherRecord(code)
  {
    match g.weatherService
    case Some(service) => CompleteWeatherData(service, Upper(code), feed, month, hour)
    case None => FallbackWeatherRecord(code)
  }

  /** `POST /predict/ward/{code}`: 503 without models; otherwise the models'
      prediction for the upper-cased code, or the fixed fallback prediction when
      predicting raises. */
  function PredictFloodForWard(g: Globals, code: string, feed: WardFeed, forest: Option<ForestRaw>,
                               month: int, hour: nat): (r: Result<Response, HttpError>)
    reads ModelFrame(g)
    ensures r.Err? <==> g.floodSystem.None?
    ensures r.Err? ==> r.error.status == 503
    ensures r.Ok? ==> r.value.wardCode == Upper(code) && r.value.weather.wardCode == Upper(code)
    ensures r.Ok? && g.weatherService.None? ==> r.value.weather == FallbackWeatherRecord(code)
    ensures r.Ok? ==> 0.15 <= r.value.bayesianProbability <= 0.73
    ensures r.Ok? ==> (r.value.combined.highRisk <==>
                         r.value.randomForest.floodRiskLevel >= 2 || r.value.bayesianProbability > 0.7)
    ensures r.Ok? && g.floodSystem.value.networkLoaded ==>
              r.value == Respond(Upper(code), r.value.weather, FallbackPrediction(code))
    ensures r.Ok? ==>
              var w := WardWeather(g, code, feed, month, hour);
              var p := PredictFloodRisk(g.floodSystem.value, ModelInput(w), Upper(code), forest);
              r.value == Respond(Upper(code), w, if p.Ok? then p.value else FallbackPrediction(code))
  {
    match g.floodSystem
    case None => Err(HttpError(503, "Flood prediction models not initialized"))
    case Some(sys) =>
      var weather := WardWeather(g, code, feed, month, hour);
      var prediction :=
        match PredictFloodRisk(sys, ModelInput(weather), Upper(code), forest)
        case Ok(p) => p
        case Err(_) => FallbackPrediction(code);
      Ok(Respond(Upper(code), weather, prediction))
  }

  /** The mock tide never reaches 4 m, so in this endpoint `high_risk` is set
      by the forest alone. */
  lemma WardHighRiskIsForestLevel(g: Globals, code: string, feed: WardFeed, forest: Option<ForestRaw>,
                                  month: int, hour: nat)
    requires PredictFloodForWard(g, code, feed, forest, month, hour).Ok?
    ensures var r := PredictFloodForWard(g, code, feed, forest, month, hour).value;
      r.combined.highRisk <==> r.randomForest.floodRiskLevel >= 2
  {
    var w := WardWeather(g, code, feed, month, hour);
    var sys := g.floodSystem.value;
    if PredictFloodRisk(sys, ModelInput(w), Upper(code), forest).Ok? {
      HighRiskNeedsHighTide(sys, ModelInput(w), Upper(code), forest);
    }
  }

  // ------------------------------------------------------------ the batch

  datatype Summary = Summary(
    totalWards: nat,
    highRiskWards: nat,
    mediumRiskWards: nat,
    lowRiskWards: nat,
    averageBayesianProbability: real)

  datatype Batch = Batch(predictions: seq<Response>, summary: Summary)

  /** One ward of the batch: its response, or nothing when its prediction
      raises. */
  function Attempt(sys: FloodSystem, entry: (string, CompleteWeather), forests: string -> Option<ForestRaw>): Option<Response>
    reads sys.clustering
  {
    var (code, weather) := entry;
    match PredictFloodRisk(sys, ModelInput(weather), code, forests(code))
    case Ok(p) => Some(Respond(code, weather, p))
    case Err(_) => None
  }

  /** The responses of the wards whose prediction succeeds, in ward order; a
      ward whose prediction raises is skipped. */
  function BatchPredictions(sys: FloodSystem, entries: seq<(string, CompleteWeather)>,
                            forests: string -> Option<ForestRaw>): seq<Response>
    reads sys.clustering
  {
    if entries == [] then []
    else
      var rest := BatchPredictions(sys, entries[..|entries| - 1], forests);
      match Attempt(sys, entries[|entries| - 1], forests)
      case Some(response) => rest + [response]
      case None => rest
  }

  /** One more entry extends the batch by that entry's response, if any. */
  lemma BatchStep(sys: FloodSystem, entries: seq<(string, CompleteWeather)>, forests: string -> Option<ForestRaw>, i: nat)
    requires i < |entries|
    ensures BatchPredictions(sys, entries[..i + 1], forests)
         == BatchPredictions(sys, entries[..i], forests)
            + (if Attempt(sys, entries[i], forests).Some? then [Attempt(sys, entries[i], forests).value] else [])
  {
    assert entries[..i + 1][..i] == entries[..i];
  }

  function CountHighRisk(preds: seq<Response>): nat {
    if preds == [] then 0
    else CountHighRisk(preds[..|preds| - 1]) + (if preds[|preds| - 1].combined.highRisk then 1 else 0)
  }

  /** One more response adds one to the high-risk count exactly when it is high-risk. */
  lemma CountHighRiskAppend(preds: seq<Response>, response: Response)
    ensures CountHighRisk(preds + [response]) == CountHighRisk(preds) + (if response.combined.highRisk then 1 else 0)
  {
    assert (preds + [response])[..|preds|] == preds;
  }

  function CountLevel(preds: seq<Response>, level: int): nat {
    if preds == [] then 0
    else CountLevel(preds[..|preds| - 1], level) + (if preds[|preds| - 1].randomForest.floodRiskLevel == level then 1 else 0)
  }

  function SumProbability(preds: seq<Response>): real {
    if preds == [] then 0.0
    else SumProbability(preds[..|preds| - 1]) + preds[|preds| - 1].bayesianProbability
  }

  function MeanProbability(preds: seq<Response>): real {
    if preds == [] then 0.0 else SumProbability(preds) / (|preds| as real)
  }

  function Summarize(preds: seq<Response>): Summary {
    Summary(|preds|, CountHighRisk(preds), CountLevel(preds, 1), CountLevel(preds, 0), MeanProbability(preds))
  }

  /** The loop of `GET /predict/all-wards`: predicts ward by ward, keeping the
      responses that succeed and counting the high-risk ones as it goes. */
  method CollectPredictions(sys: FloodSystem, all: seq<(string, CompleteWeather)>,
                            forests: string -> Option<ForestRaw>)
    returns (predictions: seq<Response>, highRiskCount: nat)
    ensures predictions == BatchPredictions(sys, all, forests)
    ensures highRiskCount == CountHighRisk(predictions)
  {
    predictions := [];
    highRiskCount := 0;
    var i := 0;
    while i < |all|
      invariant 0 <= i <= |all|
      invariant predictions == BatchPredictions(sys, all[..i], forests)
      invariant highRiskCount == CountHighRisk(predictions)
    {
      var attempt := Attempt(sys, all[i], forests);
      BatchStep(sys, all, forests, i);
      if attempt.Some? {
        var response := attempt.value;
        CountHighRiskAppend(predictions, response);
        predictions := predictions + [response];
        if response.combined.highRisk {
          highRiskCount := highRiskCount + 1;
        }
      }
      i := i + 1;
    }
    assert all[..i] == all;
  }

  /** `GET /predict/all-wards`: 503 unless both the models and the weather
      service are loaded; otherwise one response per ward whose prediction
      succeeds, and the summary over them. */
  method PredictAllWards(g: Globals, feeds: string -> WardFeed, forests: string -> Option<ForestRaw>,
                         month: int, hour: nat) returns (r: Result<Batch, HttpError>)
    ensures r.Err? <==> g.floodSystem.None? || g.weatherService.None?
    ensures r.Err? ==> r.error.status == 503
    ensures r.Ok? ==>
              r.value.predictions ==
              BatchPredictions(g.floodSystem.value, AllWardsWeather(g.weatherService.value, feeds, month, hour), forests)
    ensures r.Ok? ==> r.value.summary == Summarize(r.value.predictions)
  {
    if g.floodSystem.None? || g.weatherService.None? {
      return Err(HttpError(503, "Models not initialized"));
    }
    var all := GetWeatherForAllWards(g.weatherService.value, feeds, month, hour);
    var predictions, highRiskCount := CollectPredictions(g.floodSystem.value, all, forests);
    var summary := Summary(|predictions|, highRiskCount, CountLevel(predictions, 1), CountLevel(predictions, 0),
                           if |predictions| > 0 then SumProbability(predictions) / (|predictions| as real) else 0.0);
    r := Ok(Batch(predictions, summary));
  }

  lemma {:induction false} CountsBounded(preds: seq<Response>)
    ensures CountHighRisk(preds) <= |preds|
    ensures CountLevel(preds, 1) + CountLevel(preds, 0) <= |preds|
  {
    if preds != [] {
      CountsBounded(preds[..|preds| - 1]);
    }
  }

  predicate ProbabilitiesWithin(preds: seq<Response>, lo: real, hi: real) {
    forall k :: 0 <= k < |preds| ==> lo <= preds[k].bayesianProbability <= hi
  }

  lemma {:induction false} SumWithin(preds: seq<Response>, lo: real, hi: real)
    requires ProbabilitiesWithin(preds, lo, hi)
    ensures lo * (|preds| as real) <= SumProbability(preds) <= hi * (|preds| as real)
  {
    if preds != [] {
      var front := preds[..|preds| - 1];
      assert ProbabilitiesWithin(front, lo, hi) by {
        forall k | 0 <= k < |front| ensures lo <= front[k].bayesianProbability <= hi {
          assert front[k] == preds[k];
        }
      }
      SumWithin(front, lo, hi);
    }
  }

  /** The mean of probabilities that all lie in [lo, hi] lies there too. */
  lemma MeanWithin(preds: seq<Response>, lo: real, hi: real)
    requires preds != []
    requires ProbabilitiesWithin(preds, lo, hi)
    ensures lo <= MeanProbability(preds) <= hi
  {
    SumWithin(preds, lo, hi);
    var n := |preds| as real;
    var sum := SumProbability(preds);
    assert MeanProbability(preds) - lo == (sum - lo * n) / n;
    assert hi - MeanProbability(preds) == (hi * n - sum) / n;
  }

  /** Every response of the batch carries a fallback probability, each ward
      contributes at most one response, and with a fitted Bayesian network
      every prediction raises, so the batch is empty. */
  lemma {:induction false} BatchFacts(sys: FloodSystem, entries: seq<(string, CompleteWeather)>,
                                      forests: string -> Option<ForestRaw>)
    ensures ProbabilitiesWithin(BatchPredictions(sys, entries, forests), 0.15, 0.73)
    ensures |BatchPredictions(sys, entries, forests)| <= |entries|
    ensures sys.networkLoaded ==> BatchPredictions(sys, entries, forests) == []
  {
    if entries != [] {
      BatchFacts(sys, entries[..|entries| - 1], forests);
    }
  }

  /** Every response is high-risk exactly when its forest level is at least 2. */
  predicate HighRiskIsForestLevel(preds: seq<Response>) {
    forall k :: 0 <= k < |preds| ==> (preds[k].combined.highRisk <==> preds[k].randomForest.floodRiskLevel >= 2)
  }

  /** With no entry at a 4 m tide, every batch response is high-risk exactly
      when its forest level is at least 2. */
  lemma {:induction false} BatchHighRiskIsForestLevel(sys: FloodSystem, entries: seq<(string, CompleteWeather)>,
                                                      forests: string -> Option<ForestRaw>)
    requires forall i :: 0 <= i < |entries| ==> entries[i].1.tideLevelM < 4.0
    ensures HighRiskIsForestLevel(BatchPredictions(sys, entries, forests))
  {
    if entries != [] {
      var last := entries[|entries| - 1];
      var rest := entries[..|entries| - 1];
      assert forall i :: 0 <= i < |rest| ==> rest[i] == entries[i];
      BatchHighRiskIsForestLevel(sys, rest, forests);
      var p := PredictFloodRisk(sys, ModelInput(last.1), last.0, forests(last.0));
      if p.Ok? {
        HighRiskNeedsHighTide(sys, ModelInput(last.1), last.0, forests(last.0));
        var preds := BatchPredictions(sys, entries, forests);
        assert preds == BatchPredictions(sys, rest, forests) + [Respond(last.0, last.1, p.value)];
      }
    }
  }

  /** The number of responses whose forest level is at least 2. */
  function CountForestHigh(preds: seq<Response>): nat {
    if preds == [] then 0
    else CountForestHigh(preds[..|preds| - 1]) + (if preds[|preds| - 1].randomForest.floodRiskLevel >= 2 then 1 else 0)
  }

  /** When each response is high-risk exactly at forest level 2 or above, the
      high-risk count is the count of those levels. */
  lemma {:induction false} HighRiskCountIsForestCount(preds: seq<Response>)
    requires HighRiskIsForestLevel(preds)
    ensures CountHighRisk(preds) == CountForestHigh(preds)
  {
    if preds != [] {
      var rest := preds[..|preds| - 1];
      assert forall k :: 0 <= k < |rest| ==> rest[k] == preds[k];
      HighRiskCountIsForestCount(rest);
    }
  }

  /** In the all-wards batch each response is high-risk exactly when the
      forest puts its ward at level 2 or above, since the mock tide stays below
      4 m. */
  lemma AllWardsHighRiskIsForestLevel(sys: FloodSystem, service: DataService, feeds: string -> WardFeed,
                                      forests: string -> Option<ForestRaw>, month: int, hour: nat)
    ensures HighRiskIsForestLevel(BatchPredictions(sys, AllWardsWeather(service, feeds, month, hour), forests))
  {
    BatchHighRiskIsForestLevel(sys, AllWardsWeather(service, feeds, month, hour), forests);
  }

  /** So, with no entry at a 4 m tide, the batch's count of high-risk wards
      (the summary's `high_risk_wards`) is the number of wards the forest puts
      at level 2 or above. */
  lemma BatchHighRiskCount(sys: FloodSystem, entries: seq<(string, CompleteWeather)>,
                           forests: string -> Option<ForestRaw>)
    requires forall i :: 0 <= i < |entries| ==> entries[i].1.tideLevelM < 4.0
    ensures CountHighRisk(BatchPredictions(sys, entries, forests)) == CountForestHigh(BatchPredictions(sys, entries, forests))
  {
    var preds := BatchPredictions(sys, entries, forests);
    BatchHighRiskIsForestLevel(sys, entries, forests);
    HighRiskCountIsForestCount(preds);
  }

  /** So the all-wards count of high-risk wards (the summary's
      `high_risk_wards`) is the number of wards the forest puts at level 2 or
      above. */
  lemma AllWardsHighRiskCount(sys: FloodSystem, service: DataService, feeds: string -> WardFeed,
                              forests: string -> Option<ForestRaw>, month: int, hour: nat)
    ensures var preds := BatchPredictions(sys, AllWardsWeather(service, feeds, month, hour), forests);
      Summarize(preds).highRiskWards == CountForestHigh(preds)
  {
    var preds := BatchPredictions(sys, AllWardsWeather(service, feeds, month, hour), forests);
    AllWardsHighRiskIsForestLevel(sys, service, feeds, forests, month, hour);
    HighRiskCountIsForestCount(preds);
  }

  /** The summary's counts never exceed the number of responses, and the
      average probability is 0 for an empty batch and otherwise lies in
      [0.15, 0.73]. With a fitted network the batch summary is all zeros. */
  lemma BatchSummaryBounds(sys: FloodSystem, entries: seq<(string, CompleteWeather)>,
                           forests: string -> Option<ForestRaw>)
    ensures var s := Summarize(BatchPredictions(sys, entries, forests));
      && s.highRiskWards <= s.totalWards
      && s.mediumRiskWards + s.lowRiskWards <= s.totalWards
      && s.totalWards <= |entries|
      && (s.totalWards == 0 ==> s.averageBayesianProbability == 0.0)
      && (s.totalWards > 0 ==> 0.15 <= s.averageBayesianProbability <= 0.73)
      && (sys.networkLoaded ==> s == Summary(0, 0, 0, 0, 0.0))
  {
    var preds := BatchPredictions(sys, entries, forests);
    BatchFacts(sys, entries, forests);
    CountsBounded(preds);
    if |preds| > 0 {
      MeanWithin(preds, 0.15, 0.73);
    }
  }

  // ---------------------------------------------------- current weather

  /** The record returned when even the fallback service cannot be built. */
  function UnavailableWeatherRecord(code: string): (w: CompleteWeather)
    ensures w.weather.rainfallMm == 0.0 && w.weather.temperatureC == 25.0 && w.weather.humidityPct == 70.0
    ensures w.tideLevelM == 2.0 && w.rainfall24hr == 0.0
    ensures w.wardCode == Upper(code) && w.wardName == "Ward " + code
  {
    CompleteWeather(
      WeatherRecord(0.0, 25.0, 70.0, 10.0, Monsoon, "Weather service unavailable"),
      0.0, 2.0, HighTideM, LowTideM, Upper(code), "Ward " + code, DefaultLat, DefaultLon)
  }

  /** `GET /weather/current/{code}`. With the service: its record for the
      upper-cased code. Without it, a new `WeatherService` is built for its
      seasonal fallback, padded with the fixed tide and the default location;
      building it raises when no API key is configured, and the endpoint then
      answers with a fixed record instead of failing. */
  function GetCurrentWeather(g: Globals, code: string, feed: WardFeed, apiKeyConfigured: bool,
                             month: int, hour: nat): (w: CompleteWeather)
    ensures w.wardCode == Upper(code)
    ensures 0.8 <= w.tideLevelM <= 3.5 && w.highTideM == 4.2 && w.lowTideM == 0.6
    ensures g.weatherService.None? && apiKeyConfigured ==>
              w.weather == FallbackWeather(month) && w.rainfall24hr == w.weather.rainfallMm &&
              w.tideLevelM == 2.0 && w.wardName == "Ward " + code
    ensures g.weatherService.None? && !apiKeyConfigured ==> w == UnavailableWeatherRecord(code)
    ensures g.weatherService.Some? ==> w == CompleteWeatherData(g.weatherService.value, Upper(code), feed, month, hour)
  {
    match g.weatherService
    case Some(service) => CompleteWeatherData(service, Upper(code), feed, month, hour)
    case None =>
      if apiKeyConfigured then
        var fallback := FallbackWeather(month);
        CompleteWeather(fallback, fallback.rainfallMm, 2.0, HighTideM, LowTideM,
                        Upper(code), "Ward " + code, DefaultLat, DefaultLon)
      else UnavailableWeatherRecord(code)
  }
}
