# Mumbai flood prediction backend: the rule layer

This Dafny project models the deterministic decision rules of the Mumbai
flood-prediction backend, the layer between its three models and its HTTP
API:

- **Combined risk assessment** (`Backend/models/flood_prediction_models.py`):
  - rainfall and tide are bucketed by fixed thresholds;
  - the Bayesian model's weighted fallback probability;
  - the random forest's result dictionary;
  - the ward clustering's ranking of clusters into risk zones, and its per-ward lookup;
  - the confidence band and the `high_risk` flag of `predict_flood_risk`.
- **Weather and tide derivation** (`Backend/services/weather_service_fixed.py`):
  - season by calendar month, and the seasonal fallback reading;
  - parsing an OpenWeatherMap response, with m/s converted to km/h;
  - the 24-hour rainfall estimate over at most eight forecast slots;
  - the mock tide by hour of day;
  - the ward coordinate table;
  - the complete per-ward record and the all-wards table.
- **API defaulting** (`Backend/api/flood_prediction_api.py`):
  - the 503 gates on the two startup globals;
  - the fixed fallback weather and prediction records;
  - the single-ward response;
  - the all-wards batch and its summary;
  - the current-weather endpoint, which never fails.

Modules, one per source file plus two helpers:

- `Wrappers` holds `Option` (a missing dictionary key or a Python `None`) and
  `Result` (a call that returns or raises).
- `Text` holds ASCII upper- and lower-casing.
- `Weather` holds the weather service.
- `FloodModels` holds the models' rules. `WardClusteringModel` is a class,
  because `train` updates its fields in a loop and `get_ward_risk_zone` reads
  them later.
- `FloodApi` holds the endpoints.

The numerical libraries are opaque and appear as inputs:

- the forest's predicted level and class probabilities, as `ForestRaw`, or
  `None` when the library call raises;
- the k-means labels of the wards;
- the per-cluster mean flood frequencies;
- the order the library sort puts the clusters in. Ties may come in any order.

The environment also enters as parameters:

- each network response, as `WardFeed`; `None` stands for a request that raised;
- the month and the hour instead of `datetime.now()`;
- whether an API key is configured.

Numbers are exact `real`s. `round(x, 2)` is not modelled.

The source behaves in several ways worth knowing. The model keeps each one as
written and proves it:

- `BayesianFloodModel.predict_probability` returns a value only when no network
  is loaded. With a fitted network it ends without a `return` and yields `None`.
  `predict_flood_risk` then raises when it adds that `None` to the forest's
  probability. `FloodModels.PredictFloodRisk` states that it succeeds exactly
  when no network is loaded and the forest answers. So with a network loaded:
  - the single-ward endpoint always returns the fixed fallback prediction
    (`FloodApi.PredictFloodForWard`);
  - the batch is always empty, with an all-zero summary
    (`FloodApi.BatchSummaryBounds`).
- The fallback probability always lies in [0.15, 0.73], so its `min(prob, 1.0)`
  cap never takes effect. It exceeds the 0.7 high-risk threshold in exactly one
  case: a "Very High Risk" zone, High rain, High tide and the monsoon
  (`FloodModels.FallbackAboveThresholdIff`). Below forest level 2, `high_risk`
  therefore needs all four worst-case inputs
  (`FloodModels.HighRiskWithoutForest`).
- The mock tide never exceeds 3.5 m, so the tide is never bucketed "High". In
  both prediction endpoints the Bayesian "> 0.7" test therefore never fires, and
  `high_risk` is decided by the forest level alone
  (`FloodApi.WardHighRiskIsForestLevel`, `FloodApi.AllWardsHighRiskIsForestLevel`).
  The batch summary's `high_risk_wards` is then the number of wards at forest
  level 2 or above (`FloodApi.AllWardsHighRiskCount`).
- The mock tide's interpolation `2.0 + 0.3 * (hour mod 6)` reaches the 3.5 m
  "high tide" at 5, 11, 17 and 23 h as well as at 2 and 14 h
  (`Weather.TideExtremes`).
- The fallback prediction's confidence score is 0.5 ("Medium"). The score
  computed from its own probabilities, (0.1 + 0.3) / 2 = 0.2, would be banded
  "Low" (`FloodApi.FallbackPredictionRules`).
- The fallback weather records upper-case `ward_code`, but `ward_name` keeps the
  code as it was requested (`FloodApi.FallbackWeatherRecord`).

`flood_prediction_api.py` imports `services.weather_service`, which is not part
of this model. The weather layer here is modelled on
`services/weather_service_fixed.py`, and the endpoints are modelled over that
version.

## Model

| member | source | states |
|---|---|---|
| `Text.Upper` | Backend/models/flood_prediction_models.py:273 | upper-casing keeps the length, maps each character to its upper-case form and leaves no lower-case ASCII letter |
| `Text.Lower` | Backend/services/weather_service_fixed.py:74 | lower-casing keeps the length, maps each character to its lower-case form and leaves no upper-case ASCII letter |
| `Text.UpperIdempotent` | Backend/api/flood_prediction_api.py:199 | upper-casing an already upper-cased code changes nothing |
| `Weather.SeasonOf` | Backend/services/weather_service_fixed.py:118-124 | Monsoon exactly for months 6–9, Winter exactly for 12, 1 and 2, Summer otherwise |
| `Weather.SeasonsPartitionYear` | Backend/services/weather_service_fixed.py:52-66 | the seasons split months 1..12 into {6,7,8,9}, {12,1,2} and {3,4,5,10,11}, which together cover all 12 |
| `Weather.FallbackWeather` | Backend/services/weather_service_fixed.py:49-76 | the fallback reading has the month's season; Monsoon gives 5.0 mm / 28 °C / 85 %, Winter 0.0 / 22 / 60, Summer 0.0 / 32 / 70; wind is always 15 km/h; the description is "Typical <season in lower case> weather" (the copy at lines 210-237 is identical) |
| `Weather.FallbackRainOnlyInMonsoon` | Backend/services/weather_service_fixed.py:52-66 | the fallback rain is never negative, and it is positive exactly in months 6–9 |
| `Weather.KmhOfMs` | Backend/services/weather_service_fixed.py:130 | the km/h value divided by 3.6 gives back the m/s speed, and it is never smaller for a non-negative speed |
| `Weather.ParseCurrentWeather` | Backend/services/weather_service_fixed.py:111-134 | missing rain, temperature, humidity and wind default to 0, 25, 70 and 0; wind is m/s × 3.6; the description is the first `weather` entry's, or empty when missing; the season comes from the calendar; parsing raises exactly when the `weather` list is empty |
| `Weather.GetCurrentWeather` | Backend/services/weather_service_fixed.py:26-47 | a failed request gives the seasonal fallback; a received response is the parsed reading, which fails only when its `weather` list is empty; the season is always the calendar's |
| `Weather.Window` | Backend/services/weather_service_fixed.py:101 | the forecast slots used are a prefix of at most 8 items, and all items when there are fewer |
| `Weather.Get24hrRainfall` | Backend/services/weather_service_fixed.py:78-109 | the loop's total is the current rain plus the `3h` rain (missing as 0) of the first ≤ 8 forecast items, or just the current rain when the forecast request fails |
| `Weather.SumRainNonNegative` | Backend/services/weather_service_fixed.py:101-103 | summing non-negative slot values gives a non-negative amount |
| `Weather.RainfallAtLeastCurrent` | Backend/services/weather_service_fixed.py:99-109 | with no negative slot value, the 24-hour estimate is at least the current rain, whether or not the forecast request succeeded |
| `Weather.LaterSlotsIgnored` | Backend/services/weather_service_fixed.py:101 | forecast items after the eighth do not change the estimate |
| `Weather.TideLevel` | Backend/services/weather_service_fixed.py:145-158 | the mock tide always lies in [0.8, 3.5] m |
| `Weather.TideExtremes` | Backend/services/weather_service_fixed.py:151-158 | over 0..23 h the tide is below 2 m exactly at 8 and 20 h, where it is the 0.8 m low tide, and it is 3.5 m exactly at 2, 5, 11, 14, 17 and 23 h |
| `Weather.FindWard` | Backend/services/weather_service_fixed.py:242-249 | the lookup finds nothing exactly when no entry has the code, and otherwise finds the first entry that does |
| `Weather.WardLocation` | Backend/services/weather_service_fixed.py:242-249 | a configured code gives its entry's lat/lon/name; an unknown code gives (19.0760, 72.8777) and the name "Ward <code>" |
| `Weather.NewDataService` | Backend/services/weather_service_fixed.py:173-208 | the weather client exists exactly when an API key is configured (its `ValueError` is caught otherwise); the table holds 24 wards, all at latitudes 18.9–19.3 and longitudes 72.8–73.0 |
| `Weather.CompleteWeatherData` | Backend/services/weather_service_fixed.py:239-285 | the record carries the input code, the looked-up name and coordinates, High_Tide 4.2, Low_Tide 0.6, the hour's mock tide (so in [0.8, 3.5]) and the calendar season; without a weather API, or when reading the current weather raises, it is the seasonal fallback, with Rainfall_24hr equal to its current rain; with a working API it is the parsed reading and the 24-hour estimate |
| `Weather.AllWardsWeather` | Backend/services/weather_service_fixed.py:287-298 | there is one entry per configured ward, in table order; each entry's record is the complete weather record of that ward's code, from that ward's own responses, and carries the code |
| `Weather.GetWeatherForAllWards` | Backend/services/weather_service_fixed.py:287-298 | the result is exactly the all-wards table |
| `Weather.CollectRecords` | Backend/services/weather_service_fixed.py:289-296 | the loop yields, for each ward in table order, the entry keyed by its code and holding its record |
| `Weather.WardEntriesKeyed` | Backend/services/weather_service_fixed.py:291-293 | there is one entry per ward, in order, keyed by the ward's code and holding its record |
| `Weather.AllWardsKeysAreConfigured` | Backend/services/weather_service_fixed.py:287-298 | the result's keys are configured codes and every configured ward appears; with distinct configured codes, no key repeats |
| `FloodModels.RainfallCategory` | Backend/models/flood_prediction_models.py:446-447 | Low exactly below 10 mm and High exactly from 50 mm; missing rain counts as 0 |
| `FloodModels.TideCategory` | Backend/models/flood_prediction_models.py:448-449 | Low exactly below 2 m and High exactly from 4 m; a missing tide counts as 0 |
| `FloodModels.CategoriesMonotone` | Backend/models/flood_prediction_models.py:446-449 | more rain or a higher tide never gives a lower bucket; a missing reading is Low |
| `FloodModels.ZoneWeight` | Backend/models/flood_prediction_models.py:386-389 | zone weights lie in [0.2, 0.8], and every zone but "Very High Risk" weighs at most 0.6 |
| `FloodModels.RainfallWeight` | Backend/models/flood_prediction_models.py:390 | rain weights lie in [0.1, 0.7], and every name but "High" weighs at most 0.4 |
| `FloodModels.TideWeight` | Backend/models/flood_prediction_models.py:391 | tide weights lie in [0.1, 0.6], and every name but "High" weighs at most 0.3 |
| `FloodModels.SeasonWeight` | Backend/models/flood_prediction_models.py:392 | season weights lie in [0.2, 0.8], and every name but "Monsoon" weighs at most 0.3 |
| `FloodModels.FallbackProbability` | Backend/models/flood_prediction_models.py:384-400 | the probability is 0.4·zone + 0.3·rain + 0.2·tide + 0.1·season and always lies in [0.15, 0.73], so the cap at 1.0 never applies |
| `FloodModels.FallbackMonotone` | Backend/models/flood_prediction_models.py:394-399 | replacing labels by ones that weigh at least as much never lowers the probability |
| `FloodModels.FallbackAboveThresholdIff` | Backend/models/flood_prediction_models.py:386-399 | the probability exceeds 0.7 exactly for "Very High Risk", "High", "High" and "Monsoon" |
| `FloodModels.PredictProbability` | Backend/models/flood_prediction_models.py:381-400 | the result is absent exactly when a network is loaded; a present result lies in [0.15, 0.73] |
| `FloodModels.ShapeForest` | Backend/models/flood_prediction_models.py:146-158 | `will_flood` holds exactly from level 1; low/medium/high are the first three probabilities, with 0.0 where the vector is shorter; shaping raises exactly on an empty vector |
| `FloodModels.ShapeForestKeepsUnitInterval` | Backend/models/flood_prediction_models.py:153-157 | when every class probability lies in [0, 1], so do the three reported ones |
| `FloodModels.RiskLevelAt` | Backend/models/flood_prediction_models.py:248-251 | every position gets one of the four risk-zone labels |
| `FloodModels.AssignRiskLevels` | Backend/models/flood_prediction_models.py:246-251 | the loop's dictionary gives the cluster at each position of the ranking that position's label |
| `FloodModels.RankMappingCovers` | Backend/models/flood_prediction_models.py:236-251 | when every cluster with a frequency is ranked once, the mapping has exactly those clusters as keys, each with one of the four labels |
| `FloodModels.RankMappingKeys` | Backend/models/flood_prediction_models.py:246-251 | the mapping's keys are exactly the ranked clusters, and each value is one of the four labels |
| `FloodModels.RankMappingAt` | Backend/models/flood_prediction_models.py:250-251 | the cluster at position i gets 'Very High Risk', 'High Risk', 'Medium Risk' or 'Low Risk' for i = 0, 1, 2 or ≥ 3 |
| `FloodModels.FrequencyOrdersSeverity` | Backend/models/flood_prediction_models.py:245-251 | a cluster with a strictly higher flood frequency never gets a less severe label; the most flood-prone cluster is "Very High Risk" |
| `FloodModels.LabelRows` | Backend/models/flood_prediction_models.py:253 | each ward's row gets its own cluster's label |
| `FloodModels.LabelRowsInLevels` | Backend/models/flood_prediction_models.py:253 | when every label of the mapping is one of the four, so is every row's risk zone |
| `FloodModels.ZipClustersKeys` | Backend/models/flood_prediction_models.py:259 | the ward-to-cluster dictionary has exactly the trained wards as keys |
| `FloodModels.FirstRow` | Backend/models/flood_prediction_models.py:276-278 | there is no match exactly when no row has the ward, and a match is a row of that ward |
| `FloodModels.FirstRowIsFirst` | Backend/models/flood_prediction_models.py:276-278 | the match is the first row of the ward, as `iloc[0]` takes it |
| `FloodModels.WardClusteringModel.constructor` | Backend/models/flood_prediction_models.py:164-167 | a new model has no ward features, no cluster mapping and no ward clusters |
| `FloodModels.WardClusteringModel.Train` | Backend/models/flood_prediction_models.py:245-259 | the mapping is the positional labelling of the ranked clusters and covers every cluster; the ward rows carry their cluster's label; the ward dictionary is zip(Ward, cluster); every stored label is one of the four |
| `FloodModels.WardClusteringModel.GetWardRiskZone` | Backend/models/flood_prediction_models.py:268-286 | a model without ward features answers "Medium Risk" |
| `FloodModels.WardClusteringModel.LoadWardFeatures` | Backend/api/flood_prediction_api.py:58-68 | loading the saved models sets the ward table from the CSV rows and leaves the cluster mapping and the ward dictionary as they were (unset on a new model) |
| `FloodModels.LoadedWardRiskZone` | Backend/models/flood_prediction_models.py:268-286 | a loaded model (ward table set, ward dictionary unset) answers the first matching row's zone, and "Medium Risk" for a ward the table does not list |
| `FloodModels.TrainedZoneIsLevel` | Backend/models/flood_prediction_models.py:268-286 | a trained model always answers one of the four risk-zone labels |
| `FloodModels.WardRiskZoneIgnoresCase` | Backend/models/flood_prediction_models.py:273 | a lower-case code and its upper-case form get the same zone |
| `FloodModels.TrainedWardRiskZone` | Backend/models/flood_prediction_models.py:268-286 | after training, a ward gets its first row's cluster label, and a ward training never saw gets "Medium Risk" |
| `FloodModels.ConfidenceLevel` | Backend/models/flood_prediction_models.py:459-465 | High exactly from score 0.8, Low exactly below 0.5, Medium in between |
| `FloodModels.ConfidenceMonotone` | Backend/models/flood_prediction_models.py:459-465 | a higher score never gives a lower band |
| `FloodModels.PredictFloodRisk` | Backend/models/flood_prediction_models.py:435-477 | prediction succeeds exactly when no network is loaded and the forest answers with a non-empty vector; then the zone is the clustering lookup, the probability lies in [0.15, 0.73], the probability is the weighted fallback of that zone, the bucketed rain and tide and the season (Monsoon when none is given); the score is (rf_high + bayes)/2 with its band, and `high_risk` holds exactly when the forest level is ≥ 2 or the probability is > 0.7 |
| `FloodModels.HighRiskWithoutForest` | Backend/models/flood_prediction_models.py:473 | below forest level 2, `high_risk` holds exactly for a "Very High Risk" zone with rain ≥ 50 mm, tide ≥ 4 m and a Monsoon season (the default when none is given) |
| `FloodModels.HighRiskNeedsHighTide` | Backend/models/flood_prediction_models.py:446-473 | with a tide below 4 m (or none), `high_risk` holds exactly when the forest level is ≥ 2 |
| `FloodModels.HighConfidenceNeedsForest` | Backend/models/flood_prediction_models.py:456-465 | a High confidence needs the forest's High-class probability to be at least 0.87 |
| `FloodApi.FallbackWeatherRecord` | Backend/api/flood_prediction_api.py:218-235 | the fallback weather is Monsoon with rain 5.0, Rainfall_24hr 10.0, tide 2.0 and tides 4.2/0.6, at Mumbai's centre; the code is upper-cased and the name is "Ward <code as requested>" |
| `FloodApi.FallbackPrediction` | Backend/api/flood_prediction_api.py:240-257 | the fallback prediction is zone 'Medium Risk', level 0 without flood, probability 0.3, not high-risk, confidence Medium with score 0.5 |
| `FloodApi.FallbackPredictionRules` | Backend/api/flood_prediction_api.py:243-257 | the fallback prediction is consistent on `will_flood`, `high_risk` and the band of its score, but its score is not the (0.2) mean the combined rule would give |
| `FloodApi.WardWeather` | Backend/api/flood_prediction_api.py:196-235 | with a service, the weather used is the service's complete record for the upper-cased code; without one it is the fixed fallback record; either way it carries the upper-cased code and a tide in [0.8, 3.5] |
| `FloodApi.PredictFloodForWard` | Backend/api/flood_prediction_api.py:188-279 | fails with 503 exactly when the models are not loaded; the response code is the upper-cased request code; without a service the weather is the fixed fallback; the response is the models' prediction on that weather, or the fixed fallback prediction whenever predicting raises (always, with a network loaded); the probability lies in [0.15, 0.73] and `high_risk` obeys the combined rule |
| `FloodApi.WardHighRiskIsForestLevel` | Backend/api/flood_prediction_api.py:188-279 | since the tide used never reaches 4 m, the response is high-risk exactly when its forest level is ≥ 2 |
| `FloodApi.PredictAllWards` | Backend/api/flood_prediction_api.py:318-368 | fails with 503 exactly when the models or the weather service are missing; otherwise the loop's predictions are the successful per-ward predictions over the all-wards weather table, in ward order, and the summary is the counts and mean over them |
| `FloodApi.CollectPredictions` | Backend/api/flood_prediction_api.py:329-354 | the loop keeps exactly the successful per-ward responses, in order, and its high-risk counter equals the number of high-risk ones among them |
| `FloodApi.BatchStep` | Backend/api/flood_prediction_api.py:332-354 | one more ward extends the batch by that ward's response, or by nothing when its prediction raises |
| `FloodApi.CountHighRiskAppend` | Backend/api/flood_prediction_api.py:349-350 | one more response raises the high-risk count by one exactly when it is high-risk |
| `FloodApi.BatchHighRiskIsForestLevel` | Backend/api/flood_prediction_api.py:332-354 | when no ward's tide reaches 4 m, each batch response is high-risk exactly when its forest level is ≥ 2 |
| `FloodApi.AllWardsHighRiskIsForestLevel` | Backend/api/flood_prediction_api.py:318-354 | over the all-wards weather table, each response is high-risk exactly when its forest level is ≥ 2 |
| `FloodApi.HighRiskCountIsForestCount` | Backend/api/flood_prediction_api.py:349-357 | when each response is high-risk exactly at forest level ≥ 2, the high-risk count equals the number of responses at forest level ≥ 2 |
| `FloodApi.BatchHighRiskCount` | Backend/api/flood_prediction_api.py:332-357 | when no ward's tide reaches 4 m, the batch's high-risk count equals the number of responses at forest level ≥ 2 |
| `FloodApi.AllWardsHighRiskCount` | Backend/api/flood_prediction_api.py:318-362 | the all-wards summary's `high_risk_wards` equals the number of responses at forest level ≥ 2 |
| `FloodApi.CountsBounded` | Backend/api/flood_prediction_api.py:356-360 | the high-risk count, and the medium and low counts together, never exceed the number of predictions |
| `FloodApi.SumWithin` | Backend/api/flood_prediction_api.py:361 | n probabilities in [lo, hi] sum to between lo·n and hi·n |
| `FloodApi.MeanWithin` | Backend/api/flood_prediction_api.py:361 | the mean of probabilities in [lo, hi] lies in [lo, hi] |
| `FloodApi.BatchFacts` | Backend/api/flood_prediction_api.py:332-354 | every batch prediction's probability lies in [0.15, 0.73]; there are at most as many predictions as wards; with a network loaded there are none |
| `FloodApi.BatchSummaryBounds` | Backend/api/flood_prediction_api.py:356-362 | high ≤ total, medium + low ≤ total, and total ≤ number of wards; the average is 0 for no predictions and otherwise lies in [0.15, 0.73]; with a network loaded the summary is all zeros |
| `FloodApi.UnavailableWeatherRecord` | Backend/api/flood_prediction_api.py:417-434 | the last-resort record is rain 0.0, temp 25.0, humidity 70, tide 2.0 and Rainfall_24hr 0.0, with the upper-cased code and the name "Ward <code>" |
| `FloodApi.GetCurrentWeather` | Backend/api/flood_prediction_api.py:393-434 | the endpoint always answers, with the upper-cased code, a tide in [0.8, 3.5] and tides 4.2/0.6; with a weather service the record is the service's complete record for the upper-cased code; without a weather service it pads the seasonal fallback with tide 2.0, Rainfall_24hr equal to the rain and the name "Ward <code>" when an API key is configured, and returns the last-resort record when none is |

## Left out

- Model training and inference are library numerics and are not modelled. This
  covers the fitting and prediction of RandomForest, KMeans, StandardScaler and
  LabelEncoder, the pandas aggregation (`prepare_ward_features`, the
  `groupby` in `train`) and pgmpy's network construction and inference
  (`create_network`). Their outputs are inputs of the model.
- Loading and saving models (joblib, CSV), and `load_and_preprocess_data`, are
  file I/O. The CSV's rows are an input of `LoadWardFeatures`. A model loaded
  that way has `ward_features` set while its mapping and ward dictionary stay
  unset (`None` in the model), since loading never assigns them.
- HTTP requests to OpenWeatherMap are network I/O. Only what happens to a
  received response, or to a failed request, is modelled.
- The FastAPI app, CORS, the pydantic schemas and the startup hook are framework
  plumbing. The startup hook is represented only by the `Globals` value it
  leaves behind.
- The endpoints `/`, `/health`, `/predict/custom`, `/wards/clusters` and
  `/models/info` are not modelled. The background `/models/retrain` task is not
  modelled either: it replaces a global concurrently.
- The 500 responses (the outer `except` of each endpoint) are not modelled. In
  the model nothing inside those blocks can raise; pydantic validation is not
  modelled.
- Timestamps and `round(x, 2)` are not modelled, and values are exact reals.
  `datetime.now()` is the `month` and `hour` parameters.
- A JSON `null` or a non-numeric value in a response field is not modelled.
  In the source some such values pass through unchanged, and others raise
  inside the weather service and are replaced by the seasonal fallback. A null
  one-hour rain with a failed forecast request reaches `predict_flood_risk`,
  whose rainfall comparison then raises a `TypeError`.
- A NaN `risk_zone` in a loaded CSV is not modelled; the source would return it as the zone.
- `get_all_ward_clusters` is a plain column projection and is not modelled.
- `Text.Upper`: Python's `str.upper()` is modelled for ASCII letters only.
- `Weather.GetWeatherForAllWards`: in the model, building one ward's record
  cannot raise, so the loop's `except: continue` branch is never taken and the
  result always has every configured ward.
- `Weather.CompleteWeatherData`: `get_24hr_rainfall` requests the current
  weather a second time. The model assumes both requests get the same answer.
- `Weather.WardLocation` and `Weather.AllWardsKeysAreConfigured`: the ward table
  is a sequence of entries standing for the source's dictionary. Lookups take
  the first entry with a code. That the 24 configured codes are distinct is not
  proved; the lemma takes it as a hypothesis.
- `FloodModels.WardClusteringModel.Train` takes the library sort's order of the
  clusters as an input. It requires that order to be a non-increasing
  arrangement of each cluster once, and it requires every ward's cluster to have
  a frequency, as the `groupby` guarantees.
- `FloodModels.PredictFloodRisk`: the forest output always has
  `risk_probabilities.high`, so the `.get(..., 0.0)` defaults never apply. The
  same holds for the single-ward endpoint's `.get` defaults, since both of its
  prediction records carry every field.
