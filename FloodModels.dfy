/** The decision rules of the three flood models: the output shaping of the
    random forest, the ward clustering's ranking of clusters into risk zones and
    its per-ward lookup, the Bayesian model's weighted fallback probability, and
    the combined assessment that `FloodPredictionSystem.predict_flood_risk`
    builds from the three.

    The numerical libraries are opaque: the forest's predicted level and class
    probabilities, the k-means labels, the per-cluster mean flood frequencies and
    the order the library sort puts the clusters in are inputs. */
module FloodModels {
  import opened Wrappers
  import opened Text

  // ------------------------------------------------------------ categories

  /** A three-way bucket, used for rainfall, tide and confidence. */
  datatype Level = Low | Medium | High

  function LevelName(l: Level): string {
    match l
    case Low => "Low"
    case Medium => "Medium"
    case High => "High"
  }

  function LevelRank(l: Level): nat {
    match l
    case Low => 0
    case Medium => 1
    case High => 2
  }

  /** Rainfall bucket of `weather_data.get('Rainfall_mm', 0)`: below 10 mm is
      Low, below 50 mm Medium, otherwise High. */
  function RainfallCategory(rainfallMm: Option<real>): (c: Level)
    ensures c == Low <==> rainfallMm.GetOr(0.0) < 10.0
    ensures c == High <==> rainfallMm.GetOr(0.0) >= 50.0
  {
    var rain := rainfallMm.GetOr(0.0);
    if rain < 10.0 then Low else if rain < 50.0 then Medium else High
  }

  /** Tide bucket of `weather_data.get('Tide_Level_m', 0)`: below 2 m is Low,
      below 4 m Medium, otherwise High. */
  function TideCategory(tideLevelM: Option<real>): (c: Level)
    ensures c == Low <==> tideLevelM.GetOr(0.0) < 2.0
    ensures c == High <==> tideLevelM.GetOr(0.0) >= 4.0
  {
    var tide := tideLevelM.GetOr(0.0);
    if tide < 2.0 then Low else if tide < 4.0 then Medium else High
  }

  /** More rain or a higher tide never gives a lower bucket, and a missing
      reading falls in the lowest one. */
  lemma CategoriesMonotone(a: real, b: real)
    requires a <= b
    ensures LevelRank(RainfallCategory(Some(a))) <= LevelRank(RainfallCategory(Some(b)))
    ensures LevelRank(TideCategory(Some(a))) <= LevelRank(TideCategory(Some(b)))
    ensures RainfallCategory(None) == Low && TideCategory(None) == Low
  {
  }

  // ------------------------------------------------- Bayesian fallback rule

  /** The fallback weight of a ward risk zone; an unknown zone weighs 0.4. */
  function ZoneWeight(zone: string): (w: real)
    ensures 0.2 <= w <= 0.8
    ensures zone != "Very High Risk" ==> w <= 0.6
  {
    if zone == "Very High Risk" then 0.8
    else if zone == "High Risk" then 0.6
    else if zone == "Medium Risk" then 0.4
    else if zone == "Low Risk" then 0.2
    else 0.4
  }

  /** The fallback weight of a rainfall bucket name; an unknown name weighs 0.3. */
  function RainfallWeight(category: string): (w: real)
    ensures 0.1 <= w <= 0.7
    ensures category != "High" ==> w <= 0.4
  {
    if category == "High" then 0.7
    else if category == "Medium" then 0.4
    else if category == "Low" then 0.1
    else 0.3
  }

  /** The fallback weight of a tide bucket name; an unknown name weighs 0.2. */
  function TideWeight(category: string): (w: real)
    ensures 0.1 <= w <= 0.6
    ensures category != "High" ==> w <= 0.3
  {
    if category == "High" then 0.6
    else if category == "Medium" then 0.3
    else if category == "Low" then 0.1
    else 0.2
  }

  /** The fallback weight of a season name; an unknown name weighs 0.3. */
  function SeasonWeight(season: string): (w: real)
    ensures 0.2 <= w <= 0.8
    ensures season != "Monsoon" ==> w <= 0.3
  {
    if season == "Monsoon" then 0.8
    else if season == "Winter" then 0.2
    else if season == "Summer" then 0.3
    else 0.3
  }

  function Min(a: real, b: real): real {
    if a <= b then a else b
  }

  /** The fallback flood probability: 0.4 of the zone weight, 0.3 of the rain
      weight, 0.2 of the tide weight and 0.1 of the season weight, capped at 1.
      It always lies in [0.15, 0.73], so the cap never changes it. */
  function FallbackProbability(zone: string, rainfallCat: string, tideCat: string, season: string): (p: real)
    ensures 0.15 <= p <= 0.73
    ensures p == ZoneWeight(zone) * 0.4 + RainfallWeight(rainfallCat) * 0.3
                 + TideWeight(tideCat) * 0.2 + SeasonWeight(season) * 0.1
  {
    var prob := ZoneWeight(zone) * 0.4 + RainfallWeight(rainfallCat) * 0.3
                + TideWeight(tideCat) * 0.2 + SeasonWeight(season) * 0.1;
    Min(prob, 1.0)
  }

  /** Replacing any label by one that weighs at least as much never lowers the
      fallback probability. */
  lemma FallbackMonotone(zone: string, rain: string, tide: string, season: string,
                         zone': string, rain': string, tide': string, season': string)
    requires ZoneWeight(zone) <= ZoneWeight(zone')
    requires RainfallWeight(rain) <= RainfallWeight(rain')
    requires TideWeight(tide) <= TideWeight(tide')
    requires SeasonWeight(season) <= SeasonWeight(season')
    ensures FallbackProbability(zone, rain, tide, season) <= FallbackProbability(zone', rain', tide', season')
  {
  }

  /** The fallback probability exceeds the 0.7 high-risk threshold only in the
      single worst case: a "Very High Risk" zone, High rain, High tide and the
      monsoon (0.73). Every other combination stays at or below 0.68. */
  lemma FallbackAboveThresholdIff(zone: string, rain: string, tide: string, season: string)
    ensures FallbackProbability(zone, rain, tide, season) > 0.7 <==>
              zone == "Very High Risk" && rain == "High" && tide == "High" && season == "Monsoon"
  {
  }

  /** `BayesianFloodModel.predict_probability`. Only the branch taken when no
      network is loaded returns a value; the other branch ends without a
      `return`, so the caller receives `None`. */
  function PredictProbability(networkLoaded: bool, rainfallCat: string, tideCat: string,
                              zone: string, season: string): (p: Option<real>)
    ensures p.None? <==> networkLoaded
    ensures p.Some? ==> 0.15 <= p.value <= 0.73
  {
    if !networkLoaded then Some(FallbackProbability(zone, rainfallCat, tideCat, season))
    else None
  }

  // ---------------------------------------------------------- random forest

  /** What the fitted classifier returns for one input row: the predicted risk
      level and the class probabilities, in class order. */
  datatype ForestRaw = ForestRaw(riskLevel: int, proba: seq<real>)

  datatype ForestPrediction = ForestPrediction(
    floodRiskLevel: int,
    willFlood: bool,
    low: real,
    medium: real,
    high: real)

  /** The result dictionary of `RandomForestFloodPredictor.predict`: a flood is
      predicted exactly from level 1 (Medium) up, and a class the probability
      vector does not reach gets probability 0. An empty vector cannot be indexed
      and raises. */
  function ShapeForest(raw: ForestRaw): (r: Result<ForestPrediction, string>)
    ensures r.Ok? <==> |raw.proba| >= 1
    ensures r.Ok? ==> r.value.floodRiskLevel == raw.riskLevel
    ensures r.Ok? ==> (r.value.willFlood <==> raw.riskLevel >= 1)
    ensures r.Ok? ==> r.value.low == raw.proba[0]
    ensures r.Ok? ==> r.value.medium == (if |raw.proba| > 1 then raw.proba[1] else 0.0)
    ensures r.Ok? ==> r.value.high == (if |raw.proba| > 2 then raw.proba[2] else 0.0)
  {
    if |raw.proba| == 0 then Err("IndexError: index 0 is out of bounds")
    else
      var p := raw.proba;
      Ok(ForestPrediction(
        raw.riskLevel,
        raw.riskLevel >= 1,
        p[0],
        if |p| > 1 then p[1] else 0.0,
        if |p| > 2 then p[2] else 0.0))
  }

  predicate UnitInterval(x: real) {
    0.0 <= x <= 1.0
  }

  /** Shaping keeps probabilities probabilities: when every class probability
      lies in [0, 1], so do the three reported ones, defaults included. */
  lemma ShapeForestKeepsUnitInterval(raw: ForestRaw)
    requires |raw.proba| >= 1
    requires forall k :: 0 <= k < |raw.proba| ==> UnitInterval(raw.proba[k])
    ensures var f := ShapeForest(raw).value;
      UnitInterval(f.low) && UnitInterval(f.medium) && UnitInterval(f.high)
  {
  }

  // ------------------------------------------------------- ward clustering

  /** The risk-zone labels, most severe first. */
  const RiskLevels: seq<string> := ["Very High Risk", "High Risk", "Medium Risk", "Low Risk"]

  /** The label of the cluster ranked at position `i`; position 3 and beyond
      are all "Low Risk". */
  function RiskLevelAt(i: nat): (zone: string)
    ensures zone in RiskLevels
  {
    RiskLevels[if i < |RiskLevels| - 1 then i else |RiskLevels| - 1]
  }

  /** How severe a label is: 3 for "Very High Risk" down to 0 for "Low Risk"
      (and for any other text). */
  function Severity(zone: string): nat {
    if zone == "Very High Risk" then 3
    else if zone == "High Risk" then 2
    else if zone == "Medium Risk" then 1
    else 0
  }

  predicate Distinct(s: seq<int>) {
    forall i, j :: 0 <= i < j < |s| ==> s[i] != s[j]
  }

  /** `ranked` is an order the library sort can produce: every cluster once,
      flood frequencies non-increasing. Ties may come in any order. */
  predicate RankedByFrequency(clusterFreq: map<int, real>, ranked: seq<int>) {
    && Distinct(ranked)
    && (forall i :: 0 <= i < |ranked| ==> ranked[i] in clusterFreq)
    && (forall c :: c in clusterFreq ==> c in ranked)
    && (forall i, j :: 0 <= i < j < |ranked| ==> clusterFreq[ranked[i]] >= clusterFreq[ranked[j]])
  }

  /** `cluster_risk_mapping` after the labelling loop has run over `ranked`. */
  function RankMapping(ranked: seq<int>): map<int, string> {
    if ranked == [] then map[]
    else RankMapping(ranked[..|ranked| - 1])[ranked[|ranked| - 1] := RiskLevelAt(|ranked| - 1)]
  }

  /** Exactly the ranked clusters are mapped, each to one of the four labels. */
  lemma {:induction false} RankMappingKeys(ranked: seq<int>)
    ensures forall c :: c in RankMapping(ranked) <==> c in ranked
    ensures forall c :: c in RankMapping(ranked) ==> RankMapping(ranked)[c] in RiskLevels
  {
    if ranked != [] {
      var front := ranked[..|ranked| - 1];
      RankMappingKeys(front);
      assert forall c :: c in ranked <==> c in front || c == ranked[|ranked| - 1];
    }
  }

  /** The labelling loop of `train`: walks the clusters in ranked order,
      giving each the label of its position. */
  method AssignRiskLevels(ranked: seq<int>) returns (mapping: map<int, string>)
    ensures mapping == RankMapping(ranked)
  {
    mapping := map[];
    var i := 0;
    while i < |ranked|
      invariant 0 <= i <= |ranked|
      invariant mapping == RankMapping(ranked[..i])
    {
      assert ranked[..i + 1][..i] == ranked[..i];
      mapping := mapping[ranked[i] := RiskLevelAt(i)];
      i := i + 1;
    }
    assert ranked[..i] == ranked;
  }

  /** Ranking every cluster once labels exactly the clusters that have a
      frequency. */
  lemma RankMappingCovers(clusterFreq: map<int, real>, ranked: seq<int>)
    requires RankedByFrequency(clusterFreq, ranked)
    ensures RankMapping(ranked).Keys == clusterFreq.Keys
    ensures forall c :: c in RankMapping(ranked) ==> RankMapping(ranked)[c] in RiskLevels
  {
    RankMappingKeys(ranked);
    var mapping := RankMapping(ranked);
    assert forall c :: c in mapping.Keys <==> c in clusterFreq.Keys;
  }

  /** Each ranked cluster is mapped to the label of its position. */
  lemma {:induction false} RankMappingAt(ranked: seq<int>)
    requires Distinct(ranked)
    ensures forall i :: 0 <= i < |ranked| ==> ranked[i] in RankMapping(ranked) && RankMapping(ranked)[ranked[i]] == RiskLevelAt(i)
  {
    if ranked != [] {
      var front := ranked[..|ranked| - 1];
      assert Distinct(front);
      RankMappingAt(front);
      forall i | 0 <= i < |ranked| - 1
        ensures ranked[i] in RankMapping(ranked) && RankMapping(ranked)[ranked[i]] == RiskLevelAt(i)
      {
        assert ranked[i] == front[i];
      }
    }
  }

  /** A cluster with a strictly higher flood frequency never gets a less severe
      label, the most flood-prone cluster is "Very High Risk", and every label
      is one of the four. */
  lemma FrequencyOrdersSeverity(clusterFreq: map<int, real>, ranked: seq<int>, a: int, b: int)
    requires RankedByFrequency(clusterFreq, ranked)
    requires a in clusterFreq && b in clusterFreq
    ensures a in RankMapping(ranked) && b in RankMapping(ranked)
    ensures clusterFreq[a] > clusterFreq[b] ==>
              Severity(RankMapping(ranked)[a]) >= Severity(RankMapping(ranked)[b])
    ensures ranked != [] ==> ranked[0] in RankMapping(ranked) && RankMapping(ranked)[ranked[0]] == "Very High Risk"
    ensures RankMapping(ranked)[a] in RiskLevels
  {
    RankMappingKeys(ranked);
    RankMappingAt(ranked);
    var ia :| 0 <= ia < |ranked| && ranked[ia] == a;
    var ib :| 0 <= ib < |ranked| && ranked[ib] == b;
    if clusterFreq[a] > clusterFreq[b] {
      assert ia < ib;
    }
  }

  /** The k-means label of one ward. */
  datatype WardLabel = WardLabel(ward: string, cluster: int)

  /** One row of `ward_features` after training. */
  datatype WardRow = WardRow(ward: string, cluster: int, riskZone: string)

  /** `ward_features['risk_zone'] = ward_features['cluster'].map(mapping)`. */
  function LabelRows(wards: seq<WardLabel>, mapping: map<int, string>): (rows: seq<WardRow>)
    requires forall k :: 0 <= k < |wards| ==> wards[k].cluster in mapping
    ensures |rows| == |wards|
    ensures forall k :: 0 <= k < |rows| ==>
              rows[k] == WardRow(wards[k].ward, wards[k].cluster, mapping[wards[k].cluster])
  {
    seq(|wards|, k requires 0 <= k < |wards| =>
      WardRow(wards[k].ward, wards[k].cluster, mapping[wards[k].cluster]))
  }

  /** Every row's label is one of the four when every label of the mapping is. */
  lemma LabelRowsInLevels(wards: seq<WardLabel>, mapping: map<int, string>)
    requires forall k :: 0 <= k < |wards| ==> wards[k].cluster in mapping
    requires forall c :: c in mapping ==> mapping[c] in RiskLevels
    ensures forall row :: row in LabelRows(wards, mapping) ==> row.riskZone in RiskLevels
  {
  }

  /** `dict(zip(Ward, cluster))`: a later row for the same ward wins. */
  function ZipClusters(wards: seq<WardLabel>): map<string, int> {
    if wards == [] then map[]
    else ZipClusters(wards[..|wards| - 1])[wards[|wards| - 1].ward := wards[|wards| - 1].cluster]
  }

  lemma {:induction false} ZipClustersKeys(wards: seq<WardLabel>)
    ensures forall w :: w in ZipClusters(wards) <==> exists k :: 0 <= k < |wards| && wards[k].ward == w
  {
    if wards != [] {
      var front := wards[..|wards| - 1];
      ZipClustersKeys(front);
      forall w | w in ZipClusters(wards) ensures exists k :: 0 <= k < |wards| && wards[k].ward == w {
        if w != wards[|wards| - 1].ward {
          assert w in ZipClusters(front);
          var k :| 0 <= k < |front| && front[k].ward == w;
          assert wards[k].ward == w;
        }
      }
      forall w | exists k :: 0 <= k < |wards| && wards[k].ward == w ensures w in ZipClusters(wards) {
        var k :| 0 <= k < |wards| && wards[k].ward == w;
        if k < |wards| - 1 {
          assert front[k].ward == w;
        }
      }
    }
  }

  /** The first row for `ward`, as `ward_match.iloc[0]` finds it. */
  function FirstRow(rows: seq<WardRow>, ward: string): (r: Option<WardRow>)
    ensures r.None? <==> forall k :: 0 <= k < |rows| ==> rows[k].ward != ward
    ensures r.Some? ==> r.value in rows && r.value.ward == ward
  {
    if rows == [] then None
    else if rows[0].ward == ward then Some(rows[0])
    else FirstRow(rows[1..], ward)
  }

  /** The row found is the first one for the ward: row `k` when no earlier row
      has that ward. */
  lemma {:induction false} FirstRowIsFirst(rows: seq<WardRow>, ward: string, k: nat)
    requires k < |rows| && rows[k].ward == ward
    requires forall j :: 0 <= j < k ==> rows[j].ward != ward
    ensures FirstRow(rows, ward) == Some(rows[k])
  {
    if k > 0 {
      FirstRowIsFirst(rows[1..], ward, k - 1);
    }
  }

  /** `WardClusteringModel`: the fields that training sets and the lookup
      reads. A field the source has not set yet (`hasattr` is false, or it is
      `None`) is `None` here. */
  class WardClusteringModel {
    var wardFeatures: Option<seq<WardRow>>
    var clusterRiskMapping: Option<map<int, string>>
    var wardClusters: Option<map<string, int>>

    constructor ()
      ensures wardFeatures == None && clusterRiskMapping == None && wardClusters == None
    {
      wardFeatures := None;
      clusterRiskMapping := None;
      wardClusters := None;
    }

    /** The state training leaves: every field set, and every label one of the
        four risk zones. */
    ghost predicate Trained()
      reads this
    {
      && wardFeatures.Some? && clusterRiskMapping.Some? && wardClusters.Some?
      && (forall row :: row in wardFeatures.value ==> row.riskZone in RiskLevels)
      && (forall c :: c in clusterRiskMapping.value ==> clusterRiskMapping.value[c] in RiskLevels)
    }

    /** The labelling part of `train`: clusters in descending order of flood
        frequency get the labels by position, then every ward's row gets its
        cluster's label and the ward-to-cluster dictionary is built. */
    method Train(wards: seq<WardLabel>, clusterFreq: map<int, real>, ranked: seq<int>)
      requires RankedByFrequency(clusterFreq, ranked)
      requires forall k :: 0 <= k < |wards| ==> wards[k].cluster in clusterFreq
      modifies this
      ensures clusterRiskMapping == Some(RankMapping(ranked))
      ensures RankMapping(ranked).Keys == clusterFreq.Keys
      ensures wardFeatures == Some(LabelRows(wards, RankMapping(ranked)))
      ensures wardClusters == Some(ZipClusters(wards))
      ensures Trained()
    {
      var mapping := AssignRiskLevels(ranked);
      RankMappingCovers(clusterFreq, ranked);
      LabelRowsInLevels(wards, mapping);
      wardFeatures := Some(LabelRows(wards, mapping));
      clusterRiskMapping := Some(mapping);
      wardClusters := Some(ZipClusters(wards));
    }

    /** Loading saved models reads the ward table from its CSV file into
        `ward_features`; the cluster dictionaries stay as they were. */
    method LoadWardFeatures(rows: seq<WardRow>)
      modifies this
      ensures wardFeatures == Some(rows)
      ensures clusterRiskMapping == old(clusterRiskMapping) && wardClusters == old(wardClusters)
    {
      wardFeatures := Some(rows);
    }

    /** `get_ward_risk_zone`: the label of the first row for the upper-cased
        code, else the label of its cluster, else "Medium Risk". */
    function GetWardRiskZone(code: string): (zone: string)
      reads this
      ensures wardFeatures.None? ==> zone == "Medium Risk"
    {
      if wardFeatures.None? then "Medium Risk"
      else
        var upper := Upper(code);
        match FirstRow(wardFeatures.value, upper)
        case Some(row) => row.riskZone
        case None =>
          if wardClusters.Some? then
            var cluster := if upper in wardClusters.value then wardClusters.value[upper] else -1;
            if cluster != -1 && clusterRiskMapping.Some? then
              if cluster in clusterRiskMapping.value then clusterRiskMapping.value[cluster] else "Medium Risk"
            else "Medium Risk"
          else "Medium Risk"
    }
  }

  /** A trained model only ever answers one of the four risk-zone labels. */
  lemma TrainedZoneIsLevel(m: WardClusteringModel, code: string)
    requires m.Trained()
    ensures m.GetWardRiskZone(code) in RiskLevels
  {
  }

  /** A model loaded from saved files has its ward table but no cluster
      dictionaries: the answer is the first matching row's label, and
      "Medium Risk" for a ward the table does not list. */
  lemma LoadedWardRiskZone(m: WardClusteringModel, code: string)
    requires m.wardFeatures.Some? && m.wardClusters.None?
    ensures var row := FirstRow(m.wardFeatures.value, Upper(code));
      m.GetWardRiskZone(code) == if row.Some? then row.value.riskZone else "Medium Risk"
  {
  }

  /** The lookup does not depend on the case of the code. */
  lemma WardRiskZoneIgnoresCase(m: WardClusteringModel, code: string)
    ensures m.GetWardRiskZone(Upper(code)) == m.GetWardRiskZone(code)
  {
    UpperIdempotent(code);
  }

  /** After training, a ward's zone is the label of its (first) cluster, and a
      ward that training never saw falls back to "Medium Risk". */
  lemma TrainedWardRiskZone(m: WardClusteringModel, wards: seq<WardLabel>, clusterFreq: map<int, real>,
                            ranked: seq<int>, code: string)
    requires RankedByFrequency(clusterFreq, ranked)
    requires forall k :: 0 <= k < |wards| ==> wards[k].cluster in clusterFreq
    requires RankMapping(ranked).Keys == clusterFreq.Keys
    requires m.wardFeatures == Some(LabelRows(wards, RankMapping(ranked)))
    requires m.clusterRiskMapping == Some(RankMapping(ranked))
    requires m.wardClusters == Some(ZipClusters(wards))
    ensures (forall k :: 0 <= k < |wards| ==> wards[k].ward != Upper(code)) ==>
              m.GetWardRiskZone(code) == "Medium Risk"
    ensures forall k :: 0 <= k < |wards| && wards[k].ward == Upper(code) &&
                        (forall j :: 0 <= j < k ==> wards[j].ward != Upper(code)) ==>
              m.GetWardRiskZone(code) == RankMapping(ranked)[wards[k].cluster]
  {
    var upper := Upper(code);
    var rows := LabelRows(wards, RankMapping(ranked));
    assert forall k :: 0 <= k < |rows| ==> rows[k].ward == wards[k].ward;
    if forall k :: 0 <= k < |wards| ==> wards[k].ward != upper {
      ZipClustersKeys(wards);
      assert FirstRow(rows, upper).None? && upper !in ZipClusters(wards);
    }
    forall k | 0 <= k < |wards| && wards[k].ward == upper && (forall j :: 0 <= j < k ==> wards[j].ward != upper)
      ensures m.GetWardRiskZone(code) == RankMapping(ranked)[wards[k].cluster]
    {
      FirstRowIsFirst(rows, upper, k);
    }
  }

  // --------------------------------------------------- combined assessment

  /** The confidence band of a score: High from 0.8, Medium from 0.5, else Low. */
  function ConfidenceLevel(score: real): (c: Level)
    ensures c == High <==> score >= 0.8
    ensures c == Low <==> score < 0.5
  {
    if score >= 0.8 then High else if score >= 0.5 then Medium else Low
  }

  /** A higher score never gives a lower confidence band. */
  lemma ConfidenceMonotone(a: real, b: real)
    requires a <= b
    ensures LevelRank(ConfidenceLevel(a)) <= LevelRank(ConfidenceLevel(b))
  {
  }

  /** The fields of the weather dictionary the rules read. */
  datatype WeatherInput = WeatherInput(rainfallMm: Option<real>, tideLevelM: Option<real>, season: Option<string>)

  datatype CombinedAssessment = CombinedAssessment(highRisk: bool, confidence: Level, confidenceScore: real)

  datatype Prediction = Prediction(
    wardCode: string,
    wardRiskZone: string,
    randomForest: ForestPrediction,
    bayesianProbability: real,
    combined: CombinedAssessment)

  /** `FloodPredictionSystem`: its clustering model and whether its Bayesian
      model holds a fitted network. */
  datatype FloodSystem = FloodSystem(clustering: WardClusteringModel, networkLoaded: bool)

  /** `predict_flood_risk`. The forest's raw output is `None` when the library
      call raises. With a fitted network the Bayesian step yields `None`, and
      adding it to the forest's probability raises. */
  function PredictFloodRisk(sys: FloodSystem, weather: WeatherInput, wardCode: string, forest: Option<ForestRaw>)
    : (r: Result<Prediction, string>)
    reads sys.clustering
    ensures r.Ok? <==> !sys.networkLoaded && forest.Some? && |forest.value.proba| >= 1
    ensures r.Ok? ==> r.value.wardCode == wardCode
    ensures r.Ok? ==> r.value.wardRiskZone == sys.clustering.GetWardRiskZone(wardCode)
    ensures r.Ok? ==> r.value.randomForest == ShapeForest(forest.value).value
    ensures r.Ok? ==> 0.15 <= r.value.bayesianProbability <= 0.73
    ensures r.Ok? ==>
              r.value.bayesianProbability ==
              FallbackProbability(r.value.wardRiskZone, LevelName(RainfallCategory(weather.rainfallMm)),
                                  LevelName(TideCategory(weather.tideLevelM)), weather.season.GetOr("Monsoon"))
    ensures r.Ok? ==> r.value.combined.confidenceScore == (r.value.randomForest.high + r.value.bayesianProbability) / 2.0
    ensures r.Ok? ==> r.value.combined.confidence == ConfidenceLevel(r.value.combined.confidenceScore)
    ensures r.Ok? ==> (r.value.combined.highRisk <==>
                         r.value.randomForest.floodRiskLevel >= 2 || r.value.bayesianProbability > 0.7)
  {
    match forest
    case None => Err("forest prediction raised")
    case Some(raw) =>
      match ShapeForest(raw)
      case Err(e) => Err(e)
      case Ok(rf) =>
        var zone := sys.clustering.GetWardRiskZone(wardCode);
        var rainfallCat := RainfallCategory(weather.rainfallMm);
        var tideCat := TideCategory(weather.tideLevelM);
        match PredictProbability(sys.networkLoaded, LevelName(rainfallCat), LevelName(tideCat),
                                 zone, weather.season.GetOr("Monsoon"))
        case None => Err("TypeError: unsupported operand type(s) for +: 'float' and 'NoneType'")
        case Some(p) =>
          var score := (rf.high + p) / 2.0;
          Ok(Prediction(wardCode, zone, rf, p,
                        CombinedAssessment(rf.floodRiskLevel >= 2 || p > 0.7, ConfidenceLevel(score), score)))
  }

  /** Below forest level 2, a prediction is high-risk only in the Bayesian worst
      case: the ward's zone is "Very High Risk", rain is at least 50 mm, the tide
      at least 4 m and the season (Monsoon when absent) is the monsoon. */
  lemma HighRiskWithoutForest(sys: FloodSystem, weather: WeatherInput, wardCode: string, forest: Option<ForestRaw>)
    requires PredictFloodRisk(sys, weather, wardCode, forest).Ok?
    requires PredictFloodRisk(sys, weather, wardCode, forest).value.randomForest.floodRiskLevel < 2
    ensures PredictFloodRisk(sys, weather, wardCode, forest).value.combined.highRisk <==>
              && sys.clustering.GetWardRiskZone(wardCode) == "Very High Risk"
              && weather.rainfallMm.GetOr(0.0) >= 50.0
              && weather.tideLevelM.GetOr(0.0) >= 4.0
              && weather.season.GetOr("Monsoon") == "Monsoon"
  {
    var rain := LevelName(RainfallCategory(weather.rainfallMm));
    var tide := LevelName(TideCategory(weather.tideLevelM));
    FallbackAboveThresholdIff(sys.clustering.GetWardRiskZone(wardCode), rain, tide, weather.season.GetOr("Monsoon"));
  }

  /** Below a 4 m tide the Bayesian probability never passes 0.7, so only a
      forest level of at least 2 makes the ward high-risk. */
  lemma HighRiskNeedsHighTide(sys: FloodSystem, weather: WeatherInput, wardCode: string, forest: Option<ForestRaw>)
    requires PredictFloodRisk(sys, weather, wardCode, forest).Ok?
    requires weather.tideLevelM.GetOr(0.0) < 4.0
    ensures var p := PredictFloodRisk(sys, weather, wardCode, forest).value;
      p.combined.highRisk <==> p.randomForest.floodRiskLevel >= 2
  {
    var p := PredictFloodRisk(sys, weather, wardCode, forest).value;
    FallbackAboveThresholdIff(p.wardRiskZone, LevelName(RainfallCategory(weather.rainfallMm)),
                              LevelName(TideCategory(weather.tideLevelM)), weather.season.GetOr("Monsoon"));
  }

  /** Since the fallback probability is at most 0.73, a High confidence needs
      the forest's High-class probability to be at least 0.87. */
  lemma HighConfidenceNeedsForest(sys: FloodSystem, weather: WeatherInput, wardCode: string, forest: Option<ForestRaw>)
    requires PredictFloodRisk(sys, weather, wardCode, forest).Ok?
    requires PredictFloodRisk(sys, weather, wardCode, forest).value.combined.confidence == High
    ensures PredictFloodRisk(sys, weather, wardCode, forest).value.randomForest.high >= 0.87
  {
  }
}
