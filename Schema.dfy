/** The output records of the risk pipeline: the four-level risk scale, grid
    cells with their contributing factors and confidence, and the GeoJSON
    feature wrapping a cell. Records are validated on construction: a field
    outside its declared range makes construction fail. */
module Schema {
  import opened Common

  /** RiskLevel, with the string value each member serialises to. */
  datatype RiskLevel = Safe | Low | Medium | High

  function RiskLevelValue(l: RiskLevel): string
  {
    match l
    case Safe => "safe"
    case Low => "low"
    case Medium => "medium"
    case High => "high"
  }

  /** The position of a level on the scale safe < low < medium < high. */
  function LevelOrder(l: RiskLevel): nat
  {
    match l
    case Safe => 0
    case Low => 1
    case Medium => 2
    case High => 3
  }

  /** categorize_risk_score. */
  function CategorizeRiskScore(score: real): RiskLevel
  {
    if score < 40.0 then Safe
    else if score < 60.0 then Low
    else if score < 80.0 then Medium
    else High
  }

  /** Each level is exactly one band of scores, so every score gets one level. */
  lemma CategorizeRiskScoreBands(score: real)
    ensures CategorizeRiskScore(score) == Safe <==> score < 40.0
    ensures CategorizeRiskScore(score) == Low <==> 40.0 <= score < 60.0
    ensures CategorizeRiskScore(score) == Medium <==> 60.0 <= score < 80.0
    ensures CategorizeRiskScore(score) == High <==> 80.0 <= score
  {
  }

  /** A higher score never gets a lower level. */
  lemma CategorizeRiskScoreMonotone(s1: real, s2: real)
    requires s1 <= s2
    ensures LevelOrder(CategorizeRiskScore(s1)) <= LevelOrder(CategorizeRiskScore(s2))
  {
  }

  /** FeatureContribution. */
  datatype FeatureContribution = FeatureContribution(name: string, value: real, contribution: real)

  /** CellWithFactors (a GridCell with its factors and confidence). */
  datatype CellWithFactors = CellWithFactors(id: string, lat: real, lng: real, riskScore: real,
                                             riskLevel: RiskLevel, factors: seq<FeatureContribution>,
                                             confidence: real)

  /** Why a record could not be built: the factor dictionary at an index
      failed to validate (the factors are converted first, in order), or the
      cell's range-constrained fields that are out of range, in declaration order. */
  datatype SchemaError = BadContribution(index: nat) | BadCell(fields: seq<string>)

  /** The default of CellWithFactors.confidence. */
  const DefaultConfidence: real := 1.0

  /** `FeatureContribution(**f)`: name must be a string and value and
      contribution numbers; other keys are ignored. */
  function ParseContribution(f: map<string, Value>): Option<FeatureContribution>
  {
    if "name" in f && f["name"].Text? && "value" in f && f["value"].Num?
       && "contribution" in f && f["contribution"].Num?
    then Some(FeatureContribution(f["name"].s, f["value"].x, f["contribution"].x))
    else None
  }

  /** The list comprehension over the factor dictionaries: the first one that
      fails to validate stops it. */
  function ParseFactors(fs: seq<map<string, Value>>): (r: Result<seq<FeatureContribution>, nat>)
    ensures r.Success? ==> |r.value| == |fs| && forall i :: 0 <= i < |fs| ==> ParseContribution(fs[i]) == Some(r.value[i])
    ensures r.Failure? ==>
              && r.error < |fs| && ParseContribution(fs[r.error]).None?
              && forall i :: 0 <= i < r.error ==> ParseContribution(fs[i]).Some?
  {
    if |fs| == 0 then Success([])
    else
      match ParseContribution(fs[0])
      case None => Failure(0)
      case Some(c) =>
        match ParseFactors(fs[1..])
        case Success(rest) => Success([c] + rest)
        case Failure(k) => Failure(k + 1)
  }

  /** The names of the cell's range-constrained fields that are out of range:
      risk_score in [0, 100] and confidence in [0, 1]. */
  function RangeErrors(riskScore: real, confidence: real): seq<string>
  {
    (if 0.0 <= riskScore <= 100.0 then [] else ["risk_score"])
    + (if 0.0 <= confidence <= 1.0 then [] else ["confidence"])
  }

  /** create_grid_cell. */
  function CreateGridCell(cellId: string, lat: real, lng: real, riskScore: real,
                          factors: Option<seq<map<string, Value>>>, confidence: real)
    : (r: Result<CellWithFactors, SchemaError>)
    ensures var given := if factors.Some? then factors.value else [];
      && (r.Success? <==> ParseFactors(given).Success? && 0.0 <= riskScore <= 100.0 && 0.0 <= confidence <= 1.0)
      && (r.Success? ==>
            && r.value.id == cellId && r.value.lat == lat && r.value.lng == lng
            && r.value.riskScore == riskScore && r.value.riskLevel == CategorizeRiskScore(riskScore)
            && r.value.confidence == confidence
            && |r.value.factors| == |given|
            && forall i :: 0 <= i < |given| ==> ParseContribution(given[i]) == Some(r.value.factors[i]))
      && (ParseFactors(given).Failure? ==> r == Failure(BadContribution(ParseFactors(given).error)))
      && (r.Failure? && r.error.BadCell? ==>
            ("risk_score" in r.error.fields <==> !(0.0 <= riskScore <= 100.0))
            && ("confidence" in r.error.fields <==> !(0.0 <= confidence <= 1.0)))
  {
    var given := if factors.Some? then factors.value else [];
    match ParseFactors(given)
    case Failure(k) => Failure(BadContribution(k))
    case Success(fs) =>
      var errors := RangeErrors(riskScore, confidence);
      if |errors| > 0 then Failure(BadCell(errors))
      else Success(CellWithFactors(cellId, lat, lng, riskScore, CategorizeRiskScore(riskScore), fs, confidence))
  }

  /** With no factors and the default confidence, construction succeeds
      exactly for a score in [0, 100], and the cell has no factors. */
  lemma CreateGridCellDefaults(cellId: string, lat: real, lng: real, riskScore: real)
    ensures var r := CreateGridCell(cellId, lat, lng, riskScore, None, DefaultConfidence);
      (r.Success? <==> 0.0 <= riskScore <= 100.0)
      && (r.Success? ==> r.value.factors == [] && r.value.confidence == 1.0)
      && (r.Failure? ==> r == Failure(BadCell(["risk_score"])))
  {
    assert ParseFactors([]) == Success([]);
    assert RangeErrors(riskScore, DefaultConfidence)
        == if 0.0 <= riskScore <= 100.0 then [] else ["risk_score"];
  }

  /** A GeoJSON geometry: its type and its rings of [lng, lat] positions. */
  datatype Geometry = Geometry(kind: string, coordinates: seq<seq<seq<real>>>)

  /** GeoJSONFeature. */
  datatype GeoJsonFeature = GeoJsonFeature(kind: string, geometry: Geometry, properties: CellWithFactors)

  /** create_geojson_feature: a Polygon with the given ring as its only ring,
      and the cell as its properties. */
  function CreateGeoJsonFeature(cell: CellWithFactors, ring: seq<seq<real>>): (f: GeoJsonFeature)
    ensures f.kind == "Feature" && f.geometry.kind == "Polygon"
    ensures |f.geometry.coordinates| == 1 && f.geometry.coordinates[0] == ring
    ensures f.properties == cell
  {
    GeoJsonFeature("Feature", Geometry("Polygon", [ring]), cell)
  }
}
