/** The risk prediction wrapper around the trained booster
    (backend/models/risk_model.py): loading the model bundle and its metadata,
    imputing missing features by name, turning the booster's raw output into
    an integer score, a level, a confidence and a list of normalised risk
    factors. The booster's predict call is the parameter `engine`; the
    random.randint draws are the inputs `FactorDraws`. */
module RiskModel {
  import opened Common
  import opened Storage

  // ---------------------------------------------------------------------
  // Cells and predictions
  // ---------------------------------------------------------------------

  /** An input cell: its own keys and, when it has one, its feature dictionary. */
  datatype InputCell = InputCell(entries: map<string, Value>, features: Option<map<string, Value>>)

  /** `cell.get('features', {})`. */
  function FeaturesOf(cell: InputCell): map<string, Value>
  {
    if cell.features.Some? then cell.features.value else map[]
  }

  /** The six factors _generate_risk_factors can report. */
  datatype FactorKind = HumidWarmth | LowHumidity | Waterlogging | PestPressure | VegetationStress | PestClimate

  /** One entry of risk_factors: the kind fixes its 'factor' and 'description' texts. */
  datatype Factor = Factor(kind: FactorKind, contribution: int)

  /** The entry's 'factor' text. */
  function FactorName(k: FactorKind): string
  {
    match k
    case HumidWarmth => "High Humidity & Warmth"
    case LowHumidity => "Low Humidity"
    case Waterlogging => "Waterlogging"
    case PestPressure => "High Pest Pressure"
    case VegetationStress => "Vegetation Stress"
    case PestClimate => "Favorable Pest Climate"
  }

  /** The entry's 'description' text. */
  function FactorDescription(k: FactorKind): string
  {
    match k
    case HumidWarmth => "Ideal conditions for fungal pathogens"
    case LowHumidity => "Water stress increases pest susceptibility"
    case Waterlogging => "Root rot risk and anaerobic conditions"
    case PestPressure => "Recent pest outbreaks in vicinity"
    case VegetationStress => "Low NDVI indicates crop stress"
    case PestClimate => "Environmental conditions match pest lifecycle"
  }

  /** The model_metadata record of a prediction. */
  datatype ModelMetadata = ModelMetadata(version: Value, modelType: Value, featuresUsed: nat, predictionTime: string)

  /** A prediction: the input cell with the five keys predict_batch adds. */
  datatype Prediction = Prediction(cell: InputCell, riskScore: int, riskLevel: string, confidence: real,
                                   riskFactors: seq<Factor>, modelMetadata: ModelMetadata)

  datatype LoadError =
      /** FileNotFoundError: no model file at the path. */
      ModelFileNotFound(path: Path)
      /** RuntimeError: the file at the path could not be loaded. */
    | LoadFailed(path: Path)

  datatype PredictError =
      /** RuntimeError raised before any work when no model is loaded. */
      ModelNotLoaded
      /** The booster refuses the frame: it has no columns, or a column holds strings. */
    | ModelRejectedInput

  /** The booster's predict on one row of the frame, in feature_names order. */
  type Engine = (Booster, seq<Value>) -> real

  // ---------------------------------------------------------------------
  // Loading
  // ---------------------------------------------------------------------

  const DefaultModelPath: Path := Path(TrainedDir, "risk_model_v1.pkl")

  /** The state a successful load leaves behind. */
  datatype LoadedModel = LoadedModel(model: Booster, featureNames: seq<string>,
                                     labelEncoders: map<string, LabelEncoder>, metadata: map<string, Value>)

  /** `artifacts.get('label_encoders', {})`. */
  function EncodersOf(bundle: Artifact): map<string, LabelEncoder>
    requires bundle.ModelBundle?
  {
    if bundle.labelEncoders.Some? then bundle.labelEncoders.value else map[]
  }

  /** The outcome of constructing the wrapper on a file system, starting from
      empty metadata: the model file must exist and hold a bundle; a metadata
      file next to it, when there is one, must hold a JSON object. */
  function LoadOutcome(path: Path, fs: FileSystem): (r: Result<LoadedModel, LoadError>)
    ensures path !in fs ==> r == Failure(ModelFileNotFound(path))
    ensures r.Success? ==> (path in fs && fs[path].ModelBundle?
      && r.value.model == fs[path].model && r.value.featureNames == fs[path].featureNames)
  {
    if path !in fs then Failure(ModelFileNotFound(path))
    else if !fs[path].ModelBundle? then Failure(LoadFailed(path))
    else
      var bundle := fs[path];
      var mp := MetadataPath(path);
      if mp in fs && !fs[mp].JsonObject? then Failure(LoadFailed(mp))
      else Success(LoadedModel(bundle.model, bundle.featureNames, EncodersOf(bundle),
                               if mp in fs then fs[mp].entries else map[]))
  }

  /** A model file whose name has no '.pkl' is its own metadata path, so the
      loader reads the pickle as JSON and fails. */
  lemma LoadNeedsPklName(path: Path, fs: FileSystem)
    requires path in fs && !Contains(path.name, ".pkl")
    ensures LoadOutcome(path, fs) == Failure(LoadFailed(path))
  {
    assert MetadataPath(path) == path;
  }

  /** A bundle saved as `<base>.pkl` with a metadata object saved as
      `<base>_metadata.json` in the same directory loads with both. */
  lemma LoadFindsBundleAndMetadata(dir: string, base: string, fs: FileSystem)
    requires !Contains(base, ".pkl")
    requires Path(dir, base + ".pkl") in fs && fs[Path(dir, base + ".pkl")].ModelBundle?
    requires Path(dir, base + "_metadata.json") in fs && fs[Path(dir, base + "_metadata.json")].JsonObject?
    ensures LoadOutcome(Path(dir, base + ".pkl"), fs) ==
      Success(LoadedModel(fs[Path(dir, base + ".pkl")].model, fs[Path(dir, base + ".pkl")].featureNames,
                          EncodersOf(fs[Path(dir, base + ".pkl")]), fs[Path(dir, base + "_metadata.json")].entries))
  {
    MetadataNameOfPkl(base);
  }

  // ---------------------------------------------------------------------
  // Imputation
  // ---------------------------------------------------------------------

  /** `features.get(name)`. */
  function Lookup(f: map<string, Value>, name: string): Option<Value>
  {
    if name in f then Some(f[name]) else None
  }

  /** A value counts as missing when it is None (or absent), or a string that
      is not digits with at most one '.'. Numbers, infinities and NaN count as
      present. */
  predicate IsMissing(v: Option<Value>)
  {
    v.None? || v.value.Null? || (v.value.Text? && !IsDigits(RemoveFirst(v.value.s, '.')))
  }

  /** The default for a missing feature; the rules are tried in this order. */
  function DefaultFor(name: string): Value
  {
    if Contains(name, "encoded") then Num(0.0)
    else if Contains(name, "dist_") then Num(5000.0)
    else if name == "ndvi" then Num(0.6)
    else if name == "humidity" then Num(60.0)
    else if name == "temperature" then Num(25.0)
    else if name == "soil_moisture" then Num(0.5)
    else Num(0.0)
  }

  /** The value clean_features holds for one feature name. */
  function CleanValue(f: map<string, Value>, name: string): Value
  {
    if IsMissing(Lookup(f, name)) then DefaultFor(name) else f[name]
  }

  /** clean_features: one entry per feature name. */
  function CleanDict(f: map<string, Value>, names: seq<string>): map<string, Value>
  {
    map n | n in names :: CleanValue(f, n)
  }

  /** A row of `df[feature_names]`. */
  function CleanRow(f: map<string, Value>, names: seq<string>): seq<Value>
  {
    seq(|names|, i requires 0 <= i < |names| => CleanValue(f, names[i]))
  }

  /** missing_count: how many feature names (with repetitions) were missing. */
  function MissingCount(f: map<string, Value>, names: seq<string>): (n: nat)
    ensures n <= |names|
  {
    if |names| == 0 then 0
    else MissingCount(f, names[..|names| - 1]) + (if IsMissing(Lookup(f, names[|names| - 1])) then 1 else 0)
  }

  /** The inner loop of predict_batch for one cell. */
  method ImputeFeatures(f: map<string, Value>, names: seq<string>) returns (clean: map<string, Value>, missing: nat)
    ensures clean == CleanDict(f, names)
    ensures missing == MissingCount(f, names)
  {
    clean := map[];
    missing := 0;
    for i := 0 to |names|
      invariant clean == CleanDict(f, names[..i])
      invariant missing == MissingCount(f, names[..i])
    {
      var name := names[i];
      var value := Lookup(f, name);
      assert names[..i + 1][..i] == names[..i];
      if IsMissing(value) {
        missing := missing + 1;
        clean := clean[name := DefaultFor(name)];
      } else {
        clean := clean[name := value.value];
      }
      assert clean == CleanDict(f, names[..i + 1]);
    }
    assert names[..|names|] == names;
  }

  /** Every name the model takes is in clean_features: defaults replace the
      missing values and every other value passes through unchanged. */
  lemma ImputationRules(f: map<string, Value>, names: seq<string>)
    ensures CleanDict(f, names).Keys == set n | n in names
    ensures forall n :: n in names && IsMissing(Lookup(f, n)) ==> CleanDict(f, names)[n] == DefaultFor(n)
    ensures forall n :: n in names && !IsMissing(Lookup(f, n)) ==> n in f && CleanDict(f, names)[n] == f[n]
  {
  }

  /** No value left after imputation counts as missing, so imputing the
      cleaned dictionary again changes nothing and counts nothing. */
  lemma ImputationIdempotent(f: map<string, Value>, names: seq<string>)
    ensures MissingCount(CleanDict(f, names), names) == 0
    ensures CleanDict(CleanDict(f, names), names) == CleanDict(f, names)
  {
    forall n | n in names
      ensures !IsMissing(Lookup(CleanDict(f, names), n))
    {
      DefaultsArePresent(n);
    }
    NoneMissing(CleanDict(f, names), names);
  }

  lemma DefaultsArePresent(name: string)
    ensures DefaultFor(name).Num?
  {
  }

  lemma {:induction false} NoneMissing(f: map<string, Value>, names: seq<string>)
    requires forall n :: n in names ==> !IsMissing(Lookup(f, n))
    ensures MissingCount(f, names) == 0
  {
    if |names| > 0 {
      assert names[|names| - 1] in names;
      NoneMissing(f, names[..|names| - 1]);
    }
  }

  /** The missing count is zero exactly when no feature is missing. */
  lemma {:induction false} MissingCountZero(f: map<string, Value>, names: seq<string>)
    ensures MissingCount(f, names) == 0 <==> forall i :: 0 <= i < |names| ==> !IsMissing(Lookup(f, names[i]))
  {
    if |names| > 0 {
      var init := names[..|names| - 1];
      MissingCountZero(f, init);
      if MissingCount(f, names) == 0 {
        forall i | 0 <= i < |names|
          ensures !IsMissing(Lookup(f, names[i]))
        {
          if i < |names| - 1 {
            assert names[i] == init[i];
          }
        }
      }
    }
  }

  /** A decimal string with one '.' is kept as present, and so is NaN. */
  lemma NumericStringKept()
    ensures !IsMissing(Some(Text("12.5"))) && !IsMissing(Some(NaN))
  {
    assert RemoveFirst("5", '.') == "5";
    assert RemoveFirst(".5", '.') == "5";
    assert RemoveFirst("12.5", '.') == "125";
    assert IsDigits("125");
  }

  /** A string with a second '.', an empty string, a word, None and an
      absent value are missing. */
  lemma NonNumericStringsMissing()
    ensures IsMissing(Some(Text("1.2.5"))) && IsMissing(Some(Text(""))) && IsMissing(Some(Text("n/a")))
    ensures IsMissing(Some(Null)) && IsMissing(None)
  {
    assert RemoveFirst(".2.5", '.') == "2.5";
    assert RemoveFirst("1.2.5", '.') == "12.5";
    assert "12.5"[2] == '.';
    assert RemoveFirst("n/a", '.') == "n/a";
    assert "n/a"[0] == 'n';
  }

  /** A name containing 'encoded' takes the encoding default even when it
      also names a distance. */
  lemma EncodedRuleComesFirst(name: string)
    requires Contains(name, "encoded") && Contains(name, "dist_")
    ensures DefaultFor(name) == Num(0.0)
  {
  }

  // ---------------------------------------------------------------------
  // Score and level
  // ---------------------------------------------------------------------

  /** `int(round(np.clip(raw, 0, 100)))`. */
  function RiskScore(raw: real): (s: int)
    ensures 0 <= s <= 100
  {
    var clipped := Clip(raw, 0.0, 100.0);
    RoundHalfEvenBetween(clipped, 0, 100);
    RoundHalfEven(clipped)
  }

  /** The score is the nearest integer to the clipped output, the bounds when
      the output leaves [0, 100], and it grows with the output. */
  lemma RiskScoreProperties(raw: real, raw2: real)
    ensures 0.0 <= raw <= 100.0 ==> raw - 0.5 <= RiskScore(raw) as real <= raw + 0.5
    ensures raw < 0.0 ==> RiskScore(raw) == 0
    ensures raw > 100.0 ==> RiskScore(raw) == 100
    ensures raw <= raw2 ==> RiskScore(raw) <= RiskScore(raw2)
  {
    if raw <= raw2 {
      RoundHalfEvenMonotone(Clip(raw, 0.0, 100.0), Clip(raw2, 0.0, 100.0));
    }
  }

  /** _categorize_risk. */
  function CategorizeRisk(score: int): string
  {
    if score >= 80 then "critical"
    else if score >= 60 then "high"
    else if score >= 40 then "medium"
    else "low"
  }

  /** The position of a level in low < medium < high < critical. */
  function LevelRank(level: string): int
  {
    if level == "low" then 0
    else if level == "medium" then 1
    else if level == "high" then 2
    else if level == "critical" then 3
    else -1
  }

  /** A higher score never gets a lower level, and each level covers its band. */
  lemma CategorizeRiskMonotone(s1: int, s2: int)
    requires s1 <= s2
    ensures 0 <= LevelRank(CategorizeRisk(s1)) <= LevelRank(CategorizeRisk(s2)) <= 3
  {
  }

  lemma CategorizeRiskBands(s: int)
    ensures CategorizeRisk(s) == "critical" <==> s >= 80
    ensures CategorizeRisk(s) == "high" <==> 60 <= s < 80
    ensures CategorizeRisk(s) == "medium" <==> 40 <= s < 60
    ensures CategorizeRisk(s) == "low" <==> s < 40
  {
  }

  // ---------------------------------------------------------------------
  // Confidence
  // ---------------------------------------------------------------------

  /** `features.isnull().sum()` on a row. */
  function NullCount(row: seq<Value>): (n: nat)
    ensures n <= |row|
  {
    if |row| == 0 then 0 else (if IsNull(row[0]) then 1 else 0) + NullCount(row[1..])
  }

  function Abs(x: int): nat
  {
    if x < 0 then -x else x
  }

  function Completeness(row: seq<Value>): real
    requires |row| > 0
  {
    1.0 - NullCount(row) as real / |row| as real
  }

  function ScoreConfidence(score: int): real
  {
    1.0 - Abs(score - 50) as real / 50.0 * 0.3
  }

  /** _calculate_confidence. */
  function CalculateConfidence(score: int, row: seq<Value>): real
    requires |row| > 0
  {
    ConfidenceFrom(Completeness(row), ScoreConfidence(score))
  }

  /** `round(completeness * score_confidence, 3)`. */
  function ConfidenceFrom(completeness: real, scoreConfidence: real): real
  {
    RoundDecimals(completeness * scoreConfidence, 3)
  }

  /** The factor `max(0.5, 1 - missing / len(feature_names))`. */
  function PenaltyFactor(missing: nat, n: nat): (p: real)
    requires n > 0
    ensures 0.5 <= p <= 1.0
    ensures missing == 0 ==> p == 1.0
    ensures 2 * missing >= n ==> p == 0.5
  {
    Max(0.5, 1.0 - missing as real / n as real)
  }

  lemma CompletenessRange(row: seq<Value>)
    requires |row| > 0
    ensures 0.0 <= Completeness(row) <= 1.0
    ensures Completeness(row) == 1.0 <==> NullCount(row) == 0
  {
    FractionRange(NullCount(row) as real, |row| as real);
  }

  lemma FractionRange(n: real, m: real)
    requires 0.0 <= n <= m && m > 0.0
    ensures 0.0 <= n / m <= 1.0
    ensures n / m == 0.0 <==> n == 0.0
  {
    DivMonotone(0.0, n, m);
    DivMonotone(n, m, m);
  }

  /** The score term is 1 at 50, falls off linearly and symmetrically, and
      stays in [0.7, 1] on [0, 100]. */
  lemma ScoreConfidenceShape(score: int, d: int)
    ensures ScoreConfidence(50) == 1.0 && ScoreConfidence(score) <= 1.0
    ensures ScoreConfidence(50 + d) == ScoreConfidence(50 - d)
    ensures 0 <= score <= 100 ==> 0.7 <= ScoreConfidence(score)
  {
  }

  /** With every value present and a score in [0, 100] the confidence lies
      in [0.7, 1]; at 50 it is exactly 1. */
  lemma ConfidenceFullData(score: int, row: seq<Value>)
    requires |row| > 0 && NullCount(row) == 0 && 0 <= score <= 100
    ensures 0.7 <= CalculateConfidence(score, row) <= 1.0
    ensures CalculateConfidence(50, row) == 1.0
  {
    ScoreConfidenceShape(score, 0);
    assert Completeness(row) == 1.0;
    assert Pow10(3) == 1000;
    RoundDecimalsBetween(ScoreConfidence(score), 3, 700, 1000);
    RoundDecimalsInteger(1, 3);
  }

  lemma MulLeftMonotone(c: real, a: real, b: real)
    requires c >= 0.0 && a <= b
    ensures c * a <= c * b
  {
    assert c * b - c * a == c * (b - a);
  }

  /** Confidence lies in [0, 1] for a score in [0, 100], peaks at 50 and is
      symmetric about 50, whatever the completeness. */
  lemma ConfidenceShape(score: int, d: int, row: seq<Value>)
    requires |row| > 0
    ensures 0 <= score <= 100 ==> 0.0 <= CalculateConfidence(score, row) <= 1.0
    ensures CalculateConfidence(score, row) <= CalculateConfidence(50, row)
    ensures CalculateConfidence(50 + d, row) == CalculateConfidence(50 - d, row)
  {
    CompletenessRange(row);
    ScoreConfidenceShape(score, d);
    ConfidenceFromShape(Completeness(row), ScoreConfidence(score), ScoreConfidence(50));
  }

  lemma ConfidenceFromShape(c: real, s1: real, s2: real)
    requires 0.0 <= c <= 1.0 && s1 <= s2
    ensures ConfidenceFrom(c, s1) <= ConfidenceFrom(c, s2)
    ensures 0.0 <= s1 <= 1.0 ==> 0.0 <= ConfidenceFrom(c, s1) <= 1.0
  {
    if 0.0 <= s1 <= 1.0 {
      ScaleDown(s1, c);
      RoundDecimalsUnit(c * s1, 3);
    }
    MulLeftMonotone(c, s1, s2);
    RoundDecimalsMonotone(c * s1, c * s2, 3);
  }

  /** The confidence a prediction reports: the rounded confidence, times the
      penalty factor when the input had missing features. */
  function ReportedConfidence(score: int, row: seq<Value>, missing: nat): real
    requires |row| > 0
  {
    Penalised(CalculateConfidence(score, row), missing, |row|)
  }

  /** `confidence *= max(0.5, 1 - missing / n)` when something was missing:
      the penalty never raises a non-negative confidence nor makes it negative. */
  function Penalised(confidence: real, missing: nat, n: nat): (r: real)
    requires n > 0
    ensures 0.0 <= confidence ==> 0.0 <= r <= confidence
    ensures missing == 0 ==> r == confidence
  {
    if missing > 0 then
      ScaleDown(confidence, PenaltyFactor(missing, n));
      confidence * PenaltyFactor(missing, n)
    else confidence
  }

  /** The reported confidence stays in [0, 1], and the penalty never raises it. */
  lemma ReportedConfidenceRange(score: int, row: seq<Value>, missing: nat)
    requires |row| > 0 && 0 <= score <= 100
    ensures 0.0 <= ReportedConfidence(score, row, missing) <= CalculateConfidence(score, row) <= 1.0
  {
    ConfidenceShape(score, 0, row);
  }

  lemma ScaleDown(c: real, p: real)
    requires 0.0 <= p <= 1.0
    ensures 0.0 <= c ==> 0.0 <= c * p <= c
  {
    if 0.0 <= c {
      MulLeftMonotone(c, 0.0, p);
      MulLeftMonotone(c, p, 1.0);
    }
  }

  // ---------------------------------------------------------------------
  // Risk factors
  // ---------------------------------------------------------------------

  /** The random.randint contributions, one per possible factor, each drawn
      from its stated range. */
  datatype FactorDraws = FactorDraws(humidWarmth: int, lowHumidity: int, waterlogging: int,
                                     pestPressure: int, vegetationStress: int, pestClimate: int)

  predicate DrawsInRange(d: FactorDraws)
  {
    25 <= d.humidWarmth <= 35 && 15 <= d.lowHumidity <= 25 && 20 <= d.waterlogging <= 30
    && 20 <= d.pestPressure <= 30 && 15 <= d.vegetationStress <= 25 && 15 <= d.pestClimate <= 25
  }

  /** `value > t` on a row value; NaN compares false. */
  predicate Exceeds(v: Value, t: real)
  {
    (v.Num? && v.x > t) || v.Inf?
  }

  /** `value < t` on a row value. */
  predicate FallsBelow(v: Value, t: real)
  {
    v.Num? && v.x < t
  }

  function HumidWarmthFactor(c: int): Factor { Factor(HumidWarmth, c) }
  function LowHumidityFactor(c: int): Factor { Factor(LowHumidity, c) }
  function WaterloggingFactor(c: int): Factor { Factor(Waterlogging, c) }
  function PestPressureFactor(c: int): Factor { Factor(PestPressure, c) }
  function VegetationStressFactor(c: int): Factor { Factor(VegetationStress, c) }
  function PestClimateFactor(c: int): Factor { Factor(PestClimate, c) }

  /** dict.get on a row. */
  function RowGet(row: map<string, Value>, name: string, default: Value): Value
  {
    if name in row then row[name] else default
  }

  /** The humidity/temperature check: at most one of its two factors. */
  function ClimateFactors(row: map<string, Value>, d: FactorDraws): seq<Factor>
  {
    var humidity := RowGet(row, "humidity", Num(50.0));
    var temp := RowGet(row, "temperature", Num(25.0));
    if Exceeds(humidity, 80.0) && Exceeds(temp, 20.0) then [HumidWarmthFactor(d.humidWarmth)]
    else if FallsBelow(humidity, 30.0) then [LowHumidityFactor(d.lowHumidity)]
    else []
  }

  function SoilFactors(row: map<string, Value>, d: FactorDraws): seq<Factor>
  {
    if Exceeds(RowGet(row, "soil_moisture", Num(0.5)), 0.8) then [WaterloggingFactor(d.waterlogging)] else []
  }

  function PestFactors(row: map<string, Value>, d: FactorDraws): seq<Factor>
  {
    if Exceeds(RowGet(row, "pest_pressure_history", Num(0.0)), 2.0) then [PestPressureFactor(d.pestPressure)] else []
  }

  function CropFactors(row: map<string, Value>, d: FactorDraws): seq<Factor>
  {
    if FallsBelow(RowGet(row, "ndvi", Num(0.6)), 0.4) then [VegetationStressFactor(d.vegetationStress)] else []
  }

  /** The factors found before normalisation: the four checks in order, then
      the fallback factor when fewer than two were found and the score is above 60. */
  function RawFactors(row: map<string, Value>, score: int, d: FactorDraws): seq<Factor>
  {
    var found := ClimateFactors(row, d) + SoilFactors(row, d) + PestFactors(row, d) + CropFactors(row, d);
    if |found| < 2 && score > 60 then found + [PestClimateFactor(d.pestClimate)] else found
  }

  /** `sum(f['contribution'] for f in factors)`. */
  function Total(fs: seq<Factor>): int
  {
    if |fs| == 0 then 0 else fs[0].contribution + Total(fs[1..])
  }

  /** Every contribution replaced by `int(c / total * 100)`. */
  function Scaled(fs: seq<Factor>, total: int): (r: seq<Factor>)
    requires total > 0
    ensures |r| == |fs|
    ensures forall i :: 0 <= i < |fs| ==> r[i] == fs[i].(contribution := Truncate(fs[i].contribution * 100, total))
  {
    if |fs| == 0 then []
    else [fs[0].(contribution := Truncate(fs[0].contribution * 100, total))] + Scaled(fs[1..], total)
  }

  /** Python's int(a / b) for b > 0: the quotient truncated toward zero. */
  function Truncate(a: int, b: int): (q: int)
    requires b > 0
    ensures a >= 0 ==> q == a / b
  {
    if a >= 0 then a / b else -((-a) / b)
  }

  /** The factors after the normalisation step. */
  function Normalize(fs: seq<Factor>): seq<Factor>
  {
    if Total(fs) > 0 then Scaled(fs, Total(fs)) else fs
  }

  /** _generate_risk_factors: the checks append in order, then the
      contributions are normalised in place. */
  method GenerateRiskFactors(row: map<string, Value>, score: int, d: FactorDraws) returns (factors: seq<Factor>)
    ensures factors == Normalize(RawFactors(row, score, d))
  {
    factors := [];
    var humidity := RowGet(row, "humidity", Num(50.0));
    var temp := RowGet(row, "temperature", Num(25.0));
    if Exceeds(humidity, 80.0) && Exceeds(temp, 20.0) {
      factors := factors + [HumidWarmthFactor(d.humidWarmth)];
    } else if FallsBelow(humidity, 30.0) {
      factors := factors + [LowHumidityFactor(d.lowHumidity)];
    }
    assert factors == ClimateFactors(row, d);
    var soilMoisture := RowGet(row, "soil_moisture", Num(0.5));
    if Exceeds(soilMoisture, 0.8) {
      factors := factors + [WaterloggingFactor(d.waterlogging)];
    }
    assert factors == ClimateFactors(row, d) + SoilFactors(row, d);
    var pestPressure := RowGet(row, "pest_pressure_history", Num(0.0));
    if Exceeds(pestPressure, 2.0) {
      factors := factors + [PestPressureFactor(d.pestPressure)];
    }
    assert factors == ClimateFactors(row, d) + SoilFactors(row, d) + PestFactors(row, d);
    var ndvi := RowGet(row, "ndvi", Num(0.6));
    if FallsBelow(ndvi, 0.4) {
      factors := factors + [VegetationStressFactor(d.vegetationStress)];
    }
    assert factors == ClimateFactors(row, d) + SoilFactors(row, d) + PestFactors(row, d) + CropFactors(row, d);
    if |factors| < 2 && score > 60 {
      factors := factors + [PestClimateFactor(d.pestClimate)];
    }
    assert factors == RawFactors(row, score, d);
    factors := NormalizeContributions(factors);
  }

  /** The normalisation loop at the end of _generate_risk_factors. */
  method NormalizeContributions(found: seq<Factor>) returns (factors: seq<Factor>)
    ensures factors == Normalize(found)
  {
    factors := found;
    var total := Total(factors);
    if total > 0 {
      for i := 0 to |factors|
        invariant |factors| == |found|
        invariant forall j :: 0 <= j < i ==> factors[j] == found[j].(contribution := Truncate(found[j].contribution * 100, total))
        invariant forall j :: i <= j < |factors| ==> factors[j] == found[j]
      {
        factors := factors[i := factors[i].(contribution := Truncate(factors[i].contribution * 100, total))];
      }
    }
  }

  /** Contributions are all positive. */
  predicate PositiveContributions(fs: seq<Factor>)
  {
    forall i :: 0 <= i < |fs| ==> fs[i].contribution > 0
  }

  lemma {:induction false} TotalPositive(fs: seq<Factor>)
    requires PositiveContributions(fs) && |fs| > 0
    ensures Total(fs) >= |fs|
  {
    if |fs| > 1 {
      TotalPositive(fs[1..]);
    }
  }

  /** Truncating one quotient loses less than one: 0 <= a - t·(a / t) <= t - 1. */
  lemma QuotientRemainder(a: int, t: int)
    requires a >= 0 && t > 0
    ensures 0 <= a - t * (a / t) <= t - 1
  {
  }

  /** Summing the truncated quotients loses less than one per factor:
      0 <= 100·Total(fs) − total·Total(Scaled(fs, total)) <= (total − 1)·|fs|. */
  lemma {:induction false} ScaledSumBounds(fs: seq<Factor>, total: int)
    requires total > 0 && forall i :: 0 <= i < |fs| ==> fs[i].contribution >= 0
    ensures 0 <= 100 * Total(fs) - total * Total(Scaled(fs, total)) <= (total - 1) * |fs|
  {
    if |fs| > 0 {
      var c := fs[0].contribution;
      var q := (c * 100) / total;
      var scaled := Scaled(fs, total);
      assert scaled[1..] == Scaled(fs[1..], total);
      var restTotal, restScaled := Total(fs[1..]), Total(Scaled(fs[1..], total));
      assert Total(scaled) == q + restScaled;
      ScaledSumBounds(fs[1..], total);
      QuotientRemainder(c * 100, total);
      LossesAdd(c, q, total, restTotal, restScaled, |fs[1..]|);
    }
  }

  /** The losses of one quotient and of the rest add up. */
  lemma LossesAdd(c: int, q: int, total: int, restTotal: int, restScaled: int, n: nat)
    requires 0 <= c * 100 - total * q <= total - 1
    requires 0 <= 100 * restTotal - total * restScaled <= (total - 1) * n
    ensures 0 <= 100 * (c + restTotal) - total * (q + restScaled) <= (total - 1) * (n + 1)
  {
    assert 100 * (c + restTotal) - total * (q + restScaled)
        == (c * 100 - total * q) + (100 * restTotal - total * restScaled);
    assert (total - 1) * (n + 1) == (total - 1) + (total - 1) * n;
  }

  /** A non-empty list of positive contributions normalises to integers that
      sum to at most 100 and to more than 100 minus the number of factors. */
  lemma NormalizedSum(fs: seq<Factor>)
    requires |fs| > 0 && PositiveContributions(fs)
    ensures 100 - |fs| < Total(Normalize(fs)) <= 100
  {
    TotalPositive(fs);
    var t := Total(fs);
    ScaledSumBounds(fs, t);
    var s := Total(Scaled(fs, t));
    assert t * (100 - s) <= (t - 1) * |fs|;
    assert (t - 1) * |fs| < t * |fs|;
    assert t * (100 - s) < t * |fs|;
    LessAfterScaling(100 - s, |fs|, t);
    assert t * s <= t * 100 < t * 101;
    LessAfterScaling(s, 101, t);
  }

  lemma LessAfterScaling(a: int, b: int, t: int)
    requires t > 0 && t * a < t * b
    ensures a < b
  {
  }

  /** Normalised contributions each lie in [0, 100]. */
  lemma NormalizedEachInRange(fs: seq<Factor>)
    requires PositiveContributions(fs)
    ensures forall i :: 0 <= i < |fs| ==> 0 <= Normalize(fs)[i].contribution <= 100
  {
    if |fs| > 0 {
      TotalPositive(fs);
      forall i | 0 <= i < |fs|
        ensures 0 <= Normalize(fs)[i].contribution <= 100
      {
        TotalAtLeastOne(fs, i);
        var c := fs[i].contribution;
        var t := Total(fs);
        assert c * 100 <= t * 100;
        QuotientAtMost(c * 100, t, 100);
      }
    }
  }

  lemma {:induction false} TotalAtLeastOne(fs: seq<Factor>, i: int)
    requires PositiveContributions(fs) && 0 <= i < |fs|
    ensures fs[i].contribution <= Total(fs)
  {
    if i > 0 {
      TotalAtLeastOne(fs[1..], i - 1);
    } else if |fs| > 1 {
      TotalPositive(fs[1..]);
    }
  }

  lemma QuotientAtMost(a: int, t: int, m: int)
    requires t > 0 && 0 <= a <= t * m
    ensures 0 <= a / t <= m
  {
  }

  /** The raw factor list holds at most four factors, at least one when the
      score is above 60, and only at most one climate factor. */
  lemma RawFactorsShape(row: map<string, Value>, score: int, d: FactorDraws)
    requires DrawsInRange(d)
    ensures |RawFactors(row, score, d)| <= 4
    ensures score > 60 ==> |RawFactors(row, score, d)| >= 1
    ensures PositiveContributions(RawFactors(row, score, d))
  {
    var c, s, p, k := ClimateFactors(row, d), SoilFactors(row, d), PestFactors(row, d), CropFactors(row, d);
    PartsShape(row, d);
    PositiveAppend(c, s);
    PositiveAppend(c + s, p);
    PositiveAppend(c + s + p, k);
    var found := c + s + p + k;
    assert |found| <= 4;
    assert RawFactors(row, score, d) == if |found| < 2 && score > 60 then found + [PestClimateFactor(d.pestClimate)] else found;
    if |found| < 2 && score > 60 {
      PositiveAppend(found, [PestClimateFactor(d.pestClimate)]);
    }
  }

  /** Each check contributes at most one factor, with a positive contribution. */
  lemma PartsShape(row: map<string, Value>, d: FactorDraws)
    requires DrawsInRange(d)
    ensures |ClimateFactors(row, d)| <= 1 && PositiveContributions(ClimateFactors(row, d))
    ensures |SoilFactors(row, d)| <= 1 && PositiveContributions(SoilFactors(row, d))
    ensures |PestFactors(row, d)| <= 1 && PositiveContributions(PestFactors(row, d))
    ensures |CropFactors(row, d)| <= 1 && PositiveContributions(CropFactors(row, d))
  {
  }

  lemma PositiveAppend(a: seq<Factor>, b: seq<Factor>)
    requires PositiveContributions(a) && PositiveContributions(b)
    ensures PositiveContributions(a + b)
  {
    forall i | 0 <= i < |a + b|
      ensures (a + b)[i].contribution > 0
    {
      if i >= |a| {
        assert (a + b)[i] == b[i - |a|];
      }
    }
  }

  /** What a prediction's risk_factors look like: at most four factors, each
      with a contribution in [0, 100], summing to at most 100 and to more than
      100 minus their number, and at least one factor when the score is above 60. */
  lemma RiskFactorsProperties(row: map<string, Value>, score: int, d: FactorDraws)
    requires DrawsInRange(d)
    ensures var fs := Normalize(RawFactors(row, score, d));
      |fs| == |RawFactors(row, score, d)| <= 4
      && (score > 60 ==> |fs| >= 1)
      && (forall i :: 0 <= i < |fs| ==> 0 <= fs[i].contribution <= 100)
      && (|fs| > 0 ==> 100 - |fs| < Total(fs) <= 100)
  {
    var raw := RawFactors(row, score, d);
    RawFactorsShape(row, score, d);
    NormalizedEachInRange(raw);
    if |raw| > 0 {
      NormalizedSum(raw);
    }
  }

  // ---------------------------------------------------------------------
  // One prediction and the batch
  // ---------------------------------------------------------------------

  function MetadataFor(metadata: map<string, Value>, featureCount: nat): ModelMetadata
  {
    ModelMetadata(if "model_version" in metadata then metadata["model_version"] else Text("v2.0-agri"),
                  if "model_type" in metadata then metadata["model_type"] else Text("LightGBM (Agri)"),
                  featureCount, "0.005s")
  }

  /** The prediction predict_batch builds for one cell. */
  function PredictCell(cell: InputCell, names: seq<string>, metadata: map<string, Value>,
                       booster: Booster, engine: Engine, d: FactorDraws): Prediction
    requires |names| > 0
  {
    var f := FeaturesOf(cell);
    var row := CleanRow(f, names);
    var score := RiskScore(engine(booster, row));
    Prediction(cell, score, CategorizeRisk(score), ReportedConfidence(score, row, MissingCount(f, names)),
               Normalize(RawFactors(CleanDict(f, names), score, d)), MetadataFor(metadata, |names|))
  }

  /** The booster rejects the frame: it has no column, or one of its values is
      a string (a numeric string survives imputation). */
  predicate RejectsBatch(cells: seq<InputCell>, names: seq<string>)
  {
    |names| == 0
    || exists i, j :: 0 <= i < |cells| && 0 <= j < |names| && CleanValue(FeaturesOf(cells[i]), names[j]).Text?
  }

  /** Every prediction keeps its cell, scores in [0, 100] with the level that
      score gets, reports a confidence in [0, 1], and carries normalised factors. */
  lemma PredictionProperties(cell: InputCell, names: seq<string>, metadata: map<string, Value>,
                             booster: Booster, engine: Engine, d: FactorDraws)
    requires |names| > 0 && DrawsInRange(d)
    ensures var p := PredictCell(cell, names, metadata, booster, engine, d);
      p.cell == cell && 0 <= p.riskScore <= 100 && p.riskLevel == CategorizeRisk(p.riskScore)
      && 0.0 <= p.confidence <= 1.0 && |p.riskFactors| <= 4
      && (p.riskScore > 60 ==> |p.riskFactors| >= 1)
      && p.modelMetadata.featuresUsed == |names|
  {
    var f := FeaturesOf(cell);
    var row := CleanRow(f, names);
    var score := RiskScore(engine(booster, row));
    ReportedConfidenceRange(score, row, MissingCount(f, names));
    RiskFactorsProperties(CleanDict(f, names), score, d);
  }

  /** The row `df[names]` takes from an imputed feature dictionary. */
  function SelectColumns(clean: map<string, Value>, names: seq<string>, ghost f: map<string, Value>): (row: seq<Value>)
    requires clean == CleanDict(f, names)
    ensures row == CleanRow(f, names)
  {
    seq(|names|, j requires 0 <= j < |names| => clean[names[j]])
  }

  /** What predict_batch's first loop records for a cell: its imputed
      features (`feature_data`), its count of missing ones
      (`original_missing`) and its row of `df[feature_names]`. */
  datatype PreparedCell = PreparedCell(clean: map<string, Value>, missing: nat, row: seq<Value>)

  /** The record matches the cell's features. */
  predicate RowReady(cell: InputCell, prep: PreparedCell, names: seq<string>)
  {
    prep.clean == CleanDict(FeaturesOf(cell), names) && prep.row == CleanRow(FeaturesOf(cell), names)
    && prep.missing == MissingCount(FeaturesOf(cell), names)
  }

  /** The body of predict_batch's second loop for one cell. */
  method PredictRow(cell: InputCell, prep: PreparedCell, names: seq<string>, metadata: map<string, Value>,
                    booster: Booster, engine: Engine, d: FactorDraws) returns (p: Prediction)
    requires |names| > 0
    requires RowReady(cell, prep, names)
    ensures p == PredictCell(cell, names, metadata, booster, engine, d)
  {
    var riskScore := RiskScore(engine(booster, prep.row));
    var riskLevel := CategorizeRisk(riskScore);
    var confidence := CalculateConfidence(riskScore, prep.row);
    if prep.missing > 0 {
      confidence := confidence * Max(0.5, 1.0 - prep.missing as real / |names| as real);
    }
    assert |prep.row| == |names|;
    assert confidence == ReportedConfidence(riskScore, prep.row, prep.missing);
    var riskFactors := GenerateRiskFactors(prep.clean, riskScore, d);
    p := Prediction(cell, riskScore, riskLevel, confidence, riskFactors, MetadataFor(metadata, |names|));
  }

  /** Appending the next cell's prediction extends a prefix of predictions. */
  lemma PredictedPrefix(ps: seq<Prediction>, p: Prediction, cells: seq<InputCell>, names: seq<string>,
                        metadata: map<string, Value>, booster: Booster, engine: Engine, draws: seq<FactorDraws>)
    requires |names| > 0 && |ps| < |cells| == |draws|
    requires forall j :: 0 <= j < |ps| ==> ps[j] == PredictCell(cells[j], names, metadata, booster, engine, draws[j])
    requires p == PredictCell(cells[|ps|], names, metadata, booster, engine, draws[|ps|])
    ensures forall j :: 0 <= j < |ps| + 1 ==>
      (ps + [p])[j] == PredictCell(cells[j], names, metadata, booster, engine, draws[j])
  {
  }

  /** predict_batch's second loop: one prediction per cell, in order. */
  method PredictAll(cells: seq<InputCell>, prepared: seq<PreparedCell>, names: seq<string>,
                    metadata: map<string, Value>, booster: Booster, engine: Engine, draws: seq<FactorDraws>)
    returns (predictions: seq<Prediction>)
    requires |names| > 0
    requires |prepared| == |draws| == |cells|
    requires forall i :: 0 <= i < |cells| ==> RowReady(cells[i], prepared[i], names)
    ensures |predictions| == |cells|
    ensures forall i :: 0 <= i < |cells| ==>
      predictions[i] == PredictCell(cells[i], names, metadata, booster, engine, draws[i])
  {
    predictions := [];
    for i := 0 to |cells|
      invariant |predictions| == i
      invariant forall j :: 0 <= j < i ==>
        predictions[j] == PredictCell(cells[j], names, metadata, booster, engine, draws[j])
    {
      var p := PredictRow(cells[i], prepared[i], names, metadata, booster, engine, draws[i]);
      PredictedPrefix(predictions, p, cells, names, metadata, booster, engine, draws);
      predictions := predictions + [p];
    }
  }

  class RiskPredictionModel {
    var modelPath: Path
    var model: Option<Booster>
    var featureNames: seq<string>
    var labelEncoders: map<string, LabelEncoder>
    var metadata: map<string, Value>
    var isLoaded: bool

    /** A loaded wrapper has a model. */
    predicate Valid()
      reads this
    {
      isLoaded ==> model.Some?
    }

    /** The field initialisation of __init__, before _load_model runs. */
    constructor (modelPath: Option<Path>)
      ensures this.modelPath == (if modelPath.Some? then modelPath.value else DefaultModelPath)
      ensures model == None && featureNames == [] && labelEncoders == map[] && metadata == map[] && !isLoaded
      ensures Valid()
    {
      this.modelPath := if modelPath.Some? then modelPath.value else DefaultModelPath;
      model := None;
      featureNames := [];
      labelEncoders := map[];
      metadata := map[];
      isLoaded := false;
    }

    /** _load_model: the bundle's fields are set before the metadata is read,
        and is_loaded only once both succeeded. */
    method LoadModel(fs: FileSystem) returns (r: Result<(), LoadError>)
      requires Valid()
      modifies this
      ensures Valid() && modelPath == old(modelPath)
      ensures modelPath !in fs ==> r == Failure(ModelFileNotFound(modelPath)) && unchanged(this)
      ensures modelPath in fs && !fs[modelPath].ModelBundle? ==> r == Failure(LoadFailed(modelPath)) && unchanged(this)
      ensures modelPath in fs && fs[modelPath].ModelBundle? ==>
        model == Some(fs[modelPath].model) && featureNames == fs[modelPath].featureNames
        && labelEncoders == EncodersOf(fs[modelPath])
      ensures (modelPath in fs && fs[modelPath].ModelBundle? && MetadataPath(modelPath) in fs
        && !fs[MetadataPath(modelPath)].JsonObject?) ==>
        r == Failure(LoadFailed(MetadataPath(modelPath))) && metadata == old(metadata) && isLoaded == old(isLoaded)
      ensures (modelPath in fs && fs[modelPath].ModelBundle?
        && (MetadataPath(modelPath) !in fs || fs[MetadataPath(modelPath)].JsonObject?)) ==>
        r == Success(()) && isLoaded
        && metadata == (if MetadataPath(modelPath) in fs then fs[MetadataPath(modelPath)].entries else old(metadata))
    {
      if modelPath !in fs {
        return Failure(ModelFileNotFound(modelPath));
      }
      var artifacts := fs[modelPath];
      if !artifacts.ModelBundle? {
        return Failure(LoadFailed(modelPath));
      }
      model := Some(artifacts.model);
      featureNames := artifacts.featureNames;
      labelEncoders := EncodersOf(artifacts);
      var metadataPath := MetadataPath(modelPath);
      if metadataPath in fs {
        var doc := fs[metadataPath];
        if !doc.JsonObject? {
          return Failure(LoadFailed(metadataPath));
        }
        metadata := doc.entries;
      }
      isLoaded := true;
      return Success(());
    }

    /** RiskPredictionModel(model_path): construction, which raises when the
        load fails and otherwise yields a loaded wrapper in the state
        LoadOutcome describes. */
    static method Create(modelPath: Option<Path>, fs: FileSystem) returns (r: Result<RiskPredictionModel, LoadError>)
      ensures var path := if modelPath.Some? then modelPath.value else DefaultModelPath;
        (LoadOutcome(path, fs).Failure? ==> r == Failure(LoadOutcome(path, fs).error))
        && (LoadOutcome(path, fs).Success? ==>
              r.Success? && fresh(r.value) && r.value.Valid() && r.value.isLoaded
              && r.value.modelPath == path
              && r.value.model == Some(LoadOutcome(path, fs).value.model)
              && r.value.featureNames == LoadOutcome(path, fs).value.featureNames
              && r.value.labelEncoders == LoadOutcome(path, fs).value.labelEncoders
              && r.value.metadata == LoadOutcome(path, fs).value.metadata
              && r.value.ModelInfo().status == "loaded")
    {
      var m := new RiskPredictionModel(modelPath);
      var loaded := m.LoadModel(fs);
      if loaded.Failure? {
        return Failure(loaded.error);
      }
      return Success(m);
    }

    /** get_model_info: the status is "loaded" exactly when the model is,
        the three supported threats are fixed, and the input features are
        the loaded feature names. */
    function ModelInfo(): (info: ModelInfoRecord)
      reads this
      ensures info.status == "loaded" <==> isLoaded
      ensures info.status == "not_loaded" <==> !isLoaded
      ensures |info.supportedThreats| == 3 && "drought" in info.supportedThreats
      ensures info.inputFeatures == featureNames && info.metadata == metadata
    {
      ModelInfoRecord(metadata, if isLoaded then "loaded" else "not_loaded",
                      ["pest_disease", "drought", "nutrient_deficiency"], featureNames)
    }

    /** predict_batch: no model raises before anything else, an empty batch
        gives an empty list, and otherwise every cell gets the prediction
        PredictCell describes, in input order, unless the booster rejects the frame. */
    method PredictBatch(cells: seq<InputCell>, engine: Engine, draws: seq<FactorDraws>)
      returns (r: Result<seq<Prediction>, PredictError>)
      requires Valid() && |draws| == |cells|
      ensures !isLoaded ==> r == Failure(ModelNotLoaded)
      ensures isLoaded && |cells| == 0 ==> r == Success([])
      ensures isLoaded && |cells| > 0 && RejectsBatch(cells, featureNames) ==> r == Failure(ModelRejectedInput)
      ensures isLoaded && |cells| > 0 && !RejectsBatch(cells, featureNames) ==>
        r.Success? && |r.value| == |cells|
        && forall i :: 0 <= i < |cells| ==>
             r.value[i] == PredictCell(cells[i], featureNames, metadata, model.value, engine, draws[i])
    {
      if !isLoaded {
        return Failure(ModelNotLoaded);
      }
      if |cells| == 0 {
        return Success([]);
      }
      var names := featureNames;
      var prepared: seq<PreparedCell> := [];
      for i := 0 to |cells|
        invariant |prepared| == i
        invariant forall j :: 0 <= j < i ==> RowReady(cells[j], prepared[j], names)
      {
        var clean, missing := ImputeFeatures(FeaturesOf(cells[i]), names);
        // the row of df[self.feature_names]
        var row := SelectColumns(clean, names, FeaturesOf(cells[i]));
        assert RowReady(cells[i], PreparedCell(clean, missing, row), names);
        prepared := prepared + [PreparedCell(clean, missing, row)];
      }
      if RejectsBatch(cells, names) {
        return Failure(ModelRejectedInput);
      }
      var predictions := PredictAll(cells, prepared, names, metadata, model.value, engine, draws);
      return Success(predictions);
    }
  }

  /** The record get_model_info returns (its keys override equal metadata keys). */
  datatype ModelInfoRecord = ModelInfoRecord(metadata: map<string, Value>, status: string,
                                             supportedThreats: seq<string>, inputFeatures: seq<string>)
}
