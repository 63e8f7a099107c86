/** The insurance risk model holder: one shared instance per process, a
    guarded predict that validates the six required features in order, and a
    loader that prefers the trained directory over the legacy location. The
    estimator itself is a parameter. */
module InsuranceModel {
  import opened Common
  import opened Storage

  /** What joblib.load returns for an insurance model file: a fitted
      estimator, or some other object (such as the risk model's bundle
      dictionary), which has no predict. */
  datatype Loaded = EstimatorObject(estimator: Estimator) | OtherObject(artifact: Artifact)

  /** The estimator's predict on one row of the six features. */
  type InsuranceEngine = (Estimator, seq<real>) -> real

  /** Why predict raises. */
  datatype PredictError =
      NotLoaded
    | MissingFeature(name: string)
    | AgriRiskOutOfRange(value: real)
      /** The loaded object is not an estimator, so calling predict on it raises. */
    | NotAnEstimator

  /** The features predict requires, in the order the estimator was trained on. */
  const RequiredFeatures: seq<string> :=
    ["agri_risk_score", "claims_history_index", "yield_stability", "weather_volatility",
     "market_stability", "soil_quality"]

  const AgriRiskScore: string := "agri_risk_score"

  /** The file load reads when given no name. */
  const DefaultModelFile: string := "insurance_model.joblib"

  /** The check of one required feature: present, and for the agricultural
      score within [0, 100]. The other features are only reported when
      outside [-0.1, 1.1], which never stops the prediction. */
  function CheckFeature(features: map<string, real>, name: string): Option<PredictError>
  {
    if name !in features then Some(MissingFeature(name))
    else if name == AgriRiskScore && !(0.0 <= features[name] <= 100.0) then Some(AgriRiskOutOfRange(features[name]))
    else None
  }

  /** The validation loop of predict over names: the first failing check. */
  function FirstProblem(features: map<string, real>, names: seq<string>): (p: Option<PredictError>)
    ensures p.None? <==> forall i :: 0 <= i < |names| ==> CheckFeature(features, names[i]).None?
    ensures p.Some? ==> exists i :: 0 <= i < |names| && p == CheckFeature(features, names[i])
                                   && forall k :: 0 <= k < i ==> CheckFeature(features, names[k]).None?
  {
    if |names| == 0 then None
    else
      var here := CheckFeature(features, names[0]);
      if here.Some? then here
      else
        var later := FirstProblem(features, names[1..]);
        if later.Some? then
          ghost var i :| 0 <= i < |names[1..]| && later == CheckFeature(features, names[1..][i])
                   && forall k :: 0 <= k < i ==> CheckFeature(features, names[1..][k]).None?;
          assert later == CheckFeature(features, names[i + 1]);
          later
        else later
  }

  /** `pd.DataFrame([features], columns=required_features)`: the six required
      values in the listed order. */
  function InputRow(features: map<string, real>): (row: seq<real>)
    requires forall i :: 0 <= i < |RequiredFeatures| ==> RequiredFeatures[i] in features
    ensures |row| == |RequiredFeatures|
    ensures forall i :: 0 <= i < |RequiredFeatures| ==> row[i] == features[RequiredFeatures[i]]
  {
    seq(|RequiredFeatures|, i requires 0 <= i < |RequiredFeatures| => features[RequiredFeatures[i]])
  }

  /** What predict returns or raises, for the holder's state. */
  function PredictOutcome(isLoaded: bool, model: Option<Loaded>, features: map<string, real>,
                          engine: InsuranceEngine): Result<real, PredictError>
  {
    if !isLoaded || model.None? then Failure(NotLoaded)
    else
      var problem := FirstProblem(features, RequiredFeatures);
      if problem.Some? then Failure(problem.value)
      else match model.value
        case EstimatorObject(e) => Success(engine(e, InputRow(features)))
        case OtherObject(_) => Failure(NotAnEstimator)
  }

  /** Without a loaded model predict raises, whatever the features. */
  lemma PredictNeedsModel(isLoaded: bool, model: Option<Loaded>, features: map<string, real>, engine: InsuranceEngine)
    requires !isLoaded || model.None?
    ensures PredictOutcome(isLoaded, model, features, engine) == Failure(NotLoaded)
  {
  }

  /** With a loaded estimator, predict succeeds exactly when all six features
      are present and the agricultural score is in [0, 100]: values of the
      other five outside [0, 1] never make it raise. It then predicts on the
      six values in order. */
  lemma PredictAcceptsExactly(e: Estimator, features: map<string, real>, engine: InsuranceEngine)
    ensures var r := PredictOutcome(true, Some(EstimatorObject(e)), features, engine);
      r.Success? <==> (forall i :: 0 <= i < |RequiredFeatures| ==> RequiredFeatures[i] in features)
                      && 0.0 <= features[AgriRiskScore] <= 100.0
    ensures var r := PredictOutcome(true, Some(EstimatorObject(e)), features, engine);
      r.Success? ==> r.value == engine(e, InputRow(features))
  {
    var p := FirstProblem(features, RequiredFeatures);
    if (forall i :: 0 <= i < |RequiredFeatures| ==> RequiredFeatures[i] in features)
       && 0.0 <= features[AgriRiskScore] <= 100.0 {
      forall i | 0 <= i < |RequiredFeatures| ensures CheckFeature(features, RequiredFeatures[i]).None? {
      }
    } else if !(forall i :: 0 <= i < |RequiredFeatures| ==> RequiredFeatures[i] in features) {
      var i :| 0 <= i < |RequiredFeatures| && RequiredFeatures[i] !in features;
      assert CheckFeature(features, RequiredFeatures[i]).Some?;
    } else {
      assert CheckFeature(features, RequiredFeatures[0]).Some?;
    }
  }

  /** The features are checked in the listed order: a missing feature is
      reported only when every feature before it is present and the score,
      which comes first, is in range; an out-of-range score is reported
      whatever else is missing. */
  lemma ValidationOrder(features: map<string, real>, j: nat)
    requires j < |RequiredFeatures| && RequiredFeatures[j] !in features
    requires forall k :: 0 <= k < j ==> RequiredFeatures[k] in features
    ensures AgriRiskScore in features && !(0.0 <= features[AgriRiskScore] <= 100.0) ==>
      FirstProblem(features, RequiredFeatures) == Some(AgriRiskOutOfRange(features[AgriRiskScore]))
    ensures AgriRiskScore !in features || 0.0 <= features[AgriRiskScore] <= 100.0 ==>
      FirstProblem(features, RequiredFeatures) == Some(MissingFeature(RequiredFeatures[j]))
  {
    var p := FirstProblem(features, RequiredFeatures);
    assert CheckFeature(features, RequiredFeatures[j]) == Some(MissingFeature(RequiredFeatures[j]));
    var i :| 0 <= i < |RequiredFeatures| && p == CheckFeature(features, RequiredFeatures[i])
             && forall k :: 0 <= k < i ==> CheckFeature(features, RequiredFeatures[k]).None?;
    assert i <= j;
    if AgriRiskScore in features && !(0.0 <= features[AgriRiskScore] <= 100.0) {
      assert i == 0;
    } else {
      forall k | 0 <= k < j ensures CheckFeature(features, RequiredFeatures[k]).None? {
      }
    }
  }

  /** Keys other than the six required ones play no part in predict. */
  lemma PredictIgnoresExtraKeys(isLoaded: bool, model: Option<Loaded>, f1: map<string, real>, f2: map<string, real>,
                                engine: InsuranceEngine)
    requires forall i :: 0 <= i < |RequiredFeatures| ==>
      (RequiredFeatures[i] in f1 <==> RequiredFeatures[i] in f2)
      && (RequiredFeatures[i] in f1 ==> f1[RequiredFeatures[i]] == f2[RequiredFeatures[i]])
    ensures PredictOutcome(isLoaded, model, f1, engine) == PredictOutcome(isLoaded, model, f2, engine)
  {
    assert FirstProblem(f1, RequiredFeatures) == FirstProblem(f2, RequiredFeatures) by {
      forall i | 0 <= i < |RequiredFeatures|
        ensures CheckFeature(f1, RequiredFeatures[i]) == CheckFeature(f2, RequiredFeatures[i]) {
      }
      SameChecksSameProblem(f1, f2, RequiredFeatures);
    }
    if FirstProblem(f1, RequiredFeatures).None? {
      assert InputRow(f1) == InputRow(f2);
    }
  }

  /** Two feature maps that pass and fail the same checks stop at the same one. */
  lemma {:induction false} SameChecksSameProblem(f1: map<string, real>, f2: map<string, real>, names: seq<string>)
    requires forall i :: 0 <= i < |names| ==> CheckFeature(f1, names[i]) == CheckFeature(f2, names[i])
    ensures FirstProblem(f1, names) == FirstProblem(f2, names)
  {
    if |names| > 0 {
      assert CheckFeature(f1, names[0]) == CheckFeature(f2, names[0]);
      SameChecksSameProblem(f1, f2, names[1..]);
    }
  }

  /** joblib.load on a stored file: None when it raises. */
  function JoblibLoad(a: Artifact): Option<Option<Loaded>>
  {
    match a
    case PickledEstimator(e) => Some(if e.Some? then Some(EstimatorObject(e.value)) else None)
    case ModelBundle(_, _, _) => Some(Some(OtherObject(a)))
    case _ => None
  }

  /** The file load reads: trained/<filename> when it exists, else
      models/<filename> when that exists, else none. */
  function LoadPath(fs: FileSystem, filename: string): (p: Option<Path>)
    ensures p.Some? ==> p.value in fs
    ensures p.None? <==> Path(TrainedDir, filename) !in fs && Path(ModelsDir, filename) !in fs
    ensures Path(TrainedDir, filename) in fs ==> p == Some(Path(TrainedDir, filename))
  {
    if Path(TrainedDir, filename) in fs then Some(Path(TrainedDir, filename))
    else if Path(ModelsDir, filename) in fs then Some(Path(ModelsDir, filename))
    else None
  }

  /** What load leaves as the model, or None when it returns False. */
  function LoadResult(fs: FileSystem, filename: string): Option<Option<Loaded>>
  {
    var p := LoadPath(fs, filename);
    if p.None? then None else JoblibLoad(fs[p.value])
  }

  /** The trained directory shadows the legacy location: a file there decides
      the outcome even when it cannot be loaded and a loadable one sits at
      models/<filename>; the legacy file is read only when none is there. */
  lemma LoadPrefersTrained(fs: FileSystem, filename: string)
    ensures Path(TrainedDir, filename) in fs ==> LoadResult(fs, filename) == JoblibLoad(fs[Path(TrainedDir, filename)])
    ensures Path(TrainedDir, filename) !in fs && Path(ModelsDir, filename) in fs ==>
      LoadResult(fs, filename) == JoblibLoad(fs[Path(ModelsDir, filename)])
    ensures Path(TrainedDir, filename) !in fs && Path(ModelsDir, filename) !in fs ==> LoadResult(fs, filename).None?
  {
  }

  /** A pickled estimator in the trained directory always loads as that estimator. */
  lemma LoadTrainedEstimator(fs: FileSystem, filename: string, e: Estimator)
    requires Path(TrainedDir, filename) in fs && fs[Path(TrainedDir, filename)] == PickledEstimator(Some(e))
    ensures LoadResult(fs, filename) == Some(Some(EstimatorObject(e)))
  {
  }

  /** The shared model object. */
  class InsuranceRiskModel {
    var model: Option<Loaded>
    var isLoaded: bool

    /** The first construction: no model, not loaded. */
    constructor ()
      ensures model == None && !isLoaded
    {
      model := None;
      isLoaded := false;
    }

    /** predict. */
    method Predict(features: map<string, real>, engine: InsuranceEngine) returns (r: Result<real, PredictError>)
      ensures r == PredictOutcome(isLoaded, model, features, engine)
    {
      if !isLoaded || model.None? {
        return Failure(NotLoaded);
      }
      for i := 0 to |RequiredFeatures|
        invariant FirstProblem(features, RequiredFeatures) == FirstProblem(features, RequiredFeatures[i..])
      {
        var feature := RequiredFeatures[i];
        assert RequiredFeatures[i..][1..] == RequiredFeatures[i + 1..];
        if feature !in features {
          return Failure(MissingFeature(feature));
        }
        var value := features[feature];
        if feature == AgriRiskScore {
          if !(0.0 <= value <= 100.0) {
            return Failure(AgriRiskOutOfRange(value));
          }
        }
      }
      assert FirstProblem(features, RequiredFeatures[|RequiredFeatures|..]).None?;
      var row := InputRow(features);
      match model.value
      case EstimatorObject(e) =>
        return Success(engine(e, row));
      case OtherObject(_) =>
        return Failure(NotAnEstimator);
    }

    /** load: reads the file LoadPath picks; on success the model is kept and
        marked loaded, otherwise False is returned and nothing changes. */
    method Load(fs: FileSystem, filename: string) returns (ok: bool)
      modifies this
      ensures ok <==> LoadResult(fs, filename).Some?
      ensures ok ==> model == LoadResult(fs, filename).value && isLoaded
      ensures !ok ==> model == old(model) && isLoaded == old(isLoaded)
    {
      var fullPath;
      if Path(TrainedDir, filename) in fs {
        fullPath := Path(TrainedDir, filename);
      } else if Path(ModelsDir, filename) in fs {
        fullPath := Path(ModelsDir, filename);
      } else {
        return false;
      }
      var loaded := JoblibLoad(fs[fullPath]);
      if loaded.None? {
        return false;
      }
      model := loaded.value;
      isLoaded := true;
      return true;
    }
  }

  /** The class attribute `_instance` that makes the model a singleton. */
  class InsuranceRiskModelClass {
    var instance: InsuranceRiskModel?

    constructor ()
      ensures instance == null
    {
      instance := null;
    }

    /** __new__: the first call creates the object with no model; every
        later call returns that same object and leaves it as it is. */
    method New() returns (m: InsuranceRiskModel)
      modifies this
      ensures old(instance) == null ==> fresh(m) && m.model == None && !m.isLoaded
      ensures old(instance) != null ==> m == old(instance) && unchanged(m)
      ensures instance == m
    {
      if instance == null {
        instance := new InsuranceRiskModel();
      }
      m := instance;
    }
  }

  /** get_insurance_model. */
  method GetInsuranceModel(cls: InsuranceRiskModelClass) returns (m: InsuranceRiskModel)
    modifies cls
    ensures old(cls.instance) == null ==> fresh(m) && m.model == None && !m.isLoaded
    ensures old(cls.instance) != null ==> m == old(cls.instance) && unchanged(m)
    ensures cls.instance == m
  {
    m := cls.New();
  }

  /** Constructing twice yields one object, and the second construction does
      not reset a model loaded in between. */
  method SingletonKeepsLoadedModel(cls: InsuranceRiskModelClass, fs: FileSystem, filename: string)
    returns (first: InsuranceRiskModel, second: InsuranceRiskModel)
    modifies cls, cls.instance
    ensures first == second
    ensures second.isLoaded <==> (old(cls.instance) != null && old(cls.instance.isLoaded)) || LoadResult(fs, filename).Some?
  {
    first := cls.New();
    var ok := first.Load(fs, filename);
    second := cls.New();
  }
}
