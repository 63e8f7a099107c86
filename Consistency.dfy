/** Properties that relate two parts of the backend: the two risk scales of
    the output records and of the predictor, and the files the trainer writes
    against what the predictor reads back. */
module Consistency {
  import opened Common
  import opened Storage
  import Schema
  import RiskModel
  import ModelTrainer

  /** The predictor's label for the band a record level covers. */
  function PredictorName(l: Schema.RiskLevel): string
  {
    match l
    case Safe => "low"
    case Low => "medium"
    case Medium => "high"
    case High => "critical"
  }

  /** Both scales cut scores at 40, 60 and 80, but name the bands one step
      apart: the record's safe, low, medium and high are the predictor's low,
      medium, high and critical, so for no score do the two names agree. */
  lemma RiskScalesShifted(score: int)
    ensures RiskModel.CategorizeRisk(score) == PredictorName(Schema.CategorizeRiskScore(score as real))
    ensures RiskModel.CategorizeRisk(score) != Schema.RiskLevelValue(Schema.CategorizeRiskScore(score as real))
  {
  }

  /** The base name of the trainer's default model file. */
  const DefaultBase: string := "risk_model_v1"

  /** The trainer's default model file is the file the predictor loads by
      default, and its metadata is saved where the predictor looks for it. */
  lemma DefaultFilesAgree()
    ensures Path(TrainedDir, ModelTrainer.DefaultModelFile) == RiskModel.DefaultModelPath
    ensures MetadataPath(RiskModel.DefaultModelPath) == Path(TrainedDir, DefaultBase + "_metadata.json")
  {
    var p := RiskModel.DefaultModelPath;
    assert p.name == DefaultBase + ".pkl";
    DefaultMetadataName();
    assert MetadataName(p.name) == DefaultBase + "_metadata.json";
  }

  lemma DefaultMetadataName()
    ensures MetadataName(DefaultBase + ".pkl") == DefaultBase + "_metadata.json"
  {
    DefaultBaseHasNoPkl();
    MetadataNameOfPkl(DefaultBase);
  }

  lemma DefaultBaseHasNoPkl()
    ensures !Contains(DefaultBase, ".pkl")
  {
    assert '.' !in DefaultBase;
    NotContainsWithoutFirst(DefaultBase, ".pkl");
  }

  /** A model saved under the default name loads back with the same booster,
      feature names in the same order, label encoders and the metadata of its
      run, which reports the trainer's version and type rather than the
      predictor's defaults. */
  lemma SavedModelLoadsBack(fs: FileSystem, model: Booster, names: seq<string>,
                            encoders: map<string, LabelEncoder>, run: ModelTrainer.TrainingRun)
    ensures var metadata := ModelTrainer.TrainingMetadata(run, |names|);
      var written := ModelTrainer.SavedFiles(fs, ModelTrainer.DefaultModelFile, model, names, encoders, metadata);
      && RiskModel.LoadOutcome(RiskModel.DefaultModelPath, written)
         == Success(RiskModel.LoadedModel(model, names, encoders, metadata))
      && RiskModel.MetadataFor(metadata, |names|).version == Text(ModelTrainer.ModelVersion)
      && RiskModel.MetadataFor(metadata, |names|).modelType == Text(ModelTrainer.ModelType)
      && RiskModel.MetadataFor(metadata, |names|).featuresUsed == |names|
  {
    DefaultFilesAgree();
    var metadata := ModelTrainer.TrainingMetadata(run, |names|);
    var written := ModelTrainer.SavedFiles(fs, ModelTrainer.DefaultModelFile, model, names, encoders, metadata);
    var modelPath := RiskModel.DefaultModelPath;
    assert MetadataPath(modelPath) != modelPath;
    assert written[modelPath] == ModelBundle(model, names, Some(encoders));
    assert written[MetadataPath(modelPath)] == JsonObject(metadata);
  }

  /** Saving under a name without '.pkl' writes the metadata over the model
      file itself, so loading that file fails. */
  lemma SaveWithoutPklUnloadable(fs: FileSystem, filename: string, model: Booster, names: seq<string>,
                                 encoders: map<string, LabelEncoder>, metadata: map<string, Value>)
    requires !Contains(filename, ".pkl")
    ensures var written := ModelTrainer.SavedFiles(fs, filename, model, names, encoders, metadata);
      RiskModel.LoadOutcome(Path(TrainedDir, filename), written) == Failure(RiskModel.LoadFailed(Path(TrainedDir, filename)))
  {
    assert MetadataPath(Path(TrainedDir, filename)) == Path(TrainedDir, filename);
  }
}
