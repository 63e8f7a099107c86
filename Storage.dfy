/** The files the backend reads and writes: the trained model bundle and its
    JSON metadata, the insurance estimator and the training table. The file
    system is a map from paths to stored artifacts; joblib, pickle, JSON and CSV
    encodings are not modelled, only what each file holds. */
module Storage {
  import opened Common
  import opened DataFrame

  /** A path: its parent directory and its file name. */
  datatype Path = Path(dir: string, name: string)

  /** A trained LightGBM booster; only its identity matters here. */
  datatype Booster = Booster(id: nat)

  /** A fitted sklearn LabelEncoder, given by its classes_. */
  datatype LabelEncoder = LabelEncoder(classes: seq<Value>)

  /** A trained sklearn estimator (the insurance model); only its identity matters. */
  datatype Estimator = Estimator(id: nat)

  /** What a file holds once read back. */
  datatype Artifact =
      /** The joblib dictionary save_model writes; label_encoders may be absent. */
      ModelBundle(model: Booster, featureNames: seq<string>, labelEncoders: Option<map<string, LabelEncoder>>)
      /** A JSON object with scalar fields. */
    | JsonObject(entries: map<string, Value>)
      /** A joblib-pickled estimator, or a pickled None. */
    | PickledEstimator(estimator: Option<Estimator>)
      /** A CSV table as pandas reads it. */
    | CsvTable(frame: Frame)
      /** Anything that fails to load: a corrupt file or another format. */
    | Unreadable

  type FileSystem = map<Path, Artifact>

  /** backend/models, the directory of risk_model.py and insurance_model.py. */
  const ModelsDir: string := "backend/models"

  /** backend/models/trained, where save_model writes and the loaders read. */
  const TrainedDir: string := "backend/models/trained"

  /** backend/data, where the training table lives. */
  const DataDir: string := "backend/data"

  /** `name.replace('.pkl', '_metadata.json')`, the rule the trainer and the
      loader both use for the metadata file. */
  function MetadataName(name: string): (r: string)
    ensures !Contains(name, ".pkl") ==> r == name
  {
    ReplaceAll(name, ".pkl", "_metadata.json")
  }

  /** The metadata file that sits next to a model file. */
  function MetadataPath(p: Path): (r: Path)
    ensures r.dir == p.dir
  {
    Path(p.dir, MetadataName(p.name))
  }

  /** A model name ending in '.pkl' (with no other '.pkl' in it) has its
      metadata file named with that suffix replaced by '_metadata.json'. */
  lemma {:induction false} MetadataNameOfPkl(base: string)
    requires !Contains(base, ".pkl")
    ensures MetadataName(base + ".pkl") == base + "_metadata.json"
  {
    var s := base + ".pkl";
    if |base| == 0 {
      assert s == ".pkl" && IsPrefix(".pkl", s);
      assert s[4..] == [];
    } else {
      assert !IsPrefix(".pkl", s) by {
        if |base| >= 4 {
          assert s[..4] == base[..4];
        } else {
          assert s[|base|] == '.' && ".pkl"[|base|] != '.';
          assert s[..4][|base|] != ".pkl"[|base|];
        }
      }
      assert s[1..] == base[1..] + ".pkl";
      assert !Contains(base[1..], ".pkl");
      MetadataNameOfPkl(base[1..]);
    }
  }
}
