# Agri-risk backend core, modelled in Dafny

This project models the deterministic core of an agricultural risk backend. The backend serves a map client. Its core does five things:

- A field polygon is cut into a lattice of grid cells. A cell is kept when its centre passes a ray-casting point-in-polygon test.
- Each cell gets a feature dictionary, assembled step by step: vegetation from NDVI, proximity distances, season and calendar, terrain, species heuristics and derived features. A fixed 26-key schema then projects the dictionary onto the model's input.
- A trained LightGBM regressor is loaded from a bundle and its metadata file. Predictions are post-processed:
  - missing features are imputed by name;
  - the output is clipped and rounded to an integer score;
  - the score gets a level and a confidence with a missing-data penalty;
  - the factor contributions are normalised to integers.
- The training service does its bookkeeping: median imputation, label encoding, derived columns, feature-name selection, the critical-risk precision and recall, and saving the bundle next to its metadata file.
- The API and insurance layer package the results:
  - the WebSocket handler's polygon checks, mock levels, GeoJSON rings and summary counts;
  - the quote formulas;
  - the insurance model singleton with its ordered input validation and path fallback.

Numbers are exact `real`s. Python's `round(x, k)` is modelled as round-half-to-even on them. Dictionaries are `map`s; an absent key is `!in`. A value is `Num`, `Inf` (float infinity), `Text`, `Null` (None) or `NaN`.

The foreign pieces become inputs or uninterpreted function parameters:

- Earth Engine samples and the polygon area;
- the haversine distance and the longitude step, which needs `cos`;
- the LightGBM booster, its predictions and the sklearn estimators;
- `random` and `numpy.random` draws;
- the moon phase and the calendar.

The file system is a map from paths to what each file holds.

Modules follow the source files:

- `Common`: values, results and Python rounding and string helpers.
- `DataFrame`: the trainer's pandas frames.
- `Storage`: paths, artifacts, and the metadata-name rule.
- `GeeSatellite`: `gee_satellite.py`.
- `FeatureExtractor`: `feature_extractor.py`.
- `RiskModel`: `risk_model.py`.
- `Schema`: `schema.py`.
- `ModelTrainer`: `model_trainer.py`.
- `Api`: `main.py`.
- `InsuranceModel`: `insurance_model.py`.
- `Consistency`: lemmas that relate several files. It shows:
  - the two risk scales differ only in their level names;
  - the trainer's default file is the loader's default;
  - a saved model loads back with its metadata.

Where the code and its documentation differ, the model follows the code:

- `incident_density` is the constant 0.0, not a formula over incidents.
- The risk model loader has no fallback mode: a missing bundle is an error.
- Precision and recall are the critical-risk ones (> 80), not a "high-risk" variant.

## Model

| member | source | states |
|---|---|---|
| Common.Clip | backend/models/risk_model.py:140 | `np.clip`: the result lies in [lo, hi], equals x inside the range and the nearer bound outside it |
| Common.RoundHalfEven | backend/models/risk_model.py:144 | Python `round` to an integer: within 0.5 of the input, and an exact tie goes to the even neighbour |
| Common.RoundHalfEvenBetween | backend/models/risk_model.py:144 | rounding a value between two integers stays between them |
| Common.RoundHalfEvenMonotone | backend/models/risk_model.py:144 | rounding never reverses the order of two values |
| Common.RoundDecimalsBetween | backend/models/risk_model.py:203 | `round(x, k)` of a value within [lo/10^k, hi/10^k] stays in that range |
| Common.RoundDecimalsWithin | backend/main.py:498 | `round(x, k)` of a value between two integers stays between them |
| Common.RoundDecimalsNonNegative | backend/services/feature_extractor.py:195-198 | `round(x, k)` of a non-negative value is non-negative |
| Common.RoundDecimalsUnit | backend/models/risk_model.py:203 | `round(x, k)` of a fraction in [0, 1] is in [0, 1] |
| Common.RoundDecimalsMonotone | backend/main.py:221-224 | `round(x, k)` is monotone in x |
| Common.RoundDecimalsInteger | backend/main.py:221-224 | rounding an integer to k decimals gives it back |
| Common.NatToString | backend/utils/gee_satellite.py:85 | the decimal text of a count is non-empty and all digits |
| Common.ReplaceAll | backend/models/risk_model.py:62 | `str.replace`: a string without the pattern is unchanged |
| Common.RemoveFirst | backend/models/risk_model.py:108 | `str.replace(c, '', 1)`: removes at most one character, and none when c is absent |
| DataFrame.Column | backend/services/model_trainer.py:93-94 | a column of a well-formed frame has one value per row |
| DataFrame.SetColumn | backend/services/model_trainer.py:94 | `df[c] = col` keeps the frame well formed, replaces only column c, and appends c to the column order when it is new |
| DataFrame.FillNull | backend/services/model_trainer.py:94 | `fillna(v)` keeps every present value and puts v in every null position |
| Storage.MetadataName | backend/services/model_trainer.py:398 | a name without '.pkl' is its own metadata name |
| Storage.MetadataPath | backend/models/risk_model.py:62 | the metadata file sits in the same directory as the model file |
| Storage.MetadataNameOfPkl | backend/services/model_trainer.py:398 | `<base>.pkl` has the metadata name `<base>_metadata.json` when base holds no '.pkl' |
| GeeSatellite.CellIdInjective | backend/utils/gee_satellite.py:85 | two different counters never give the same `cell-k` id |
| GeeSatellite.XIntersectAssignedBeforeRead | backend/utils/gee_satellite.py:109-113 | when the edge straddles the point's longitude, its end longitudes differ, so `x_intersect` is assigned before it is read |
| GeeSatellite.PointInPolygon | backend/utils/gee_satellite.py:99-118 | the loop computes the ray-casting parity over the edges polygon[i-1] to polygon[i % n] |
| GeeSatellite.ClosingRingKeepsInside | backend/utils/gee_satellite.py:104-116 | appending the first vertex again does not change the point-in-polygon answer |
| GeeSatellite.SeqMin | backend/utils/gee_satellite.py:64-65 | `min`: at most every element and equal to one of them |
| GeeSatellite.SeqMax | backend/utils/gee_satellite.py:64-65 | `max`: at least every element and equal to one of them |
| GeeSatellite.Lats | backend/utils/gee_satellite.py:61 | the latitude list has one entry per vertex, in order |
| GeeSatellite.Lngs | backend/utils/gee_satellite.py:62 | the longitude list has one entry per vertex, in order |
| GeeSatellite.BoundingBox | backend/utils/gee_satellite.py:61-65 | every vertex lies inside the box from (min lat, min lng) to (max lat, max lng) |
| GeeSatellite.StepsDecrease | backend/utils/gee_satellite.py:76-95 | each `+= step` with a positive step lowers the remaining step count by one, so both loops terminate |
| GeeSatellite.ScanRow | backend/utils/gee_satellite.py:77-94 | the inner `while` loop yields exactly the kept cells of one row, numbered on from the current counter |
| GeeSatellite.WalkLattice | backend/utils/gee_satellite.py:75-95 | the outer `while` loop yields exactly the kept cells of every row, numbered from 0 |
| GeeSatellite.CreateGridCells | backend/utils/gee_satellite.py:45-97 | an empty polygon fails, as `min` of an empty list raises; otherwise the result is the lattice grid of the bounding box |
| GeeSatellite.LatticeShift | backend/utils/gee_satellite.py:94-95 | starting one step later is the same lattice shifted by one index |
| GeeSatellite.LatticeAtLeastOrigin | backend/utils/gee_satellite.py:75-78 | no lattice coordinate lies below the loop's start |
| GeeSatellite.RowCellsSound | backend/utils/gee_satellite.py:77-94 | each row cell has consecutive ids, one-step bounds, its centre half a step in and inside the polygon, at increasing longitudes |
| GeeSatellite.RowsSound | backend/utils/gee_satellite.py:75-95 | the same over all rows, with the south-west corners in strictly increasing row-major order |
| GeeSatellite.ConsSorted | backend/utils/gee_satellite.py:84-94 | prepending a more westerly cell keeps a row sorted by longitude |
| GeeSatellite.ConcatSorted | backend/utils/gee_satellite.py:75-95 | a sorted row followed by sorted higher rows is sorted row-major |
| GeeSatellite.RowCellsComplete | backend/utils/gee_satellite.py:78-92 | every lattice column of a row whose centre is inside the polygon is in the row |
| GeeSatellite.RowsComplete | backend/utils/gee_satellite.py:75-95 | every lattice cell below the top whose centre is inside the polygon is returned |
| GeeSatellite.GridSound | backend/utils/gee_satellite.py:61-97 | every returned cell is `cell-k` at position k, has its origin in [min, max) of the bounding box with one-step bounds, and has its centre inside the polygon; the cells come in row-major order |
| GeeSatellite.GridIdsDistinct | backend/utils/gee_satellite.py:73-92 | no two returned cells share an id |
| GeeSatellite.GridComplete | backend/utils/gee_satellite.py:75-95 | every lattice cell of the bounding box whose centre passes the test is returned |
| FeatureExtractor.FeatureCell.constructor | backend/services/feature_extractor.py:25-72 | a cell starts with its id, centre and an empty feature dictionary |
| FeatureExtractor.ClassifyVegetation | backend/services/feature_extractor.py:128-135 | the class is one of sparse, scrub, grassland or forest |
| FeatureExtractor.VegetationIndex | backend/services/feature_extractor.py:140 | `list.index`: the position of the class in the class list |
| FeatureExtractor.CountAtMost | backend/services/feature_extractor.py:128-135 | the number of thresholds at most x is at most the number of thresholds |
| FeatureExtractor.VegetationEncodingCountsThresholds | backend/services/feature_extractor.py:128-140 | the encoding is the number of the thresholds 0.2, 0.4 and 0.6 that the NDVI reaches |
| FeatureExtractor.VegetationEncodingMonotone | backend/services/feature_extractor.py:128-140 | a greener cell never gets a lower encoding |
| FeatureExtractor.CountAtMostMonotone | backend/services/feature_extractor.py:128-135 | the threshold count grows with x |
| FeatureExtractor.SatelliteFallbackAgrees | backend/services/feature_extractor.py:125-149 | a failed sample gives the same features as a missing or zero NDVI, which both become 0.5 |
| FeatureExtractor.SatelliteEncodingInRange | backend/services/feature_extractor.py:125-140 | the encoding is an integer in 0..3 and indexes the class that is stored |
| FeatureExtractor.ExtractSatelliteFeatures | backend/services/feature_extractor.py:74-153 | every cell's dictionary is replaced by its satellite features, or by the no-imagery defaults when no image exists |
| FeatureExtractor.PointToSegmentDistance | backend/services/feature_extractor.py:407-422 | the distance to a segment is the nearer of the distances to its two end points |
| FeatureExtractor.DistanceToPolygonEdge | backend/services/feature_extractor.py:380-405 | the loop computes the running minimum over the wrapped edges, starting from infinity |
| FeatureExtractor.EdgeDistanceIsNearestVertex | backend/services/feature_extractor.py:390-422 | an empty polygon gives infinity; otherwise the distance is the minimum over the vertices |
| FeatureExtractor.EdgeDistancePrefix | backend/services/feature_extractor.py:395-403 | after k edges the running minimum is at most the distance to each of the first k vertices and equals one vertex distance |
| FeatureExtractor.CalculateProximityFeatures | backend/services/feature_extractor.py:155-201 | each cell gets its boundary distance (to `polygon` when `park_boundary is None`, otherwise to the given boundary, even an empty one) and the three estimates, each rounded to one decimal; no other entry changes |
| FeatureExtractor.ProximityDistancesNonNegative | backend/services/feature_extractor.py:190-201 | the boundary distance is non-negative or infinite; water, road and settlement stay at least 500, 1000 and 5000 |
| FeatureExtractor.SeasonWetMonths | backend/services/feature_extractor.py:227-239 | months 4, 5 and 11 are wet with encoding 1; every other month is dry with encoding 0 |
| FeatureExtractor.MoonIlluminationIsFraction | backend/services/feature_extractor.py:224 | the moon illumination is in [0, 1] for a phase in [0, 100] |
| FeatureExtractor.AddTemporalFeatures | backend/services/feature_extractor.py:203-252 | every cell gets the same month, season, weekday and moon values; its other entries are kept |
| FeatureExtractor.RuggednessProperties | backend/services/feature_extractor.py:475-482 | ruggedness lies in [0, 10], is monotone in slope, is 0 at 0 and is 10 from slope 60 on |
| FeatureExtractor.TerrainRuggednessInRange | backend/services/feature_extractor.py:283 | the terrain ruggedness entry is always a number in [0, 10] |
| FeatureExtractor.ExtractTopographicalFeatures | backend/services/feature_extractor.py:254-299 | each cell gets elevation, slope and ruggedness from its sample, with the defaults for missing values |
| FeatureExtractor.WateringClasses | backend/services/feature_extractor.py:324-333 | below 2000 is regular/0, [2000, 5000) is seasonal/1, and 5000 on or infinity is rare/2; a missing distance gives rare |
| FeatureExtractor.MigrationRouteBox | backend/services/feature_extractor.py:316-317 | the migration flag is 1 exactly inside the open box -2.5 < lat < -1.5, 37 < lng < 38, and 0 otherwise |
| FeatureExtractor.AddSpeciesFeatures | backend/services/feature_extractor.py:301-342 | each cell gets its migration, breeding and watering entries; its other entries are kept |
| FeatureExtractor.DerivedFeatureBounds | backend/services/feature_extractor.py:355-367 | for non-negative distances: boundary_risk is in [0, 1/100], water_attraction in [0, 1/50] and access_ease in [0, 1/200]; isolation is non-negative; the three flags are 1 exactly when their conditions hold |
| FeatureExtractor.ReciprocalBound | backend/services/feature_extractor.py:355-357 | 1/(d+c) of a non-negative or infinite distance is defined and in [0, 1/c] |
| FeatureExtractor.DerivedPlaceholders | backend/services/feature_extractor.py:371-374 | incidents 0, days 180, rate 0.05 and density 0.0 whatever the input; every key outside the step is kept |
| FeatureExtractor.CalculateDerivedFeatures | backend/services/feature_extractor.py:344-376 | each cell's dictionary becomes its derived-feature dictionary |
| FeatureExtractor.BeforeDerived | backend/services/feature_extractor.py:55-64 | after the first five steps, every entry the derived step reads has a usable type |
| FeatureExtractor.EarlySteps | backend/services/feature_extractor.py:55-58 | after the satellite and proximity steps, the distances are comparable numbers or infinity |
| FeatureExtractor.LateSteps | backend/services/feature_extractor.py:59-64 | the temporal, terrain and species steps make a proximity-ready dictionary derived-ready |
| FeatureExtractor.ExtractFeaturesForCells | backend/services/feature_extractor.py:25-72 | every cell ends with the dictionary of the six steps applied in order |
| FeatureExtractor.FormatFeaturesSchema | backend/services/feature_extractor.py:495-550 | the model dictionary has exactly the 26 schema keys; present values pass through and absent ones take the listed defaults |
| FeatureExtractor.ModelKeysExclude | backend/services/feature_extractor.py:495-550 | vegetation_type, season and watering_pattern are not model keys |
| FeatureExtractor.FormatIdempotent | backend/services/feature_extractor.py:495-550 | formatting a formatted dictionary changes nothing |
| FeatureExtractor.SatelliteKeys | backend/services/feature_extractor.py:100-140 | the satellite step writes ndvi and vegetation_type, plus the encoding only when imagery exists |
| FeatureExtractor.ProximityKeysWritten | backend/services/feature_extractor.py:190-198 | the proximity step adds exactly the four distance keys |
| FeatureExtractor.TemporalKeysWritten | backend/services/feature_extractor.py:244-250 | the temporal step adds exactly its calendar keys |
| FeatureExtractor.TerrainKeysWritten | backend/services/feature_extractor.py:285-290 | the terrain step adds exactly elevation, slope and ruggedness |
| FeatureExtractor.SpeciesKeysWritten | backend/services/feature_extractor.py:335-340 | the species step adds exactly its six keys |
| FeatureExtractor.LaterStepsKeep | backend/services/feature_extractor.py:59-63 | the temporal, terrain and species steps keep every entry they do not write |
| FeatureExtractor.EarlyStepsKeys | backend/services/feature_extractor.py:55-58 | the keys after the first two steps, with vegetation_type from the satellite step |
| FeatureExtractor.LateStepsKeys | backend/services/feature_extractor.py:59-63 | the later steps add their keys and keep vegetation_type |
| FeatureExtractor.BeforeDerivedKeys | backend/services/feature_extractor.py:55-63 | the keys before the derived step |
| FeatureExtractor.PipelineKeys | backend/services/feature_extractor.py:55-64 | the keys at the end of the pipeline |
| FeatureExtractor.ModelKeysWritten | backend/services/feature_extractor.py:495-550 | every model key is written by some pipeline step |
| FeatureExtractor.PipelineCoversSchema | backend/services/feature_extractor.py:495-550 | after the pipeline every model key is present, except the vegetation encoding, which is present exactly when imagery exists |
| FeatureExtractor.NoImageryDefaultMatchesClass | backend/services/feature_extractor.py:100-108 | without imagery the stored class is grassland, whose index is the model default 2 |
| FeatureExtractor.PipelineKeepsVegetationType | backend/services/feature_extractor.py:25-72 | the vegetation class of the satellite step survives to the end |
| FeatureExtractor.FormatForModelInput | backend/services/feature_extractor.py:484-550 | one entry per cell in order, with cell_id and center copied and the features formatted |
| RiskModel.LoadOutcome | backend/models/risk_model.py:44-73 | a missing model file raises FileNotFoundError; a success comes from a bundle at the path |
| RiskModel.LoadNeedsPklName | backend/models/risk_model.py:62-65 | a model name without '.pkl' reads itself as JSON metadata, so loading a bundle fails |
| RiskModel.LoadFindsBundleAndMetadata | backend/models/risk_model.py:55-67 | `<base>.pkl` with `<base>_metadata.json` beside it loads the model, names, encoders and metadata |
| RiskModel.MissingCount | backend/models/risk_model.py:105-109 | the missing count is at most the number of feature names |
| RiskModel.ImputeFeatures | backend/models/risk_model.py:104-128 | the inner loop builds clean_features and missing_count as the imputation rules say |
| RiskModel.ImputationRules | backend/models/risk_model.py:106-126 | clean_features has one key per name; a missing value takes the name's default and a present one passes through |
| RiskModel.ImputationIdempotent | backend/models/risk_model.py:104-128 | nothing is missing after imputation, so imputing again changes nothing |
| RiskModel.DefaultsArePresent | backend/models/risk_model.py:111-124 | every default is a number |
| RiskModel.NoneMissing | backend/models/risk_model.py:105-109 | with no missing value the count is zero |
| RiskModel.MissingCountZero | backend/models/risk_model.py:105-109 | the count is zero exactly when no feature is missing |
| RiskModel.NumericStringKept | backend/models/risk_model.py:108 | a decimal string with one '.' counts as present, and so does NaN |
| RiskModel.NonNumericStringsMissing | backend/models/risk_model.py:108 | a second '.', an empty string, a word and None all count as missing |
| RiskModel.EncodedRuleComesFirst | backend/models/risk_model.py:111-114 | a name with both 'encoded' and 'dist_' takes 0, because the rules are tried in order |
| RiskModel.RiskScore | backend/models/risk_model.py:140-144 | `int(round(clip(raw, 0, 100)))` is an integer in [0, 100] |
| RiskModel.RiskScoreProperties | backend/models/risk_model.py:140-144 | within 0.5 of the input inside [0, 100], 0 below and 100 above, and monotone |
| RiskModel.CategorizeRiskMonotone | backend/models/risk_model.py:176-185 | a higher score never gets a lower level |
| RiskModel.CategorizeRiskBands | backend/models/risk_model.py:176-185 | critical from 80, high in [60, 80), medium in [40, 60), low below 40 |
| RiskModel.NullCount | backend/models/risk_model.py:193 | the null count is at most the row length |
| RiskModel.PenaltyFactor | backend/models/risk_model.py:151 | `max(0.5, 1 - missing/n)` is in [0.5, 1]: 1 with nothing missing, 0.5 once half is missing |
| RiskModel.CompletenessRange | backend/models/risk_model.py:193-194 | completeness is in [0, 1], and equals 1 exactly when no value is null |
| RiskModel.ScoreConfidenceShape | backend/models/risk_model.py:198 | the score term is 1 at 50, at most 1, symmetric about 50, and at least 0.7 on [0, 100] |
| RiskModel.ConfidenceFullData | backend/models/risk_model.py:187-203 | with a complete row and a score in [0, 100] the confidence is in [0.7, 1], and 1 at score 50 |
| RiskModel.ConfidenceShape | backend/models/risk_model.py:187-203 | confidence is in [0, 1] on [0, 100], peaks at 50 and is symmetric about 50 |
| RiskModel.ConfidenceFromShape | backend/models/risk_model.py:201-203 | the rounded product is monotone in the score term and stays in [0, 1] |
| RiskModel.Penalised | backend/models/risk_model.py:150-151 | the penalty never raises a confidence and leaves it alone when nothing is missing |
| RiskModel.ReportedConfidenceRange | backend/models/risk_model.py:148-151 | the reported confidence is in [0, 1] and at most the unpenalised one |
| RiskModel.Scaled | backend/models/risk_model.py:272-273 | each contribution becomes `int(c / total * 100)`, in order |
| RiskModel.Truncate | backend/models/risk_model.py:273 | `int(a / b)` on non-negative values is the floor quotient |
| RiskModel.GenerateRiskFactors | backend/models/risk_model.py:205-275 | the method appends the checks in order, then normalises |
| RiskModel.NormalizeContributions | backend/models/risk_model.py:269-273 | the normalisation loop rescales to integers when the total is positive |
| RiskModel.TotalPositive | backend/models/risk_model.py:270 | positive contributions sum to at least their number |
| RiskModel.ScaledSumBounds | backend/models/risk_model.py:269-273 | truncation loses less than one point per factor |
| RiskModel.NormalizedSum | backend/models/risk_model.py:269-273 | a non-empty positive list normalises to a sum in (100 - n, 100] |
| RiskModel.NormalizedEachInRange | backend/models/risk_model.py:269-273 | each normalised contribution is in [0, 100] |
| RiskModel.RawFactorsShape | backend/models/risk_model.py:215-267 | at most four factors, at least one when the score is above 60, all with positive draws |
| RiskModel.PartsShape | backend/models/risk_model.py:218-259 | each check adds at most one factor |
| RiskModel.RiskFactorsProperties | backend/models/risk_model.py:205-275 | at most four factors, each in [0, 100], summing to more than 100 - n and at most 100, and non-empty above 60 |
| RiskModel.PredictionProperties | backend/models/risk_model.py:143-172 | a prediction keeps its cell, has a score in [0, 100] with its level, a confidence in [0, 1], normalised factors and the feature count |
| RiskModel.SelectColumns | backend/models/risk_model.py:131-134 | `df[feature_names]` takes the imputed values in feature-name order |
| RiskModel.PredictRow | backend/models/risk_model.py:143-172 | one pass of the result loop builds the cell's prediction |
| RiskModel.PredictAll | backend/models/risk_model.py:143-174 | one prediction per cell, in input order |
| RiskModel.RiskPredictionModel.constructor | backend/models/risk_model.py:21-39 | the default path is trained/risk_model_v1.pkl; the wrapper starts empty and not loaded |
| RiskModel.RiskPredictionModel.LoadModel | backend/models/risk_model.py:44-73 | a missing or unreadable file changes nothing; a bundle sets model, names and encoders; is_loaded is set only once the metadata also loads |
| RiskModel.RiskPredictionModel.Create | backend/models/risk_model.py:21-42 | construction fails with the load error, or yields a fresh loaded wrapper in the state LoadOutcome gives, reporting "loaded" |
| RiskModel.RiskPredictionModel.PredictBatch | backend/models/risk_model.py:75-174 | raises when not loaded; an empty batch gives []; a rejected frame fails; otherwise one prediction per cell, in order |
| RiskModel.RiskPredictionModel.ModelInfo | backend/models/risk_model.py:277-284 | the status is "loaded" exactly when the wrapper is loaded and "not_loaded" otherwise; it lists the three supported threats and reports the loaded feature names and metadata |
| Schema.CategorizeRiskScoreBands | backend/utils/schema.py:271-280 | SAFE below 40, LOW in [40, 60), MEDIUM in [60, 80), HIGH from 80, each an iff |
| Schema.CategorizeRiskScoreMonotone | backend/utils/schema.py:271-280 | a higher score never gets a lower level |
| Schema.ParseFactors | backend/utils/schema.py:294 | factors convert in order; the first invalid dictionary is reported, and all before it were valid |
| Schema.CreateGridCell | backend/utils/schema.py:283-300 | succeeds exactly when the factors parse, the score is in [0, 100] and the confidence is in [0, 1]; copies id, lat and lng; sets the level from the score; keeps the factors in order; None means no factors |
| Schema.CreateGridCellDefaults | backend/utils/schema.py:283-300 | with no factors and the default confidence 1.0, construction succeeds exactly for a score in [0, 100] |
| Schema.CreateGeoJsonFeature | backend/utils/schema.py:303-315 | the result is type "Feature" with a "Polygon" geometry whose only ring is the given one, and the cell as its properties |
| ModelTrainer.GroupValuesPresent | backend/services/model_trainer.py:86-88 | a group holding a present ndvi has a present value to take the median of |
| ModelTrainer.GroupFill | backend/services/model_trainer.py:86-88 | the group transform keeps the column's length |
| ModelTrainer.GroupFillProperties | backend/services/model_trainer.py:86-88 | a present ndvi stays; a missing one in a group with data is filled; a row without a crop type becomes NaN |
| ModelTrainer.FillNdvi | backend/services/model_trainer.py:85-88 | the ndvi fill keeps the columns and the height |
| ModelTrainer.FillNdviProperties | backend/services/model_trainer.py:85-88 | fails exactly when ndvi is absent, or is missing values while crop_type is absent; other columns and present values are kept |
| ModelTrainer.NumericAmong | backend/services/model_trainer.py:91 | the numeric columns among those given |
| ModelTrainer.NumericColumns | backend/services/model_trainer.py:91 | `select_dtypes(number)`: exactly the columns without strings |
| ModelTrainer.FillStep | backend/services/model_trainer.py:93-94 | one pass changes at most its own column |
| ModelTrainer.FillFrom | backend/services/model_trainer.py:92-94 | the loop keeps the columns and the height |
| ModelTrainer.FillStepProperties | backend/services/model_trainer.py:93-94 | present values and risk_score are kept; a column with data and a defined median ends without nulls; a complete column is untouched |
| ModelTrainer.FillFromProperties | backend/services/model_trainer.py:92-94 | the same over the whole loop |
| ModelTrainer.FillStaysComplete | backend/services/model_trainer.py:92-94 | a column without nulls stays without nulls |
| ModelTrainer.ImputedKeepsPresent | backend/services/model_trainer.py:85-94 | imputation keeps every present value (for ndvi, in rows with a crop type) and all of risk_score |
| ModelTrainer.ImputedComplete | backend/services/model_trainer.py:85-94 | with a defined median, no numeric column other than risk_score keeps a null when it had a value |
| ModelTrainer.NdviStaysNumeric | backend/services/model_trainer.py:86-88 | the group fill of a numeric column is numeric |
| ModelTrainer.IndexOf | backend/services/model_trainer.py:102 | the position of v in classes_, or past the end when absent |
| ModelTrainer.Encode | backend/services/model_trainer.py:102 | `transform` gives one code per row |
| ModelTrainer.Decode | backend/services/model_trainer.py:102 | `inverse_transform` gives one value per code |
| ModelTrainer.EncodeRoundTrip | backend/services/model_trainer.py:101-102 | codes are integers in [0, number of classes) and decode back to the column |
| ModelTrainer.EncodeInjective | backend/services/model_trainer.py:101-102 | two rows share a code exactly when they share a value |
| ModelTrainer.EncodeStep | backend/services/model_trainer.py:100-103 | one pass keeps the frame well formed and its existing columns in order |
| ModelTrainer.EncodeStepFacts | backend/services/model_trainer.py:100-103 | a present feature gets `<feature>_encoded` and its fitted encoder; an absent one changes nothing |
| ModelTrainer.EncodeFrom | backend/services/model_trainer.py:99-104 | the loop keeps the frame well formed and its columns in order |
| ModelTrainer.EncodedNameInjective | backend/services/model_trainer.py:102 | different features have different encoded column names |
| ModelTrainer.EncodeFromProperties | backend/services/model_trainer.py:99-104 | each present feature gets its encoder and encoded column; other encoders and columns are kept |
| ModelTrainer.CategoricalEncoding | backend/services/model_trainer.py:97-104 | the same for crop_type, pest_pressure and crop_stage |
| ModelTrainer.DerivedFormulas | backend/services/model_trainer.py:111-124 | on numbers the five indices are the closed formulas; a zero denominator gives infinity for a positive numerator; a null operand gives NaN |
| ModelTrainer.DerivedInfinite | backend/services/model_trainer.py:111-124 | infinite inputs follow float arithmetic: an infinite `dist_to_water` gives `pest_habitat_suitability` 0.0, an infinite `days_since_last_report` gives `pest_pressure_history` 0.0, an infinite temperature makes the fungal and water-stress indices infinite for a positive other factor and NaN for a zero one, and `dist_to_water` = -100 gives inf |
| ModelTrainer.Derive | backend/services/model_trainer.py:111-124 | an assignment succeeds exactly when both columns exist and hold no strings; the first missing column is reported; only the target column changes |
| ModelTrainer.Zip | backend/services/model_trainer.py:111-124 | element-wise arithmetic keeps the length |
| ModelTrainer.AddDerived | backend/services/model_trainer.py:111-124 | the five assignments keep the frame well formed |
| ModelTrainer.FeatureNames | backend/services/model_trainer.py:127-130 | exactly the columns not excluded, in column order and without duplicates |
| ModelTrainer.FeatureNamesExclude | backend/services/model_trainer.py:127-130 | risk_score, cell_id, lat, lng and the raw categorical columns never become features |
| ModelTrainer.Select | backend/services/model_trainer.py:132 | `df[names]` has exactly those columns with their values |
| ModelTrainer.Imputed | backend/services/model_trainer.py:85-94 | imputation keeps the columns and the height |
| ModelTrainer.Finish | backend/services/model_trainer.py:130-133 | the feature names are recorded; X has them as columns and y is risk_score; a missing risk_score raises |
| ModelTrainer.PreparedShape | backend/services/model_trainer.py:65-138 | on success X has the recorded names, which are distinct and not excluded, with one row per input row |
| ModelTrainer.CountAbove | backend/services/model_trainer.py:294-295 | a count of scores is at most their number |
| ModelTrainer.CountBoth | backend/services/model_trainer.py:298 | the joint count is at most each single count |
| ModelTrainer.CountBothAll | backend/services/model_trainer.py:298 | the joint count equals a's count exactly when every high a is high in b |
| ModelTrainer.Ratio | backend/services/model_trainer.py:297-306 | a count ratio is in [0, 1], 0.0 over nothing, and 1 exactly when all counted |
| ModelTrainer.CalculateCriticalMetrics | backend/services/model_trainer.py:293-306 | precision and recall are in [0, 1], and 0.0 when nothing has a score above 80 |
| ModelTrainer.CountBothSymmetric | backend/services/model_trainer.py:298-304 | the joint count does not depend on the argument order |
| ModelTrainer.CriticalMetricsPerfect | backend/services/model_trainer.py:293-306 | precision is 1 exactly when every predicted critical row is truly critical; recall likewise |
| ModelTrainer.TrainingMetadata | backend/services/model_trainer.py:254-275 | the metadata holds the model version, the model type and the feature count |
| ModelTrainer.SavedFiles | backend/services/model_trainer.py:383-400 | the bundle goes to trained/filename and the metadata to its metadata path; all other files are kept |
| ModelTrainer.ImputeFrame | backend/services/model_trainer.py:85-94 | method form of the two imputation steps |
| ModelTrainer.DeriveColumns | backend/services/model_trainer.py:111-124 | method form of the derived-column assignments |
| ModelTrainer.ModelTrainer.constructor | backend/services/model_trainer.py:22-38 | the default data path is data/training_data.csv; no model, encoders, names or metadata yet |
| ModelTrainer.ModelTrainer.LoadData | backend/services/model_trainer.py:42-63 | a missing file raises FileNotFoundError and an unreadable one fails; a table without `risk_score` fails with KeyError and one whose `risk_score` holds a string fails when the report formats its minimum; every other table is returned as read |
| ModelTrainer.ModelTrainer.PrepareFeatures | backend/services/model_trainer.py:65-138 | result, encoders and feature names as PrepareOutcome describes; names are kept when the step raises before line 130 |
| ModelTrainer.ModelTrainer.PrepareImputed | backend/services/model_trainer.py:96-138 | prepare_features from the encoding on |
| ModelTrainer.ModelTrainer.PrepareDerived | backend/services/model_trainer.py:126-138 | prepare_features from the feature names on |
| ModelTrainer.ModelTrainer.EncodeCategoricals | backend/services/model_trainer.py:97-104 | the frame and encoders after the encoding loop |
| ModelTrainer.ModelTrainer.RecordTraining | backend/services/model_trainer.py:254-275 | train sets the model and metadata and nothing else |
| ModelTrainer.ModelTrainer.SaveModel | backend/services/model_trainer.py:373-404 | no model raises ValueError and writes nothing; otherwise returns both paths and writes the two files |
| Api.QuoteAmountsInRange | backend/main.py:175-180 | for r in [0, 100]: premium in [50k, 200k], coverage in [500k, 5M] and deductible in [10k, 50k], also after rounding |
| Api.QuoteAmountsMonotone | backend/main.py:175-180 | premium and deductible rise with the score and coverage falls, also after rounding |
| Api.PolicyTypeBands | backend/main.py:182-185 | Uninsurable above 80, High Risk in (60, 80], Standard in [30, 60], Premium below 30, each an iff |
| Api.PolicyTypeMonotone | backend/main.py:182-185 | a higher score never gets a more favourable policy |
| Api.RecommendedActionsCount | backend/main.py:201-217 | three actions exactly above 70, two otherwise; the weather advice exactly in (50, 70] |
| Api.QuoteFactorsImpact | backend/main.py:188-195 | six factors; each is High exactly when its threshold is crossed |
| Api.InsuranceQuoteInRange | backend/main.py:176-229 | a quote for r in [0, 100] has its amounts in range; above 80 it is Uninsurable with three actions |
| Api.Admit | backend/main.py:259-282 | admitted exactly for a custom polygon with at least 3 vertices and an area of at most 5000 km²; a short or missing polygon is "Invalid polygon"; a larger area is rejected |
| Api.MockLevelBands | backend/main.py:425-427 | High above 75, Medium in (50, 75], Low at 50 and below |
| Api.ScoreCell | backend/main.py:422-441 | the cell keeps its data, gets its level, and gets factors only above 50 |
| Api.ScoreCells | backend/main.py:419-441 | one scored cell per grid cell, in order, from the draw of its index; with `randint(20, 95)` and `sample(..., k=2)` draws every score is in [20, 95] and a cell has two factors exactly when its score is above 50 |
| Api.RingShape | backend/main.py:450-456 | five [lng, lat] positions going sw, se, ne, nw, sw with axis-aligned edges; the ring is closed and its shoelace area is the cell's |
| Api.CellFeature | backend/main.py:458-470 | a Feature with the cell id, one Polygon ring from its bounds, and its score, level and factors |
| Api.BuildFeatures | backend/main.py:444-470 | one feature per scored cell, in order |
| Api.CountWhere | backend/main.py:474-476 | a count is at most the number of cells |
| Api.CountsPartition | backend/main.py:473-497 | high, medium and low counts add up to the number of cells |
| Api.SummaryConsistent | backend/main.py:473-499 | the counts add up to totalCells; averageRisk is 0 without cells and otherwise lies between the smallest and largest possible score |
| Api.MockSummaryInRange | backend/main.py:419-499 | for the mock-scored cells the three counts add up to totalCells, the number of cells, and the average of scores drawn from [20, 95] lies in [20, 95] |
| Api.LabelsAgreeWithCountsExceptBoundaries | backend/main.py:425-476 | labels and counts agree except at 75 (labelled Medium, counted high) and at 50 (labelled Low, counted medium) |
| InsuranceModel.FirstProblem | backend/models/insurance_model.py:27-43 | no problem exactly when every check passes; otherwise the problem of the first failing check |
| InsuranceModel.InputRow | backend/models/insurance_model.py:46-47 | the model row holds the six required values in order |
| InsuranceModel.PredictNeedsModel | backend/models/insurance_model.py:23-24 | without a model, predict raises |
| InsuranceModel.PredictAcceptsExactly | backend/models/insurance_model.py:18-48 | succeeds exactly when all six features are present and agri_risk_score is in [0, 100]; the value is the estimator on the ordered row |
| InsuranceModel.ValidationOrder | backend/models/insurance_model.py:30-37 | with a missing feature, a bad score that comes before it is reported first, and otherwise the missing feature is |
| InsuranceModel.PredictIgnoresExtraKeys | backend/models/insurance_model.py:46-47 | keys outside the six never change the outcome |
| InsuranceModel.SameChecksSameProblem | backend/models/insurance_model.py:30-43 | inputs that pass the same checks report the same problem |
| InsuranceModel.LoadPath | backend/models/insurance_model.py:53-64 | trained/filename when present, otherwise the legacy models/filename, otherwise none |
| InsuranceModel.LoadPrefersTrained | backend/models/insurance_model.py:53-73 | load reads the trained file first, then the legacy one, and fails when neither exists |
| InsuranceModel.LoadTrainedEstimator | backend/models/insurance_model.py:58-70 | a pickled estimator in trained/ loads as that estimator |
| InsuranceModel.InsuranceRiskModel.constructor | backend/models/insurance_model.py:13-15 | a fresh instance has no model and is not loaded |
| InsuranceModel.InsuranceRiskModel.Predict | backend/models/insurance_model.py:18-48 | the validation loop gives the outcome PredictOutcome describes |
| InsuranceModel.InsuranceRiskModel.Load | backend/models/insurance_model.py:50-73 | returns true exactly when a file was found and loaded, and then sets model and is_loaded; otherwise nothing changes |
| InsuranceModel.InsuranceRiskModelClass.constructor | backend/models/insurance_model.py:9 | no instance exists yet |
| InsuranceModel.InsuranceRiskModelClass.New | backend/models/insurance_model.py:11-16 | the first call creates an empty instance; later calls return the same object unchanged |
| InsuranceModel.GetInsuranceModel | backend/models/insurance_model.py:75-76 | returns the singleton |
| InsuranceModel.SingletonKeepsLoadedModel | backend/models/insurance_model.py:11-16 | a second construction returns the same object and keeps the loaded model |
| Consistency.RiskScalesShifted | backend/utils/schema.py:271-280 | the predictor level is the schema level renamed (SAFE to low, LOW to medium, MEDIUM to high, HIGH to critical), so the two strings never agree |
| Consistency.DefaultFilesAgree | backend/services/model_trainer.py:373-387 | the trainer's default file is the loader's default path, and both derive risk_model_v1_metadata.json |
| Consistency.DefaultMetadataName | backend/services/model_trainer.py:398 | risk_model_v1.pkl has the metadata name risk_model_v1_metadata.json |
| Consistency.SavedModelLoadsBack | backend/services/model_trainer.py:383-400 | a model saved under the default name loads back with its model, names, encoders and metadata; the prediction metadata reports the trainer's version, type and feature count |
| Consistency.SaveWithoutPklUnloadable | backend/services/model_trainer.py:398 | a file name without '.pkl' has its bundle overwritten by the metadata, so loading it fails |

## Left out

- Earth Engine sampling, thumbnails and `calculate_polygon_area_km2` are network calls. Sampled NDVI, elevation, slope and the area are inputs.
- `cos` in the longitude step and `_haversine_distance` are float trigonometry. The step is a positive parameter and the distance an uninterpreted metric.
- The `numpy.random` distance estimates, `random.randint` contributions, `random.seed`/`random.randint` mock scores and `random.sample` factor picks are draws passed in. They are constrained only to their stated ranges: `FeatureExtractor.DrawsInRange`, `RiskModel.DrawsInRange` and, for the mock scores and factor picks, `Api.DrawInRange`. Which values a given seed yields is not modelled.
- `ephem`, `datetime` parsing, weekday and `datetime.now()` are replaced by a month, a weekday and a moon phase passed in.
- The LightGBM booster, its predictions and the sklearn estimators are uninterpreted:
  - the insurance model's `predict`;
  - `train_test_split`, KFold cross-validation, RMSE/MAE/R², feature importance and `best_iteration`.
  - The median and `LabelEncoder.fit` are function parameters constrained by `MedianDefined` and `FitsColumn`.
- joblib, pickle, JSON and CSV encodings are not modelled. A file is the value it holds, and a load or read error is an `Unreadable` file.
- The JSON metadata is limited to scalar entries. The feature list, importance table and encoder classes in the saved metadata are not modelled.
- FastAPI, WebSocket transport, `asyncio.sleep`, progress messages, exception-to-HTTP mapping, geocoding and Gemini/Perplexity calls are I/O.
  - Error messages are reduced to error constructors. This covers the "Area too large" text and the formatted factor `value` strings.
- `print` warnings are left out. This includes the insurance model's warning for features outside [-0.1, 1.1], which never raises.
- `data_service.get_context_data` and the `.update` with override factors are left out. The quote takes the resulting context values as inputs.
- Floats are exact reals. IEEE rounding error, including in `int(c / total * 100)`, is not modelled.
- Python's int/float distinction is not modelled, so `int(round(x))` and `0` versus `0.0` look alike.
- `str.isdigit` is modelled for ASCII digits only.
- pydantic's coercion of inputs into its models is not modelled. Schema records are built from already-typed values.
- Records are not otherwise validated by pydantic.
- Dictionary key order is not modelled. Feature dictionaries are `map`s over an enumeration of the keys the pipeline writes.
- A feature has its factor text through a `FactorKind`. The display texts are functions of the kind.
- `RiskModel.RiskPredictionModel.PredictBatch`: `threat_type` is accepted by the source but unused, so it is not a parameter.
- `RiskModel.RiskPredictionModel.PredictBatch`: the booster's rejection of a frame is modelled only as "no feature columns, or a string value in the frame" (`RejectsBatch`).
- `RiskModel.CalculateConfidence`: requires a non-empty row, because the source divides by its length. `predict_batch` only calls it with at least one feature name.
- RiskModel.RiskPredictionModel.ModelInfo: `get_model_info` is modelled as a record. The merge of the metadata keys with the fixed keys, which override equal metadata keys, is not modelled.
- The risk model's module-level `get_model_instance` singleton and `get_extractor_instance` are not modelled. The insurance singleton is.
- The feature-extraction steps require `Distinct(cells)`, so the aliasing of one cell object twice in a batch is not modelled.
- `FeatureExtractor.CalculateDerivedFeatures` requires that every entry it reads has the type its operators need (`DerivedReady`). The pipeline provides that ahead of it; a cell with a wrong type, which raises in the source, is not modelled.
- `FeatureExtractor.AddSpeciesFeatures` requires `dist_to_water` to be comparable with a number when present.
- The numeric `fillna` loop's `select_dtypes` is decided per column: a column with no string counts as numeric. A column mixing text and NaN is therefore not numeric.
- The pandas group `transform` with a missing crop type gives NaN. That is pandas' behaviour; `Categorical` group keys are not modelled.
- ModelTrainer.VAdd, ModelTrainer.VSub, ModelTrainer.VMul, ModelTrainer.VDiv: a `Value` holds +inf but not -inf, so a result that is -inf in numpy becomes NaN. This covers a negative number over zero, a number minus inf, and inf times or over a negative number. A CSV cell holding -inf is not modelled. Signed zeros are not modelled either, so `1 / -0.0` gives inf.
- The ensembles of helper methods follow the source's loops but split them for proof size. These are `ScanRow`/`WalkLattice`, `NormalizeContributions`, `PredictAll`/`PredictRow`, `ImputeFrame`, `DeriveColumns`, `EncodeCategoricals`, `PrepareImputed` and `PrepareDerived`.
- File names with directory separators are not modelled: a path is a directory and a plain name.
- `main()` of the trainer, `_print_metrics` and `_cross_validate` are scripts or foreign calls.
