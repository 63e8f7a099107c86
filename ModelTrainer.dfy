/** The bookkeeping of the risk-model trainer: loading the training table,
    preparing the feature frame (median imputation, label encoding of the
    categorical columns, derived stress indices, the feature-name list), the
    critical-risk precision and recall, and saving the trained bundle with its
    metadata. LightGBM itself, the data splits and the regression metrics are
    library code and are not modelled. */
module ModelTrainer {
  import opened Common
  import opened DataFrame
  import opened Storage

  datatype TrainerError =
      /** FileNotFoundError from load_data. */
      DataNotFound(path: Path)
      /** read_csv cannot parse the file. */
    | DataUnreadable(path: Path)
      /** KeyError: a column prepare_features reads is absent. */
    | MissingColumn(name: string)
      /** TypeError or ValueError: a column used in arithmetic or formatted
          as a float holds a string. */
    | NonNumericColumn(target: string)
      /** ValueError from save_model. */
    | NoModelToSave

  const DefaultDataPath: Path := Path(DataDir, "training_data.csv")
  const DefaultModelFile: string := "risk_model_v1.pkl"

  /** pandas' median of the non-null values of a column; its value is not modelled. */
  type Median = seq<Value> -> Value

  /** The median of a non-empty sequence of non-null values is not null, and
      the median of values that are no strings is no string. */
  ghost predicate MedianDefined(median: Median)
  {
    forall s: seq<Value> ::
      ((|s| > 0 && forall i :: 0 <= i < |s| ==> !IsNull(s[i])) ==> !IsNull(median(s)))
      && ((forall i :: 0 <= i < |s| ==> !s[i].Text?) ==> !median(s).Text?)
  }

  /** Present values of a's columns are still there in b. */
  predicate PresentKept(a: Frame, b: Frame)
  {
    forall c, i :: c in a.data && c in b.data && 0 <= i < |a.data[c]| && i < |b.data[c]| && !IsNull(a.data[c][i])
      ==> b.data[c][i] == a.data[c][i]
  }

  predicate HasPresent(col: seq<Value>)
  {
    exists i :: 0 <= i < |col| && !IsNull(col[i])
  }

  // ---------------------------------------------------------------------
  // ndvi: the median of the rows with the same crop type
  // ---------------------------------------------------------------------

  /** The ndvi values of the rows whose crop type is key, in row order. */
  function GroupValues(ndvi: seq<Value>, crop: seq<Value>, key: Value): (g: seq<Value>)
    requires |ndvi| == |crop|
  {
    if |ndvi| == 0 then []
    else (if crop[0] == key then [ndvi[0]] else []) + GroupValues(ndvi[1..], crop[1..], key)
  }

  /** A row of the group with a present value puts one into the group's values. */
  lemma {:induction false} GroupValuesPresent(ndvi: seq<Value>, crop: seq<Value>, key: Value, j: int)
    requires |ndvi| == |crop| && 0 <= j < |ndvi| && crop[j] == key && !IsNull(ndvi[j])
    ensures |Present(GroupValues(ndvi, crop, key))| > 0
  {
    var g := GroupValues(ndvi, crop, key);
    if j == 0 {
      assert g == [ndvi[0]] + GroupValues(ndvi[1..], crop[1..], key);
      assert g[0] == ndvi[0];
    } else {
      GroupValuesPresent(ndvi[1..], crop[1..], key, j - 1);
      PresentNonEmpty(GroupValues(ndvi[1..], crop[1..], key));
      var k :| 0 <= k < |GroupValues(ndvi[1..], crop[1..], key)| && !IsNull(GroupValues(ndvi[1..], crop[1..], key)[k]);
      var head := if crop[0] == key then [ndvi[0]] else [];
      assert g == head + GroupValues(ndvi[1..], crop[1..], key);
      assert g[|head| + k] == GroupValues(ndvi[1..], crop[1..], key)[k];
    }
    PresentNonEmpty(g);
  }

  /** `df.groupby('crop_type')['ndvi'].transform(lambda x: x.fillna(x.median()))`:
      a row with a null crop type belongs to no group and gets NaN; a null
      ndvi gets its group's median; a present one stays. */
  function GroupFill(ndvi: seq<Value>, crop: seq<Value>, median: Median): (r: seq<Value>)
    requires |ndvi| == |crop|
    ensures |r| == |ndvi|
  {
    seq(|ndvi|, i requires 0 <= i < |ndvi| =>
      if IsNull(crop[i]) then NaN
      else if IsNull(ndvi[i]) then median(Present(GroupValues(ndvi, crop, crop[i])))
      else ndvi[i])
  }

  /** In a row with a crop type a present ndvi stays, and a missing one is
      filled when another row of the same crop type has a value; a row
      without a crop type loses its ndvi. */
  lemma GroupFillProperties(ndvi: seq<Value>, crop: seq<Value>, median: Median, i: int)
    requires |ndvi| == |crop| && 0 <= i < |ndvi|
    ensures !IsNull(crop[i]) && !IsNull(ndvi[i]) ==> GroupFill(ndvi, crop, median)[i] == ndvi[i]
    ensures MedianDefined(median) && !IsNull(crop[i])
            && (exists j :: 0 <= j < |ndvi| && crop[j] == crop[i] && !IsNull(ndvi[j]))
            ==> !IsNull(GroupFill(ndvi, crop, median)[i])
    ensures IsNull(crop[i]) ==> GroupFill(ndvi, crop, median)[i] == NaN
  {
    if MedianDefined(median) && !IsNull(crop[i]) && IsNull(ndvi[i])
       && exists j :: 0 <= j < |ndvi| && crop[j] == crop[i] && !IsNull(ndvi[j]) {
      var j :| 0 <= j < |ndvi| && crop[j] == crop[i] && !IsNull(ndvi[j]);
      GroupValuesPresent(ndvi, crop, crop[i], j);
    }
  }

  /** Lines 85-88: only a frame with a missing ndvi is regrouped. */
  function FillNdvi(df: Frame, median: Median): (r: Result<Frame, TrainerError>)
    requires WellFormed(df)
    ensures r.Success? ==> WellFormed(r.value) && r.value.columns == df.columns && r.value.height == df.height
  {
    if "ndvi" !in df.columns then Failure(MissingColumn("ndvi"))
    else if !HasNull(df.data["ndvi"]) then Success(df)
    else if "crop_type" !in df.columns then Failure(MissingColumn("crop_type"))
    else Success(SetColumn(df, "ndvi", GroupFill(df.data["ndvi"], df.data["crop_type"], median)))
  }

  /** The ndvi step fails exactly on the missing columns it reads; otherwise
      it changes ndvi alone, keeping the present values of rows with a crop type. */
  lemma FillNdviProperties(df: Frame, median: Median)
    requires WellFormed(df)
    ensures FillNdvi(df, median).Failure? <==>
      "ndvi" !in df.columns || (HasNull(df.data["ndvi"]) && "crop_type" !in df.columns)
    ensures FillNdvi(df, median).Success? ==>
      var g := FillNdvi(df, median).value;
      (forall c :: c in df.columns && c != "ndvi" ==> g.data[c] == df.data[c])
      && forall i :: 0 <= i < df.height && !IsNull(df.data["ndvi"][i])
           && ("crop_type" in df.columns ==> !IsNull(df.data["crop_type"][i]))
           ==> g.data["ndvi"][i] == df.data["ndvi"][i]
  {
  }

  // ---------------------------------------------------------------------
  // numeric columns: the column median
  // ---------------------------------------------------------------------

  /** select_dtypes(include=[np.number]) on one column: it holds no string. */
  predicate IsNumericColumn(col: seq<Value>)
  {
    forall i :: 0 <= i < |col| ==> !col[i].Text?
  }

  /** The numeric ones among cols, in order. */
  function NumericAmong(df: Frame, cols: seq<string>): (r: seq<string>)
    requires WellFormed(df) && forall c :: c in cols ==> c in df.columns
    ensures forall c :: c in r <==> c in cols && IsNumericColumn(df.data[c])
  {
    if |cols| == 0 then []
    else (if IsNumericColumn(df.data[cols[0]]) then [cols[0]] else []) + NumericAmong(df, cols[1..])
  }

  function NumericColumns(df: Frame): (r: seq<string>)
    requires WellFormed(df)
    ensures forall c :: c in r <==> c in df.columns && IsNumericColumn(df.data[c])
  {
    NumericAmong(df, df.columns)
  }

  /** One pass of the loop of lines 92-94. */
  function FillStep(df: Frame, c: string, median: Median): (r: Frame)
    requires WellFormed(df) && c in df.columns
    ensures WellFormed(r) && r.columns == df.columns && r.height == df.height
    ensures r.data == df.data[c := r.data[c]]
  {
    var col := df.data[c];
    if HasNull(col) && c != "risk_score" then SetColumn(df, c, FillNull(col, median(Present(col)))) else df
  }

  /** The loop of lines 92-94 over cols. */
  function FillFrom(df: Frame, cols: seq<string>, median: Median): (r: Frame)
    requires WellFormed(df) && forall c :: c in cols ==> c in df.columns
    ensures WellFormed(r) && r.columns == df.columns && r.height == df.height
    decreases |cols|
  {
    if |cols| == 0 then df else FillFrom(FillStep(df, cols[0], median), cols[1..], median)
  }

  /** One pass keeps present values, fills its column when it has a present
      value and the median is defined, and does not touch the other columns. */
  lemma FillStepProperties(df: Frame, c: string, median: Median)
    requires WellFormed(df) && c in df.columns
    ensures PresentKept(df, FillStep(df, c, median))
    ensures forall d :: d in df.columns && d != c ==> FillStep(df, c, median).data[d] == df.data[d]
    ensures "risk_score" in df.columns ==> FillStep(df, c, median).data["risk_score"] == df.data["risk_score"]
    ensures MedianDefined(median) && c != "risk_score" && HasPresent(df.data[c])
            ==> !HasNull(FillStep(df, c, median).data[c])
    ensures !HasNull(df.data[c]) ==> FillStep(df, c, median) == df
  {
    var col := df.data[c];
    var r := FillStep(df, c, median);
    if HasNull(col) && c != "risk_score" {
      var v := median(Present(col));
      assert r.data[c] == FillNull(col, v);
      if MedianDefined(median) && HasPresent(col) {
        PresentNonEmpty(col);
        assert !IsNull(v);
      }
    }
  }

  /** The numeric loop keeps every present value and risk_score, changes only
      the columns it visits, and leaves no null in a visited column other than
      risk_score that had a value, provided the median is defined. */
  lemma {:induction false} FillFromProperties(df: Frame, cols: seq<string>, median: Median)
    requires WellFormed(df) && forall c :: c in cols ==> c in df.columns
    ensures PresentKept(df, FillFrom(df, cols, median))
    ensures forall d :: d in df.columns && d !in cols ==> FillFrom(df, cols, median).data[d] == df.data[d]
    ensures "risk_score" in df.columns ==> FillFrom(df, cols, median).data["risk_score"] == df.data["risk_score"]
    ensures MedianDefined(median) ==>
      forall c :: c in cols && c != "risk_score" && HasPresent(df.data[c]) ==> !HasNull(FillFrom(df, cols, median).data[c])
    decreases |cols|
  {
    if |cols| > 0 {
      var step := FillStep(df, cols[0], median);
      var r := FillFrom(df, cols, median);
      assert r == FillFrom(step, cols[1..], median);
      FillStepProperties(df, cols[0], median);
      FillFromProperties(step, cols[1..], median);
      PresentKeptTrans(df, step, r);
      if MedianDefined(median) {
        forall c | c in cols && c != "risk_score" && HasPresent(df.data[c])
          ensures !HasNull(r.data[c])
        {
          if c != cols[0] {
            assert step.data[c] == df.data[c];
            assert c in cols[1..];
          } else {
            FillStaysComplete(step, cols[1..], median, c);
          }
        }
      }
    }
  }

  /** A column without nulls stays without nulls. */
  lemma {:induction false} FillStaysComplete(df: Frame, cols: seq<string>, median: Median, c: string)
    requires WellFormed(df) && (forall d :: d in cols ==> d in df.columns) && c in df.columns
    requires !HasNull(df.data[c])
    ensures !HasNull(FillFrom(df, cols, median).data[c])
    decreases |cols|
  {
    if |cols| > 0 {
      var step := FillStep(df, cols[0], median);
      FillStepProperties(df, cols[0], median);
      if cols[0] == c {
        assert step == df;
      } else {
        assert step.data[c] == df.data[c];
      }
      FillStaysComplete(step, cols[1..], median, c);
    }
  }

  lemma PresentKeptTrans(a: Frame, b: Frame, c: Frame)
    requires PresentKept(a, b) && PresentKept(b, c)
    requires a.data.Keys == b.data.Keys == c.data.Keys
    requires forall k :: k in a.data ==> |a.data[k]| == |b.data[k]| == |c.data[k]|
    ensures PresentKept(a, c)
  {
  }

  /** Imputation keeps every present value outside ndvi, those of ndvi in
      rows with a crop type, and risk_score as it is. */
  lemma ImputedKeepsPresent(df: Frame, median: Median)
    requires WellFormed(df) && Imputed(df, median).Success?
    ensures var g := Imputed(df, median).value;
      && (forall c, i :: c in df.columns && c != "ndvi" && 0 <= i < df.height && !IsNull(df.data[c][i])
            ==> g.data[c][i] == df.data[c][i])
      && (forall i :: 0 <= i < df.height && !IsNull(df.data["ndvi"][i])
             && ("crop_type" in df.columns ==> !IsNull(df.data["crop_type"][i]))
            ==> g.data["ndvi"][i] == df.data["ndvi"][i])
      && ("risk_score" in df.columns ==> g.data["risk_score"] == df.data["risk_score"])
  {
    var n := FillNdvi(df, median).value;
    var cols := NumericColumns(n);
    var g := Imputed(df, median).value;
    assert g == FillFrom(n, cols, median);
    FillNdviProperties(df, median);
    FillFromProperties(n, cols, median);
    forall c, i | c in df.columns && c != "ndvi" && 0 <= i < df.height && !IsNull(df.data[c][i])
      ensures g.data[c][i] == df.data[c][i]
    {
      assert n.data[c] == df.data[c];
      assert c in n.data && c in g.data;
    }
    forall i | 0 <= i < df.height && !IsNull(df.data["ndvi"][i])
               && ("crop_type" in df.columns ==> !IsNull(df.data["crop_type"][i]))
      ensures g.data["ndvi"][i] == df.data["ndvi"][i]
    {
      assert n.data["ndvi"][i] == df.data["ndvi"][i];
      assert "ndvi" in n.data && "ndvi" in g.data;
    }
  }

  /** With a defined median, imputation leaves no null in a numeric column
      other than risk_score that had a value; for ndvi the value must sit in a
      row with a crop type. */
  lemma ImputedComplete(df: Frame, median: Median)
    requires WellFormed(df) && Imputed(df, median).Success? && MedianDefined(median)
    ensures var g := Imputed(df, median).value;
      && (forall c :: (c in df.columns && c != "risk_score" && c != "ndvi" && IsNumericColumn(df.data[c])
                       && HasPresent(df.data[c])) ==> !HasNull(g.data[c]))
      && (IsNumericColumn(df.data["ndvi"])
          && (exists i :: 0 <= i < df.height && !IsNull(df.data["ndvi"][i])
                && ("crop_type" in df.columns ==> !IsNull(df.data["crop_type"][i])))
          ==> !HasNull(g.data["ndvi"]))
  {
    var n := FillNdvi(df, median).value;
    var cols := NumericColumns(n);
    assert Imputed(df, median).value == FillFrom(n, cols, median);
    FillNdviProperties(df, median);
    FillFromProperties(n, cols, median);
    forall c | c in df.columns && c != "risk_score" && c != "ndvi" && IsNumericColumn(df.data[c]) && HasPresent(df.data[c])
      ensures c in cols && HasPresent(n.data[c])
    {
      assert n.data[c] == df.data[c];
    }
    if IsNumericColumn(df.data["ndvi"])
       && exists i :: 0 <= i < df.height && !IsNull(df.data["ndvi"][i])
            && ("crop_type" in df.columns ==> !IsNull(df.data["crop_type"][i])) {
      var i :| 0 <= i < df.height && !IsNull(df.data["ndvi"][i])
            && ("crop_type" in df.columns ==> !IsNull(df.data["crop_type"][i]));
      assert n.data["ndvi"][i] == df.data["ndvi"][i];
      if HasNull(df.data["ndvi"]) {
        NdviStaysNumeric(df.data["ndvi"], df.data["crop_type"], median);
      }
      assert IsNumericColumn(n.data["ndvi"]);
      assert HasPresent(n.data["ndvi"]);
      assert "ndvi" in cols;
    }
  }

  /** The group fill of a numeric ndvi column is numeric. */
  lemma NdviStaysNumeric(ndvi: seq<Value>, crop: seq<Value>, median: Median)
    requires |ndvi| == |crop| && IsNumericColumn(ndvi) && MedianDefined(median)
    ensures IsNumericColumn(GroupFill(ndvi, crop, median))
  {
    forall i | 0 <= i < |ndvi| ensures !GroupFill(ndvi, crop, median)[i].Text? {
      if !IsNull(crop[i]) && IsNull(ndvi[i]) {
        var g := Present(GroupValues(ndvi, crop, crop[i]));
        GroupValuesNumeric(ndvi, crop, crop[i]);
        assert forall k :: 0 <= k < |g| ==> !g[k].Text? by { PresentNumeric(GroupValues(ndvi, crop, crop[i])); }
      }
    }
  }

  lemma {:induction false} GroupValuesNumeric(ndvi: seq<Value>, crop: seq<Value>, key: Value)
    requires |ndvi| == |crop| && IsNumericColumn(ndvi)
    ensures IsNumericColumn(GroupValues(ndvi, crop, key))
  {
    if |ndvi| > 0 {
      GroupValuesNumeric(ndvi[1..], crop[1..], key);
      var head := if crop[0] == key then [ndvi[0]] else [];
      assert GroupValues(ndvi, crop, key) == head + GroupValues(ndvi[1..], crop[1..], key);
    }
  }

  lemma {:induction false} PresentNumeric(col: seq<Value>)
    requires IsNumericColumn(col)
    ensures IsNumericColumn(Present(col))
  {
    if |col| > 0 {
      PresentNumeric(col[1..]);
      var head := if IsNull(col[0]) then [] else [col[0]];
      assert Present(col) == head + Present(col[1..]);
    }
  }

  // ---------------------------------------------------------------------
  // categorical columns: label encoding
  // ---------------------------------------------------------------------

  const Categorical: seq<string> := ["crop_type", "pest_pressure", "crop_stage"]

  /** LabelEncoder.fit: classes_, the sorted distinct values of the column
      (the sort order is not modelled). */
  type Fit = seq<Value> -> seq<Value>

  /** classes lists every value of the column, each once. */
  predicate FitsColumn(classes: seq<Value>, col: seq<Value>)
  {
    (forall i :: 0 <= i < |col| ==> col[i] in classes)
    && forall i, j :: 0 <= i < j < |classes| ==> classes[i] != classes[j]
  }

  /** The position of v in classes, or |classes| when it is not there. */
  function IndexOf(classes: seq<Value>, v: Value): (k: nat)
    ensures k <= |classes|
    ensures v in classes ==> k < |classes| && classes[k] == v
    ensures v !in classes ==> k == |classes|
  {
    if |classes| == 0 then 0
    else if classes[0] == v then 0
    else 1 + IndexOf(classes[1..], v)
  }

  /** LabelEncoder.transform: each value becomes its position in classes_. */
  function Encode(classes: seq<Value>, col: seq<Value>): (r: seq<Value>)
    ensures |r| == |col|
  {
    seq(|col|, i requires 0 <= i < |col| => Num(IndexOf(classes, col[i]) as real))
  }

  /** LabelEncoder.inverse_transform. */
  function Decode(classes: seq<Value>, codes: seq<Value>): (r: seq<Value>)
    ensures |r| == |codes|
  {
    seq(|codes|, i requires 0 <= i < |codes| =>
      if codes[i].Num? && 0 <= codes[i].x.Floor < |classes| then classes[codes[i].x.Floor] else Null)
  }

  /** The codes are integers in [0, |classes|) and decode back to the column. */
  lemma EncodeRoundTrip(classes: seq<Value>, col: seq<Value>)
    requires FitsColumn(classes, col)
    ensures forall i :: 0 <= i < |col| ==>
      Encode(classes, col)[i].Num? && Encode(classes, col)[i].x == Encode(classes, col)[i].x.Floor as real
      && 0 <= Encode(classes, col)[i].x.Floor < |classes|
    ensures Decode(classes, Encode(classes, col)) == col
  {
    var enc := Encode(classes, col);
    forall i | 0 <= i < |col|
      ensures enc[i].x.Floor == IndexOf(classes, col[i])
    {
      var k := IndexOf(classes, col[i]);
      assert enc[i] == Num(k as real);
      assert (k as real).Floor == k;
    }
  }

  /** Two distinct classes never share a code. */
  lemma EncodeInjective(classes: seq<Value>, col: seq<Value>, i: int, j: int)
    requires FitsColumn(classes, col) && 0 <= i < |col| && 0 <= j < |col|
    ensures Encode(classes, col)[i] == Encode(classes, col)[j] <==> col[i] == col[j]
  {
    EncodeRoundTrip(classes, col);
    var d := Decode(classes, Encode(classes, col));
    assert d[i] == col[i] && d[j] == col[j];
  }

  /** The column `<feature>_encoded`. */
  function EncodedName(feature: string): string
  {
    feature + "_encoded"
  }

  /** One pass of the loop of lines 99-104. */
  function EncodeStep(df: Frame, feature: string, fit: Fit, encoders: map<string, LabelEncoder>)
    : (r: (Frame, map<string, LabelEncoder>))
    requires WellFormed(df)
    ensures WellFormed(r.0) && r.0.height == df.height
    ensures |r.0.columns| >= |df.columns| && r.0.columns[..|df.columns|] == df.columns
  {
    if feature in df.columns then
      var classes := fit(df.data[feature]);
      (SetColumn(df, EncodedName(feature), Encode(classes, df.data[feature])),
       encoders[feature := LabelEncoder(classes)])
    else (df, encoders)
  }

  /** One pass adds at most the feature's encoded column and its encoder. */
  lemma EncodeStepFacts(df: Frame, feature: string, fit: Fit, encoders: map<string, LabelEncoder>)
    requires WellFormed(df)
    ensures var r := EncodeStep(df, feature, fit, encoders);
      && (forall c :: c in r.0.columns <==> c in df.columns || (feature in df.columns && c == EncodedName(feature)))
      && (forall c :: c in df.columns && !(feature in df.columns && c == EncodedName(feature))
            ==> r.0.data[c] == df.data[c])
      && (r.1.Keys == if feature in df.columns then encoders.Keys + {feature} else encoders.Keys)
      && (forall k :: k in encoders && k != feature ==> r.1[k] == encoders[k])
      && (feature in df.columns ==>
            r.1[feature] == LabelEncoder(fit(df.data[feature]))
            && r.0.data[EncodedName(feature)] == Encode(fit(df.data[feature]), df.data[feature]))
  {
  }

  /** The loop of lines 99-104 over features. */
  function EncodeFrom(df: Frame, features: seq<string>, fit: Fit, encoders: map<string, LabelEncoder>)
    : (r: (Frame, map<string, LabelEncoder>))
    requires WellFormed(df)
    ensures WellFormed(r.0) && r.0.height == df.height
    ensures |r.0.columns| >= |df.columns| && r.0.columns[..|df.columns|] == df.columns
    decreases |features|
  {
    if |features| == 0 then (df, encoders)
    else
      var step := EncodeStep(df, features[0], fit, encoders);
      var r := EncodeFrom(step.0, features[1..], fit, step.1);
      assert r.0.columns[..|df.columns|] == r.0.columns[..|step.0.columns|][..|df.columns|];
      r
  }

  lemma EncodedNameInjective(a: string, b: string)
    requires a != b
    ensures EncodedName(a) != EncodedName(b)
  {
    if |a| != |b| {
      assert |EncodedName(a)| != |EncodedName(b)|;
    } else {
      assert EncodedName(a)[..|a|] == a && EncodedName(b)[..|b|] == b;
    }
  }

  /** No encoded name is one of the features. */
  predicate EncodedNamesFresh(features: seq<string>)
  {
    forall f, g :: f in features && g in features ==> EncodedName(f) != g
  }

  /** What EncodeFrom promises about one feature: its encoder and encoded
      column when it is a column, nothing when it is not. */
  predicate Encoded(df: Frame, r: (Frame, map<string, LabelEncoder>), fit: Fit,
                    encoders: map<string, LabelEncoder>, f: string)
    requires WellFormed(df) && WellFormed(r.0)
  {
    (f in r.1 <==> f in encoders || f in df.columns)
    && (f in df.columns ==>
          r.1[f] == LabelEncoder(fit(df.data[f]))
          && EncodedName(f) in r.0.columns
          && r.0.data[EncodedName(f)] == Encode(fit(df.data[f]), df.data[f]))
  }

  /** A column that is no encoded name of the features keeps its values. */
  predicate Untouched(df: Frame, r: Frame, features: seq<string>)
    requires WellFormed(df) && WellFormed(r)
  {
    forall c :: c in df.columns && (forall f :: f in features ==> c != EncodedName(f))
      ==> c in r.columns && r.data[c] == df.data[c]
  }

  /** Every feature that is a column gets its encoder, fitted on that column,
      and its encoded column; the others are skipped. The other encoders, and
      the columns that are no encoded name, are left alone. */
  lemma {:induction false} EncodeFromProperties(df: Frame, features: seq<string>, fit: Fit,
                                                encoders: map<string, LabelEncoder>)
    requires WellFormed(df) && EncodedNamesFresh(features)
    ensures var r := EncodeFrom(df, features, fit, encoders);
      && (forall f :: f in features ==> Encoded(df, r, fit, encoders, f))
      && (forall f :: f !in features ==> (f in r.1 <==> f in encoders))
      && (forall f :: f in encoders && f !in features ==> r.1[f] == encoders[f])
      && Untouched(df, r.0, features)
    decreases |features|
  {
    var r := EncodeFrom(df, features, fit, encoders);
    if |features| > 0 {
      var rest := features[1..];
      var step := EncodeStep(df, features[0], fit, encoders);
      assert r == EncodeFrom(step.0, rest, fit, step.1);
      assert EncodedNamesFresh(rest) by {
        forall f, g | f in rest && g in rest ensures EncodedName(f) != g {
          assert f in features && g in features;
        }
      }
      EncodeFromProperties(step.0, rest, fit, step.1);
      EncodedAll(df, step, r, features, fit, encoders);
      EncodersKept(df, step, r, features, fit, encoders);
      UntouchedStep(df, step, r, features, fit, encoders);
    }
  }

  /** EncodeFromProperties for the features. */
  lemma EncodedAll(df: Frame, step: (Frame, map<string, LabelEncoder>), r: (Frame, map<string, LabelEncoder>),
                   features: seq<string>, fit: Fit, encoders: map<string, LabelEncoder>)
    requires WellFormed(df) && |features| > 0 && EncodedNamesFresh(features)
    requires step == EncodeStep(df, features[0], fit, encoders)
    requires WellFormed(step.0) && WellFormed(r.0)
    requires forall g :: g in features[1..] ==> Encoded(step.0, r, fit, step.1, g)
    requires forall g :: g !in features[1..] ==> (g in r.1 <==> g in step.1)
    requires forall g :: g in step.1 && g !in features[1..] ==> r.1[g] == step.1[g]
    requires Untouched(step.0, r.0, features[1..])
    ensures forall f :: f in features ==> Encoded(df, r, fit, encoders, f)
  {
    forall f | f in features ensures Encoded(df, r, fit, encoders, f) {
      EncodedOne(df, step, r, features, fit, encoders, f);
    }
  }

  /** EncodeFromProperties for the encoders of other names. */
  lemma EncodersKept(df: Frame, step: (Frame, map<string, LabelEncoder>), r: (Frame, map<string, LabelEncoder>),
                     features: seq<string>, fit: Fit, encoders: map<string, LabelEncoder>)
    requires WellFormed(df) && |features| > 0
    requires step == EncodeStep(df, features[0], fit, encoders)
    requires forall g :: g !in features[1..] ==> (g in r.1 <==> g in step.1)
    requires forall g :: g in step.1 && g !in features[1..] ==> r.1[g] == step.1[g]
    ensures forall f :: f !in features ==> (f in r.1 <==> f in encoders)
    ensures forall f :: f in encoders && f !in features ==> r.1[f] == encoders[f]
  {
    EncodeStepFacts(df, features[0], fit, encoders);
  }

  /** EncodeFromProperties for the columns that are no encoded name. */
  lemma UntouchedStep(df: Frame, step: (Frame, map<string, LabelEncoder>), r: (Frame, map<string, LabelEncoder>),
                      features: seq<string>, fit: Fit, encoders: map<string, LabelEncoder>)
    requires WellFormed(df) && |features| > 0
    requires step == EncodeStep(df, features[0], fit, encoders)
    requires WellFormed(step.0) && WellFormed(r.0)
    requires Untouched(step.0, r.0, features[1..])
    ensures Untouched(df, r.0, features)
  {
    EncodeStepFacts(df, features[0], fit, encoders);
    forall c | c in df.columns && (forall f :: f in features ==> c != EncodedName(f))
      ensures c in r.0.columns && r.0.data[c] == df.data[c]
    {
      assert c != EncodedName(features[0]);
      assert step.0.data[c] == df.data[c];
    }
  }

  /** The step for one feature of EncodeFromProperties. */
  lemma EncodedOne(df: Frame, step: (Frame, map<string, LabelEncoder>), r: (Frame, map<string, LabelEncoder>),
                   features: seq<string>, fit: Fit, encoders: map<string, LabelEncoder>, f: string)
    requires WellFormed(df) && |features| > 0 && EncodedNamesFresh(features) && f in features
    requires step == EncodeStep(df, features[0], fit, encoders)
    requires WellFormed(step.0) && WellFormed(r.0)
    requires forall g :: g in features[1..] ==> Encoded(step.0, r, fit, step.1, g)
    requires forall g :: g !in features[1..] ==> (g in r.1 <==> g in step.1)
    requires forall g :: g in step.1 && g !in features[1..] ==> r.1[g] == step.1[g]
    requires Untouched(step.0, r.0, features[1..])
    ensures Encoded(df, r, fit, encoders, f)
  {
    EncodeStepFacts(df, features[0], fit, encoders);
    assert features[0] in features;
    if f != features[0] {
      EncodedLater(df, step, r, features[0], fit, encoders, f);
    } else {
      forall g | g in features[1..] && g != features[0] ensures EncodedName(features[0]) != EncodedName(g) {
        EncodedNameInjective(features[0], g);
      }
      EncodedFirst(df, step, r, features[0], features[1..], fit, encoders);
    }
  }

  /** A later feature: the first step neither touches its column nor records it. */
  lemma EncodedLater(df: Frame, step: (Frame, map<string, LabelEncoder>), r: (Frame, map<string, LabelEncoder>),
                     f0: string, fit: Fit, encoders: map<string, LabelEncoder>, f: string)
    requires WellFormed(df) && f != f0 && EncodedName(f0) != f
    requires step == EncodeStep(df, f0, fit, encoders)
    requires WellFormed(step.0) && WellFormed(r.0)
    requires Encoded(step.0, r, fit, step.1, f)
    ensures Encoded(df, r, fit, encoders, f)
  {
    EncodeStepFacts(df, f0, fit, encoders);
    assert f in step.0.columns <==> f in df.columns;
    if f in df.columns {
      assert step.0.data[f] == df.data[f];
    }
  }

  /** The first feature: the later steps keep its encoder and encoded column. */
  lemma EncodedFirst(df: Frame, step: (Frame, map<string, LabelEncoder>), r: (Frame, map<string, LabelEncoder>),
                     f0: string, rest: seq<string>, fit: Fit, encoders: map<string, LabelEncoder>)
    requires WellFormed(df) && EncodedName(f0) != f0
    requires forall g :: g in rest && g != f0 ==> EncodedName(f0) != EncodedName(g)
    requires step == EncodeStep(df, f0, fit, encoders)
    requires WellFormed(step.0) && WellFormed(r.0)
    requires forall g :: g in rest ==> Encoded(step.0, r, fit, step.1, g)
    requires forall g :: g !in rest ==> (g in r.1 <==> g in step.1)
    requires forall g :: g in step.1 && g !in rest ==> r.1[g] == step.1[g]
    requires Untouched(step.0, r.0, rest)
    ensures Encoded(df, r, fit, encoders, f0)
  {
    EncodeStepFacts(df, f0, fit, encoders);
    if f0 in df.columns {
      assert step.0.data[f0] == df.data[f0];
      if f0 !in rest {
        assert EncodedName(f0) in step.0.columns;
        assert r.0.data[EncodedName(f0)] == step.0.data[EncodedName(f0)];
      }
    } else if f0 !in rest {
      assert f0 !in step.0.columns;
    }
  }

  /** The three categorical features of lines 97-104. */
  lemma CategoricalEncoding(df: Frame, fit: Fit, encoders: map<string, LabelEncoder>)
    requires WellFormed(df)
    ensures var r := EncodeFrom(df, Categorical, fit, encoders);
      && (forall f :: f in Categorical ==> Encoded(df, r, fit, encoders, f))
      && (forall f :: f in encoders && f !in Categorical ==> f in r.1 && r.1[f] == encoders[f])
      && Untouched(df, r.0, Categorical)
  {
    assert EncodedNamesFresh(Categorical) by {
      forall f, g | f in Categorical && g in Categorical ensures EncodedName(f) != g {
        assert |EncodedName(f)| > |g|;
      }
    }
    EncodeFromProperties(df, Categorical, fit, encoders);
  }

  // ---------------------------------------------------------------------
  // derived columns
  // ---------------------------------------------------------------------

  // Element-wise float arithmetic on the values a column can hold. A null
  // operand gives NaN, and infinity follows IEEE arithmetic, except that a
  // result of -inf, which a Value cannot hold, is NaN here.

  /** `a + b`: inf plus a number or inf is inf. */
  function VAdd(a: Value, b: Value): Value
  {
    if a.Num? && b.Num? then Num(a.x + b.x)
    else if (a.Inf? && (b.Num? || b.Inf?)) || (b.Inf? && a.Num?) then Inf
    else NaN
  }

  /** `a - b`: inf minus a number is inf; inf - inf is NaN. */
  function VSub(a: Value, b: Value): Value
  {
    if a.Num? && b.Num? then Num(a.x - b.x)
    else if a.Inf? && b.Num? then Inf
    else NaN
  }

  /** `a * b`: inf times a positive number or inf is inf, inf times 0 is NaN. */
  function VMul(a: Value, b: Value): Value
  {
    if a.Num? && b.Num? then Num(a.x * b.x)
    else if (a.Inf? && ((b.Num? && b.x > 0.0) || b.Inf?)) || (b.Inf? && a.Num? && a.x > 0.0) then Inf
    else NaN
  }

  /** `a / b`: a positive number over zero is inf and zero over zero NaN; a
      number over inf is 0.0; inf over a non-negative number is inf, and inf
      over inf NaN. */
  function VDiv(a: Value, b: Value): Value
  {
    if a.Num? && b.Num? then
      if b.x != 0.0 then Num(a.x / b.x) else if a.x > 0.0 then Inf else NaN
    else if a.Num? && b.Inf? then Num(0.0)
    else if a.Inf? && b.Num? && b.x >= 0.0 then Inf
    else NaN
  }

  /** fungal_risk_index = humidity * temperature / 100. */
  function FungalRiskIndex(humidity: Value, temperature: Value): Value
  {
    VDiv(VMul(humidity, temperature), Num(100.0))
  }

  /** water_stress_index = (1 - soil_moisture) * (temperature / 30). */
  function WaterStressIndex(soilMoisture: Value, temperature: Value): Value
  {
    VMul(VSub(Num(1.0), soilMoisture), VDiv(temperature, Num(30.0)))
  }

  /** pest_habitat_suitability = (1 / (dist_to_water + 100)) * temperature. */
  function PestHabitatSuitability(distToWater: Value, temperature: Value): Value
  {
    VMul(VDiv(Num(1.0), VAdd(distToWater, Num(100.0))), temperature)
  }

  /** crop_health_score = ndvi * soil_moisture. */
  function CropHealthScore(ndvi: Value, soilMoisture: Value): Value
  {
    VMul(ndvi, soilMoisture)
  }

  /** pest_pressure_history = pest_reports_5km / (days_since_last_report + 1). */
  function PestPressureHistory(reports: Value, days: Value): Value
  {
    VDiv(reports, VAdd(days, Num(1.0)))
  }

  /** On numbers the indices are the closed formulas; a missing input makes
      every index that reads it NaN. */
  lemma DerivedFormulas(h: real, t: real, s: real, d: real, n: real, p: real, k: real)
    ensures FungalRiskIndex(Num(h), Num(t)) == Num(h * t / 100.0)
    ensures WaterStressIndex(Num(s), Num(t)) == Num((1.0 - s) * t / 30.0)
    ensures d != -100.0 ==> PestHabitatSuitability(Num(d), Num(t)) == Num(t / (d + 100.0))
    ensures CropHealthScore(Num(n), Num(s)) == Num(n * s)
    ensures k != -1.0 ==> PestPressureHistory(Num(p), Num(k)) == Num(p / (k + 1.0))
    ensures k == -1.0 && p > 0.0 ==> PestPressureHistory(Num(p), Num(k)) == Inf
    ensures forall v: Value :: IsNull(v) ==>
      FungalRiskIndex(v, Num(t)) == FungalRiskIndex(Num(h), v) == NaN
      && WaterStressIndex(v, Num(t)) == WaterStressIndex(Num(s), v) == NaN
      && PestHabitatSuitability(v, Num(t)) == PestHabitatSuitability(Num(d), v) == NaN
      && CropHealthScore(v, Num(s)) == CropHealthScore(Num(n), v) == NaN
      && PestPressureHistory(v, Num(k)) == PestPressureHistory(Num(p), v) == NaN
  {
    assert (1.0 - s) * (t / 30.0) == (1.0 - s) * t / 30.0;
    if d != -100.0 {
      assert (1.0 / (d + 100.0)) * t == t / (d + 100.0);
    }
  }

  /** `df['risk_score']` can be read. */
  predicate HasScoreColumn(df: Frame)
  {
    "risk_score" in df.columns && "risk_score" in df.data
  }

  /** Infinite inputs follow float arithmetic: an infinite distance to water
      gives a habitat suitability of 0.0, an infinite time since the last
      report a pest history of 0.0, and an infinite temperature an infinite
      fungal or water-stress index when the other factor is positive (NaN
      when it is 0). */
  lemma DerivedInfinite(h: real, s: real, t: real, p: real)
    ensures PestHabitatSuitability(Inf, Num(t)) == Num(0.0)
    ensures PestPressureHistory(Num(p), Inf) == Num(0.0)
    ensures h > 0.0 ==> FungalRiskIndex(Num(h), Inf) == Inf && FungalRiskIndex(Inf, Num(h)) == Inf
    ensures FungalRiskIndex(Num(0.0), Inf) == NaN
    ensures s < 1.0 ==> WaterStressIndex(Num(s), Inf) == Inf
    ensures WaterStressIndex(Num(1.0), Inf) == NaN
    ensures t > 0.0 ==> PestHabitatSuitability(Num(-100.0), Num(t)) == Inf
  {
  }

  /** Some value of the column is a string. */
  predicate HasText(col: seq<Value>)
  {
    exists i :: 0 <= i < |col| && col[i].Text?
  }

  /** `df[target] = op(df[a], df[b])`: each operand is looked up in turn, and
      a string among them makes the arithmetic raise. */
  function Derive(df: Frame, target: string, a: string, b: string, op: (Value, Value) -> Value)
    : (r: Result<Frame, TrainerError>)
    requires WellFormed(df)
    ensures r.Success? ==> WellFormed(r.value) && r.value.height == df.height
    ensures r.Success? <==> a in df.columns && b in df.columns && !HasText(df.data[a]) && !HasText(df.data[b])
    ensures r.Failure? ==> r.error == (if a !in df.columns then MissingColumn(a)
                                        else if b !in df.columns then MissingColumn(b)
                                        else NonNumericColumn(target))
    ensures r.Success? ==>
      target in r.value.columns && r.value.data[target] == Zip(df.data[a], df.data[b], op)
      && (forall c :: c in r.value.columns <==> c in df.columns || c == target)
      && (forall c :: c in df.columns && c != target ==> r.value.data[c] == df.data[c])
      && |r.value.columns| >= |df.columns| && r.value.columns[..|df.columns|] == df.columns
  {
    if a !in df.columns then Failure(MissingColumn(a))
    else if b !in df.columns then Failure(MissingColumn(b))
    else if HasText(df.data[a]) || HasText(df.data[b]) then Failure(NonNumericColumn(target))
    else Success(SetColumn(df, target, Zip(df.data[a], df.data[b], op)))
  }

  /** op applied row by row. */
  function Zip(xs: seq<Value>, ys: seq<Value>, op: (Value, Value) -> Value): (r: seq<Value>)
    requires |xs| == |ys|
    ensures |r| == |xs|
  {
    seq(|xs|, i requires 0 <= i < |xs| => op(xs[i], ys[i]))
  }

  const DerivedColumns: seq<string> :=
    ["fungal_risk_index", "water_stress_index", "pest_habitat_suitability", "crop_health_score",
     "pest_pressure_history"]

  /** Lines 111-124, in order; the first failing assignment raises. */
  function AddDerived(df: Frame): (r: Result<Frame, TrainerError>)
    requires WellFormed(df)
    ensures r.Success? ==> WellFormed(r.value) && r.value.height == df.height
  {
    var r1 := Derive(df, "fungal_risk_index", "humidity", "temperature", FungalRiskIndex);
    if r1.Failure? then r1 else
    var r2 := Derive(r1.value, "water_stress_index", "soil_moisture", "temperature", WaterStressIndex);
    if r2.Failure? then r2 else
    var r3 := Derive(r2.value, "pest_habitat_suitability", "dist_to_water", "temperature", PestHabitatSuitability);
    if r3.Failure? then r3 else
    var r4 := Derive(r3.value, "crop_health_score", "ndvi", "soil_moisture", CropHealthScore);
    if r4.Failure? then r4 else
    Derive(r4.value, "pest_pressure_history", "pest_reports_5km", "days_since_last_report", PestPressureHistory)
  }

  // ---------------------------------------------------------------------
  // feature names and the prepared frame
  // ---------------------------------------------------------------------

  /** Identifiers, the target and the raw categorical columns of lines 127-128. */
  const ExcludeCols: seq<string> := ["cell_id", "lat", "lng", "risk_score", "crop_type", "pest_pressure", "crop_stage"]

  /** Line 130: the columns not excluded, in column order. */
  function FeatureNames(cols: seq<string>): (r: seq<string>)
    ensures forall c :: c in r <==> c in cols && c !in ExcludeCols
    ensures |r| <= |cols|
    ensures DistinctNames(cols) ==> DistinctNames(r)
  {
    if |cols| == 0 then []
    else
      var rest := FeatureNames(cols[1..]);
      var r := (if cols[0] in ExcludeCols then [] else [cols[0]]) + rest;
      assert DistinctNames(cols) ==> DistinctNames(r) by {
        if DistinctNames(cols) && cols[0] !in ExcludeCols {
          assert DistinctNames(cols[1..]);
          assert cols[0] !in cols[1..];
          forall i, j | 0 <= i < j < |r| ensures r[i] != r[j] {
            if i == 0 { assert r[j] == rest[j - 1]; }
            else { assert r[i] == rest[i - 1] && r[j] == rest[j - 1]; }
          }
        } else if DistinctNames(cols) {
          assert DistinctNames(cols[1..]);
        }
      }
      r
  }

  /** The identifiers and the target never become features. */
  lemma FeatureNamesExclude(cols: seq<string>)
    ensures var r := FeatureNames(cols);
      "risk_score" !in r && "cell_id" !in r && "lat" !in r && "lng" !in r
      && "crop_type" !in r && "pest_pressure" !in r && "crop_stage" !in r
  {
    var r := FeatureNames(cols);
    assert "risk_score" in ExcludeCols && "cell_id" in ExcludeCols && "lat" in ExcludeCols && "lng" in ExcludeCols;
    assert "crop_type" in ExcludeCols && "pest_pressure" in ExcludeCols && "crop_stage" in ExcludeCols;
  }

  /** `df[names]`. */
  function Select(df: Frame, names: seq<string>): (r: Frame)
    requires WellFormed(df) && DistinctNames(names) && forall c :: c in names ==> c in df.columns
    ensures WellFormed(r) && r.columns == names && r.height == df.height
    ensures forall c :: c in names ==> r.data[c] == df.data[c]
  {
    var r := Frame(names, map c | c in names :: df.data[c], df.height);
    forall c | c in names ensures c in df.data && |df.data[c]| == df.height {
      assert c in set d | d in df.columns;
    }
    assert r.data.Keys == set c | c in names;
    r
  }

  /** The feature frame X and the target y. */
  datatype Prepared = Prepared(features: Frame, target: seq<Value>)

  /** What prepare_features leaves behind: its result, the encoders it
      recorded and, once line 130 ran, the feature names. */
  datatype PrepareTrace = PrepareTrace(result: Result<Prepared, TrainerError>,
                                       encoders: map<string, LabelEncoder>, names: Option<seq<string>>)

  /** The frame after the imputation steps of lines 85-94. */
  function Imputed(df: Frame, median: Median): (r: Result<Frame, TrainerError>)
    requires WellFormed(df)
    ensures r.Success? ==> WellFormed(r.value) && r.value.columns == df.columns && r.value.height == df.height
  {
    var n := FillNdvi(df, median);
    if n.Failure? then n else Success(FillFrom(n.value, NumericColumns(n.value), median))
  }

  /** Lines 130-133 on the frame with its derived columns: the feature names,
      then X and y, where y needs risk_score. */
  function Finish(frame: Frame): (r: (Result<Prepared, TrainerError>, seq<string>))
    requires WellFormed(frame)
    ensures r.1 == FeatureNames(frame.columns)
    ensures r.0.Success? <==> "risk_score" in frame.columns
    ensures r.0.Failure? ==> r.0.error == MissingColumn("risk_score")
    ensures r.0.Success? ==>
      r.0.value.features.columns == r.1 && DistinctNames(r.1)
      && (forall c :: c in r.1 ==> c !in ExcludeCols && c in frame.columns)
      && r.0.value.features.height == frame.height && r.0.value.target == frame.data["risk_score"]
      && |r.0.value.target| == frame.height
  {
    var names := FeatureNames(frame.columns);
    if "risk_score" !in frame.columns then (Failure(MissingColumn("risk_score")), names)
    else
      assert "risk_score" in frame.data by { assert "risk_score" in set d | d in frame.columns; }
      (Success(Prepared(Select(frame, names), frame.data["risk_score"])), names)
  }

  /** prepare_features, starting from the encoders recorded before. */
  function PrepareOutcome(df: Frame, median: Median, fit: Fit, encoders: map<string, LabelEncoder>): (t: PrepareTrace)
    requires WellFormed(df)
  {
    AfterImputation(Imputed(df, median), fit, encoders)
  }

  /** The rest of prepare_features once the imputation ran. */
  function AfterImputation(imputed: Result<Frame, TrainerError>, fit: Fit, encoders: map<string, LabelEncoder>)
    : (t: PrepareTrace)
    requires imputed.Success? ==> WellFormed(imputed.value)
  {
    if imputed.Failure? then PrepareTrace(Failure(imputed.error), encoders, None)
    else
      var encoded := EncodeFrom(imputed.value, Categorical, fit, encoders);
      AfterDerivation(AddDerived(encoded.0), encoded.1)
  }

  /** The rest of prepare_features once the derived columns were computed. */
  function AfterDerivation(derived: Result<Frame, TrainerError>, encoders: map<string, LabelEncoder>): (t: PrepareTrace)
    requires derived.Success? ==> WellFormed(derived.value)
  {
    if derived.Failure? then PrepareTrace(Failure(derived.error), encoders, None)
    else
      var finished := Finish(derived.value);
      PrepareTrace(finished.0, encoders, Some(finished.1))
  }

  /** A prepared frame has the recorded feature names as its columns, in
      order, none of them an identifier, the target or a raw categorical
      column, and one row per input row, as has the target. */
  lemma PreparedShape(df: Frame, median: Median, fit: Fit, encoders: map<string, LabelEncoder>)
    requires WellFormed(df)
    ensures var t := PrepareOutcome(df, median, fit, encoders);
      t.result.Success? ==>
        t.names.Some? && t.result.value.features.columns == t.names.value
        && DistinctNames(t.names.value)
        && (forall c :: c in t.names.value ==> c !in ExcludeCols)
        && t.result.value.features.height == df.height && |t.result.value.target| == df.height
  {
    var imputed := Imputed(df, median);
    if imputed.Success? {
      var encoded := EncodeFrom(imputed.value, Categorical, fit, encoders);
      var derived := AddDerived(encoded.0);
      assert PrepareOutcome(df, median, fit, encoders) == AfterDerivation(derived, encoded.1);
    }
  }

  // ---------------------------------------------------------------------
  // critical-risk precision and recall
  // ---------------------------------------------------------------------

  /** The number of scores above t. */
  function CountAbove(s: seq<real>, t: real): (n: nat)
    ensures n <= |s|
  {
    if |s| == 0 then 0 else (if s[0] > t then 1 else 0) + CountAbove(s[1..], t)
  }

  /** The number of positions where both scores are above t. */
  function CountBoth(a: seq<real>, b: seq<real>, t: real): (n: nat)
    requires |a| == |b|
    ensures n <= CountAbove(a, t) && n <= CountAbove(b, t)
  {
    if |a| == 0 then 0
    else (if a[0] > t && b[0] > t then 1 else 0) + CountBoth(a[1..], b[1..], t)
  }

  /** Every position above t in a is above t in b exactly when the joint count
      reaches a's count. */
  lemma {:induction false} CountBothAll(a: seq<real>, b: seq<real>, t: real)
    requires |a| == |b|
    ensures CountBoth(a, b, t) == CountAbove(a, t) <==> forall i :: 0 <= i < |a| && a[i] > t ==> b[i] > t
  {
    if |a| > 0 {
      CountBothAll(a[1..], b[1..], t);
      if forall i :: 0 <= i < |a| && a[i] > t ==> b[i] > t {
        forall i | 0 <= i < |a[1..]| && a[1..][i] > t ensures b[1..][i] > t {
          assert a[i + 1] > t;
        }
      } else {
        var i :| 0 <= i < |a| && a[i] > t && !(b[i] > t);
        if i > 0 {
          assert a[1..][i - 1] > t && !(b[1..][i - 1] > t);
        }
      }
    }
  }

  const CriticalThreshold: real := 80.0

  datatype CriticalMetrics = CriticalMetrics(precision: real, recall: real)

  /** `x / y` for counts, with 0.0 when nothing was counted. */
  function Ratio(x: nat, y: nat): (r: real)
    requires x <= y
    ensures 0.0 <= r <= 1.0
    ensures y == 0 ==> r == 0.0
    ensures r == 1.0 <==> y > 0 && x == y
  {
    if y > 0 then x as real / y as real else 0.0
  }

  /** The critical-risk part of _calculate_metrics: precision over the
      predictions above 80, recall over the true scores above 80. */
  function CalculateCriticalMetrics(yTrue: seq<real>, yPred: seq<real>): (m: CriticalMetrics)
    requires |yTrue| == |yPred|
    ensures 0.0 <= m.precision <= 1.0 && 0.0 <= m.recall <= 1.0
    ensures CountAbove(yPred, CriticalThreshold) == 0 ==> m.precision == 0.0
    ensures CountAbove(yTrue, CriticalThreshold) == 0 ==> m.recall == 0.0
  {
    var both := CountBoth(yPred, yTrue, CriticalThreshold);
    assert both == CountBoth(yTrue, yPred, CriticalThreshold) by { CountBothSymmetric(yPred, yTrue, CriticalThreshold); }
    CriticalMetrics(Ratio(both, CountAbove(yPred, CriticalThreshold)), Ratio(both, CountAbove(yTrue, CriticalThreshold)))
  }

  lemma {:induction false} CountBothSymmetric(a: seq<real>, b: seq<real>, t: real)
    requires |a| == |b|
    ensures CountBoth(a, b, t) == CountBoth(b, a, t)
  {
    if |a| > 0 {
      CountBothSymmetric(a[1..], b[1..], t);
    }
  }

  /** Precision is 1 exactly when something is predicted critical and every
      critical prediction is truly critical; recall is 1 exactly when
      something is truly critical and every such score is predicted critical. */
  lemma CriticalMetricsPerfect(yTrue: seq<real>, yPred: seq<real>)
    requires |yTrue| == |yPred|
    ensures CalculateCriticalMetrics(yTrue, yPred).precision == 1.0 <==>
      CountAbove(yPred, CriticalThreshold) > 0
      && forall i :: 0 <= i < |yPred| && yPred[i] > CriticalThreshold ==> yTrue[i] > CriticalThreshold
    ensures CalculateCriticalMetrics(yTrue, yPred).recall == 1.0 <==>
      CountAbove(yTrue, CriticalThreshold) > 0
      && forall i :: 0 <= i < |yTrue| && yTrue[i] > CriticalThreshold ==> yPred[i] > CriticalThreshold
  {
    CountBothAll(yPred, yTrue, CriticalThreshold);
    CountBothAll(yTrue, yPred, CriticalThreshold);
    CountBothSymmetric(yPred, yTrue, CriticalThreshold);
  }

  // ---------------------------------------------------------------------
  // training metadata and saving
  // ---------------------------------------------------------------------

  /** The facts about a training run that train records; LightGBM computes them. */
  datatype TrainingRun = TrainingRun(trainingDate: string, trainingSamples: nat, validationSamples: nat,
                                     testSamples: nat, numTrees: nat, bestIteration: nat)

  const ModelVersion: string := "v2.0-agri"
  const ModelType: string := "LightGBM Regressor (Agricultural)"

  /** The scalar entries of the metadata train stores. */
  function TrainingMetadata(run: TrainingRun, numFeatures: nat): (m: map<string, Value>)
    ensures "model_version" in m && m["model_version"] == Text(ModelVersion)
    ensures "model_type" in m && m["model_type"] == Text(ModelType)
    ensures "num_features" in m && m["num_features"] == Num(numFeatures as real)
  {
    map["model_version" := Text(ModelVersion),
        "training_date" := Text(run.trainingDate),
        "model_type" := Text(ModelType),
        "training_samples" := Num(run.trainingSamples as real),
        "validation_samples" := Num(run.validationSamples as real),
        "test_samples" := Num(run.testSamples as real),
        "num_features" := Num(numFeatures as real),
        "num_trees" := Num(run.numTrees as real),
        "best_iteration" := Num(run.bestIteration as real)]
  }

  /** The files save_model leaves: the bundle at trained/<filename>, then the
      metadata at the name with '.pkl' replaced, which overwrites the bundle
      when the two names coincide. */
  function SavedFiles(fs: FileSystem, filename: string, model: Booster, names: seq<string>,
                      encoders: map<string, LabelEncoder>, metadata: map<string, Value>): (r: FileSystem)
    ensures MetadataPath(Path(TrainedDir, filename)) in r
    ensures r[MetadataPath(Path(TrainedDir, filename))] == JsonObject(metadata)
    ensures Path(TrainedDir, filename) in r
    ensures MetadataPath(Path(TrainedDir, filename)) != Path(TrainedDir, filename) ==>
      r[Path(TrainedDir, filename)] == ModelBundle(model, names, Some(encoders))
    ensures forall p ::
              p in fs && p != Path(TrainedDir, filename) && p != MetadataPath(Path(TrainedDir, filename))
              ==> p in r && r[p] == fs[p]
  {
    var modelPath := Path(TrainedDir, filename);
    fs[modelPath := ModelBundle(model, names, Some(encoders))][MetadataPath(modelPath) := JsonObject(metadata)]
  }

  /** Lines 85-94: the ndvi group fill, then the median fill of the numeric columns. */
  method ImputeFrame(df: Frame, median: Median) returns (r: Result<Frame, TrainerError>)
    requires WellFormed(df)
    ensures r == Imputed(df, median)
  {
    var frame := df;
    if "ndvi" !in frame.columns {
      return Failure(MissingColumn("ndvi"));
    }
    if HasNull(frame.data["ndvi"]) {
      if "crop_type" !in frame.columns {
        return Failure(MissingColumn("crop_type"));
      }
      frame := SetColumn(frame, "ndvi", GroupFill(frame.data["ndvi"], frame.data["crop_type"], median));
    }
    assert FillNdvi(df, median) == Success(frame);
    ghost var regrouped := frame;
    var numericCols := NumericColumns(frame);
    for i := 0 to |numericCols|
      invariant WellFormed(frame) && frame.columns == regrouped.columns && frame.height == regrouped.height
      invariant FillFrom(frame, numericCols[i..], median) == FillFrom(regrouped, numericCols, median)
    {
      var col := numericCols[i];
      assert FillFrom(frame, numericCols[i..], median) == FillFrom(FillStep(frame, col, median), numericCols[i + 1..], median);
      if HasNull(frame.data[col]) && col != "risk_score" {
        frame := SetColumn(frame, col, FillNull(frame.data[col], median(Present(frame.data[col]))));
      }
    }
    return Success(frame);
  }

  /** Lines 111-124: each derived column in turn; the first that cannot be
      computed raises. */
  method DeriveColumns(df: Frame) returns (r: Result<Frame, TrainerError>)
    requires WellFormed(df)
    ensures r == AddDerived(df)
  {
    var frame := df;
    var step := Derive(frame, "fungal_risk_index", "humidity", "temperature", FungalRiskIndex);
    if step.Failure? {
      return step;
    }
    frame := step.value;
    step := Derive(frame, "water_stress_index", "soil_moisture", "temperature", WaterStressIndex);
    if step.Failure? {
      return step;
    }
    frame := step.value;
    step := Derive(frame, "pest_habitat_suitability", "dist_to_water", "temperature", PestHabitatSuitability);
    if step.Failure? {
      return step;
    }
    frame := step.value;
    step := Derive(frame, "crop_health_score", "ndvi", "soil_moisture", CropHealthScore);
    if step.Failure? {
      return step;
    }
    frame := step.value;
    return Derive(frame, "pest_pressure_history", "pest_reports_5km", "days_since_last_report", PestPressureHistory);
  }

  class ModelTrainer {
    var dataPath: Path
    var model: Option<Booster>
    var labelEncoders: map<string, LabelEncoder>
    var featureNames: seq<string>
    var metadata: map<string, Value>

    /** __init__: the default data path is backend/data/training_data.csv. */
    constructor (dataPath: Option<Path>)
      ensures this.dataPath == (if dataPath.Some? then dataPath.value else DefaultDataPath)
      ensures model == None && labelEncoders == map[] && featureNames == [] && metadata == map[]
    {
      this.dataPath := if dataPath.Some? then dataPath.value else DefaultDataPath;
      model := None;
      labelEncoders := map[];
      featureNames := [];
      metadata := map[];
    }

    /** load_data: a missing file raises FileNotFoundError and anything but a
        table cannot be read. The success report formats
        `df['risk_score'].min()` as a float, so a table without that column
        raises KeyError and one whose column holds a string raises; any
        other table is returned as read. */
    method LoadData(fs: FileSystem) returns (r: Result<Frame, TrainerError>)
      ensures dataPath !in fs ==> r == Failure(DataNotFound(dataPath))
      ensures dataPath in fs && !fs[dataPath].CsvTable? ==> r == Failure(DataUnreadable(dataPath))
      ensures dataPath in fs && fs[dataPath].CsvTable? && !HasScoreColumn(fs[dataPath].frame) ==>
        r == Failure(MissingColumn("risk_score"))
      ensures (dataPath in fs && fs[dataPath].CsvTable? && HasScoreColumn(fs[dataPath].frame)
               && HasText(fs[dataPath].frame.data["risk_score"])) ==> r == Failure(NonNumericColumn("risk_score"))
      ensures r.Success? <==> (dataPath in fs && fs[dataPath].CsvTable? && HasScoreColumn(fs[dataPath].frame)
                               && !HasText(fs[dataPath].frame.data["risk_score"]))
      ensures r.Success? ==> r.value == fs[dataPath].frame
    {
      if dataPath !in fs {
        return Failure(DataNotFound(dataPath));
      }
      var file := fs[dataPath];
      if !file.CsvTable? {
        return Failure(DataUnreadable(dataPath));
      }
      var df := file.frame;
      // df['risk_score'].min() in the report
      if !HasScoreColumn(df) {
        return Failure(MissingColumn("risk_score"));
      }
      if HasText(df.data["risk_score"]) {
        return Failure(NonNumericColumn("risk_score"));
      }
      return Success(df);
    }

    /** prepare_features: the frame is changed step by step as PrepareOutcome
        describes; encoders are recorded as the categorical loop meets them,
        and the feature names once the derived columns exist. */
    method PrepareFeatures(df: Frame, median: Median, fit: Fit) returns (r: Result<Prepared, TrainerError>)
      requires WellFormed(df)
      modifies this`labelEncoders, this`featureNames
      ensures var t := PrepareOutcome(df, median, fit, old(labelEncoders));
        r == t.result && labelEncoders == t.encoders
        && featureNames == (if t.names.Some? then t.names.value else old(featureNames))
    {
      var imputed := ImputeFrame(df, median);
      if imputed.Failure? {
        return Failure(imputed.error);
      }
      r := PrepareImputed(imputed.value, fit);
    }

    /** prepare_features from line 97 on, once the imputation succeeded. */
    method PrepareImputed(df: Frame, fit: Fit) returns (r: Result<Prepared, TrainerError>)
      requires WellFormed(df)
      modifies this`labelEncoders, this`featureNames
      ensures var t := AfterImputation(Success(df), fit, old(labelEncoders));
        r == t.result && labelEncoders == t.encoders
        && featureNames == (if t.names.Some? then t.names.value else old(featureNames))
    {
      var encoded := EncodeCategoricals(df, fit);
      var derived := DeriveColumns(encoded);
      r := PrepareDerived(derived);
    }

    /** prepare_features from line 130 on, once the derived columns were computed. */
    method PrepareDerived(derived: Result<Frame, TrainerError>) returns (r: Result<Prepared, TrainerError>)
      requires derived.Success? ==> WellFormed(derived.value)
      modifies this`featureNames
      ensures var t := AfterDerivation(derived, labelEncoders);
        r == t.result && featureNames == (if t.names.Some? then t.names.value else old(featureNames))
    {
      if derived.Failure? {
        return Failure(derived.error);
      }
      featureNames := FeatureNames(derived.value.columns);
      var finished := Finish(derived.value);
      return finished.0;
    }

    /** Lines 97-104: each categorical feature present gets its encoded
        column and its encoder. */
    method EncodeCategoricals(df: Frame, fit: Fit) returns (frame: Frame)
      requires WellFormed(df)
      modifies this`labelEncoders
      ensures (frame, labelEncoders) == EncodeFrom(df, Categorical, fit, old(labelEncoders))
    {
      frame := df;
      for j := 0 to |Categorical|
        invariant WellFormed(frame)
        invariant EncodeFrom(frame, Categorical[j..], fit, labelEncoders) == EncodeFrom(df, Categorical, fit, old(labelEncoders))
      {
        var feature := Categorical[j];
        assert EncodeFrom(frame, Categorical[j..], fit, labelEncoders)
            == EncodeFrom(EncodeStep(frame, feature, fit, labelEncoders).0, Categorical[j + 1..], fit,
                          EncodeStep(frame, feature, fit, labelEncoders).1);
        if feature in frame.columns {
          var classes := fit(frame.data[feature]);
          frame := SetColumn(frame, EncodedName(feature), Encode(classes, frame.data[feature]));
          labelEncoders := labelEncoders[feature := LabelEncoder(classes)];
        }
      }
    }

    /** The bookkeeping of train once LightGBM has produced a booster: the
        model is kept and the run's metadata recorded. */
    method RecordTraining(booster: Booster, run: TrainingRun)
      modifies this
      ensures model == Some(booster) && metadata == TrainingMetadata(run, |featureNames|)
      ensures dataPath == old(dataPath) && labelEncoders == old(labelEncoders) && featureNames == old(featureNames)
    {
      model := Some(booster);
      metadata := TrainingMetadata(run, |featureNames|);
    }

    /** save_model: no model raises ValueError; otherwise the bundle and the
        metadata are written and both paths returned. */
    method SaveModel(fs: FileSystem, filename: string) returns (r: Result<(Path, Path), TrainerError>, written: FileSystem)
      ensures model.None? ==> r == Failure(NoModelToSave) && written == fs
      ensures model.Some? ==>
        r == Success((Path(TrainedDir, filename), MetadataPath(Path(TrainedDir, filename))))
        && written == SavedFiles(fs, filename, model.value, featureNames, labelEncoders, metadata)
    {
      if model.None? {
        return Failure(NoModelToSave), fs;
      }
      var modelPath := Path(TrainedDir, filename);
      written := fs[modelPath := ModelBundle(model.value, featureNames, Some(labelEncoders))];
      var metadataPath := Path(TrainedDir, MetadataName(filename));
      written := written[metadataPath := JsonObject(metadata)];
      return Success((modelPath, metadataPath)), written;
    }
  }
}
