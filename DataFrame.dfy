/** The small part of a pandas DataFrame the trainer relies on: named columns
    in order, each holding one value per row. */
module DataFrame {
  import opened Common

  datatype Frame = Frame(columns: seq<string>, data: map<string, seq<Value>>, height: nat)

  predicate DistinctNames(names: seq<string>)
  {
    forall i, j :: 0 <= i < j < |names| ==> names[i] != names[j]
  }

  /** Column names are distinct, every named column has data and every column
      has one value per row. */
  predicate WellFormed(df: Frame)
  {
    DistinctNames(df.columns)
    && df.data.Keys == set c | c in df.columns
    && (forall c :: c in df.data ==> |df.data[c]| == df.height)
  }

  function Column(df: Frame, c: string): (col: seq<Value>)
    requires WellFormed(df) && c in df.columns
    ensures |col| == df.height
  {
    df.data[c]
  }

  /** `df[c] = col`: an existing column is replaced where it stands, a new one
      is appended after the others. */
  function SetColumn(df: Frame, c: string, col: seq<Value>): (r: Frame)
    requires WellFormed(df) && |col| == df.height
    ensures WellFormed(r)
    ensures r.height == df.height && r.data == df.data[c := col]
    ensures c in df.columns ==> r.columns == df.columns
    ensures c !in df.columns ==> r.columns == df.columns + [c]
  {
    if c in df.columns then Frame(df.columns, df.data[c := col], df.height)
    else Frame(df.columns + [c], df.data[c := col], df.height)
  }

  /** `s.isnull().any()`. */
  predicate HasNull(col: seq<Value>)
  {
    exists i :: 0 <= i < |col| && IsNull(col[i])
  }

  /** The non-null values of a column, in order (what pandas' median sees). */
  function Present(col: seq<Value>): (r: seq<Value>)
    ensures |r| <= |col|
    ensures forall i :: 0 <= i < |r| ==> !IsNull(r[i])
  {
    if |col| == 0 then []
    else (if IsNull(col[0]) then [] else [col[0]]) + Present(col[1..])
  }

  /** A column has a non-null value exactly when Present is non-empty. */
  lemma {:induction false} PresentNonEmpty(col: seq<Value>)
    ensures |Present(col)| > 0 <==> exists i :: 0 <= i < |col| && !IsNull(col[i])
  {
    if |col| > 0 {
      PresentNonEmpty(col[1..]);
      if !IsNull(col[0]) {
        assert !IsNull(col[0]);
      } else if exists i :: 0 <= i < |col| && !IsNull(col[i]) {
        var i :| 0 <= i < |col| && !IsNull(col[i]);
        assert !IsNull(col[1..][i - 1]);
      }
    }
  }

  /** `s.fillna(v)`: nulls become v, other values stay. */
  function FillNull(col: seq<Value>, v: Value): (r: seq<Value>)
    ensures |r| == |col|
    ensures forall i :: 0 <= i < |col| ==> r[i] == if IsNull(col[i]) then v else col[i]
  {
    seq(|col|, i requires 0 <= i < |col| => if IsNull(col[i]) then v else col[i])
  }
}
