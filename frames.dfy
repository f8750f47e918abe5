/** A pandas DataFrame as the report builder sees it: column labels (already
    passed through `str`) and rectangular rows of cells, where a missing value
    (NaN/NA/None) is `None` and any other value is its string form. */
module Frames {
  import opened Common

  type Cell = Option<string>

  datatype Table = Table(columns: seq<string>, rows: seq<seq<Cell>>) {
    predicate Rectangular() {
      forall i :: 0 <= i < |rows| ==> |rows[i]| == |columns|
    }
  }

  /** Every DataFrame is rectangular. */
  type DataFrame = t: Table | t.Rectangular() witness Table([], [])

  function NRows(df: DataFrame): nat { |df.rows| }

  function NCols(df: DataFrame): nat { |df.columns| }

  /** `df.empty`: true when either axis has length zero. */
  predicate IsEmpty(df: DataFrame) {
    NRows(df) == 0 || NCols(df) == 0
  }

  /** `df[col]` for the column at position `j`, top to bottom. */
  function ColumnValues(df: DataFrame, j: nat): (vs: seq<Cell>)
    requires j < NCols(df)
    ensures |vs| == NRows(df)
    ensures forall i :: 0 <= i < |vs| ==> vs[i] == df.rows[i][j]
  {
    seq(|df.rows|, i requires 0 <= i < |df.rows| => df.rows[i][j])
  }
}
