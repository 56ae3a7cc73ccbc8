/**
  The tabular data the metrics calculator works on: a data frame indexed by
  date whose columns are the fetched market series.  A missing cell (pandas NaN)
  is `None`.
 */
module Frames {
  import opened Wrappers

  /** The catalogue of columns the calculator reads; any other column is `Other`. */
  datatype Column =
    | RealYield | NominalYield | Dxy | GoldSpot | Sp500 | Cpi | Vix | Gpr
    | Other(name: string)

  /** A series indexed by row position; `None` is NaN. */
  type Series = seq<Option<real>>

  /** One row of a frame: its date (the index, as a day number) and one cell per column. */
  datatype Row = Row(date: int, values: map<Column, Option<real>>)

  datatype Frame = Frame(columns: set<Column>, rows: seq<Row>)

  /** Every row has exactly one cell per column of the frame. */
  predicate WellFormed(f: Frame)
  {
    forall i :: 0 <= i < |f.rows| ==> f.rows[i].values.Keys == f.columns
  }

  /** `DataFrame.empty`: true when either axis has length zero. */
  predicate IsEmpty(f: Frame)
  {
    |f.rows| == 0 || f.columns == {}
  }

  /** `df[c]`: the column as a series, one entry per row. */
  function Col(f: Frame, c: Column): (s: Series)
    requires WellFormed(f) && c in f.columns
    ensures |s| == |f.rows|
    ensures forall i :: 0 <= i < |s| ==> s[i] == f.rows[i].values[c]
  {
    seq(|f.rows|, i requires 0 <= i < |f.rows| => f.rows[i].values[c])
  }
}
