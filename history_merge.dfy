/**
  The history/fresh merge at the top of `calculate_all_metrics`:
  `pd.concat([history_df, df]).drop_duplicates().sort_index()`, used only when
  a non-empty history is supplied.  `drop_duplicates` compares the cells of all
  columns and ignores the date index; it keeps the first occurrence.
 */
module HistoryMerge {
  import opened Wrappers
  import opened Frames

  // ---------------------------------------------------------------------------
  // concat
  // ---------------------------------------------------------------------------

  /** A row widened to the given columns; the cells it lacks are NaN. */
  function Pad(r: Row, cols: set<Column>): (p: Row)
    ensures p.date == r.date && p.values.Keys == cols
    ensures forall c :: c in cols && c in r.values ==> p.values[c] == r.values[c]
    ensures forall c :: c in cols && c !in r.values ==> p.values[c] == None
  {
    Row(r.date, map c | c in cols :: if c in r.values then r.values[c] else None)
  }

  function PadAll(rows: seq<Row>, cols: set<Column>): (ps: seq<Row>)
    ensures |ps| == |rows|
    ensures forall i :: 0 <= i < |rows| ==> ps[i] == Pad(rows[i], cols)
  {
    seq(|rows|, i requires 0 <= i < |rows| => Pad(rows[i], cols))
  }

  /** `pd.concat([h, d])`: the union of the columns, the rows of h then those of d. */
  function Concat(h: Frame, d: Frame): (c: Frame)
    ensures WellFormed(c)
    ensures c.columns == h.columns + d.columns
    ensures |c.rows| == |h.rows| + |d.rows|
    ensures forall i :: 0 <= i < |h.rows| ==> c.rows[i] == Pad(h.rows[i], c.columns)
    ensures forall j :: 0 <= j < |d.rows| ==> c.rows[|h.rows| + j] == Pad(d.rows[j], c.columns)
  {
    var cols := h.columns + d.columns;
    Frame(cols, PadAll(h.rows, cols) + PadAll(d.rows, cols))
  }

  // ---------------------------------------------------------------------------
  // drop_duplicates (keep = 'first')
  // ---------------------------------------------------------------------------

  /** Row i is the first row carrying its cells. */
  predicate IsFirst(rows: seq<Row>, i: nat)
    requires i < |rows|
  {
    forall j :: 0 <= j < i ==> rows[j].values != rows[i].values
  }

  /** The sets of cell tuples carried by the rows. */
  function Cells(rows: seq<Row>): set<map<Column, Option<real>>>
  {
    set i | 0 <= i < |rows| :: rows[i].values
  }

  /** No two rows carry the same cells. */
  predicate DistinctCells(rows: seq<Row>)
  {
    forall i, j :: 0 <= i < j < |rows| ==> rows[i].values != rows[j].values
  }

  /** Rows in order, each kept only when no earlier row carries the same cells. */
  function DropDuplicates(rows: seq<Row>): (r: seq<Row>)
    ensures |r| <= |rows|
  {
    if rows == [] then []
    else
      var init := rows[..|rows| - 1];
      var last := rows[|rows| - 1];
      if last.values in Cells(init) then DropDuplicates(init) else DropDuplicates(init) + [last]
  }

  lemma CellsOfPrefix(rows: seq<Row>)
    requires rows != []
    ensures Cells(rows) == Cells(rows[..|rows| - 1]) + {rows[|rows| - 1].values}
  {
    var init := rows[..|rows| - 1];
    forall v | v in Cells(rows) ensures v in Cells(init) + {rows[|rows| - 1].values} {
      var i :| 0 <= i < |rows| && rows[i].values == v;
      if i < |init| { assert init[i] == rows[i]; }
    }
    forall v | v in Cells(init) ensures v in Cells(rows) {
      var i :| 0 <= i < |init| && init[i].values == v;
      assert rows[i] == init[i];
    }
  }

  /**
    The result of drop_duplicates carries exactly the cells of its input, no
    two of its rows carry the same cells, and every row of it is the first
    occurrence of its cells in the input.
   */
  lemma {:induction false} DropDuplicatesSpec(rows: seq<Row>)
    ensures Cells(DropDuplicates(rows)) == Cells(rows)
    ensures DistinctCells(DropDuplicates(rows))
    ensures forall k :: 0 <= k < |DropDuplicates(rows)| ==>
      exists i :: 0 <= i < |rows| && rows[i] == DropDuplicates(rows)[k] && IsFirst(rows, i)
  {
    if rows != [] {
      var init := rows[..|rows| - 1];
      var last := rows[|rows| - 1];
      DropDuplicatesSpec(init);
      CellsOfPrefix(rows);
      var prev := DropDuplicates(init);
      var r := DropDuplicates(rows);
      assert forall i :: 0 <= i < |init| ==> init[i] == rows[i];
      assert forall i :: 0 <= i < |init| && IsFirst(init, i) ==> IsFirst(rows, i);
      if last.values !in Cells(init) {
        assert r == prev + [last];
        CellsOfPrefix(r);
        assert r[..|r| - 1] == prev;
        forall i, j | 0 <= i < j < |r| ensures r[i].values != r[j].values {
          if j == |r| - 1 {
            assert r[i] == prev[i];
            assert r[i].values in Cells(prev);
          } else {
            assert r[i] == prev[i] && r[j] == prev[j];
          }
        }
        assert IsFirst(rows, |rows| - 1) by {
          forall j | 0 <= j < |rows| - 1 ensures rows[j].values != last.values {
            assert rows[j] == init[j];
            assert init[j].values in Cells(init);
          }
        }
        forall k | 0 <= k < |r|
          ensures exists i :: 0 <= i < |rows| && rows[i] == r[k] && IsFirst(rows, i)
        {
          if k == |r| - 1 {
            assert rows[|rows| - 1] == r[k];
          } else {
            assert r[k] == prev[k];
            var i :| 0 <= i < |init| && init[i] == prev[k] && IsFirst(init, i);
            assert rows[i] == r[k];
          }
        }
      } else {
        assert r == prev;
        forall k | 0 <= k < |r|
          ensures exists i :: 0 <= i < |rows| && rows[i] == r[k] && IsFirst(rows, i)
        {
          var i :| 0 <= i < |init| && init[i] == prev[k] && IsFirst(init, i);
          assert rows[i] == r[k];
        }
      }
    }
  }

  /** Every first occurrence survives drop_duplicates. */
  lemma FirstOccurrenceKept(rows: seq<Row>, i: nat)
    requires i < |rows| && IsFirst(rows, i)
    ensures rows[i] in DropDuplicates(rows)
  {
    DropDuplicatesSpec(rows);
    var r := DropDuplicates(rows);
    assert rows[i].values in Cells(rows);
    var k :| 0 <= k < |r| && r[k].values == rows[i].values;
    var i' :| 0 <= i' < |rows| && rows[i'] == r[k] && IsFirst(rows, i');
    assert rows[i'].values == rows[i].values;
    assert i' == i;
  }

  // ---------------------------------------------------------------------------
  // sort_index
  // ---------------------------------------------------------------------------

  predicate SortedByDate(rows: seq<Row>)
  {
    forall i, j :: 0 <= i < j < |rows| ==> rows[i].date <= rows[j].date
  }

  /** Places r before the first row with a later date. */
  function Insert(r: Row, sorted: seq<Row>): seq<Row>
  {
    if sorted == [] || r.date < sorted[0].date then [r] + sorted
    else [sorted[0]] + Insert(r, sorted[1..])
  }

  /** Inserting adds exactly the one row: the result is a permutation of the input and r. */
  lemma {:induction false} InsertPermutes(r: Row, sorted: seq<Row>)
    ensures multiset(Insert(r, sorted)) == multiset(sorted) + multiset{r}
  {
    if !(sorted == [] || r.date < sorted[0].date) {
      InsertPermutes(r, sorted[1..]);
      assert sorted == [sorted[0]] + sorted[1..];
    }
  }

  /** Inserting into an ascending sequence keeps it ascending. */
  lemma {:induction false} InsertSorted(r: Row, sorted: seq<Row>)
    requires SortedByDate(sorted)
    ensures SortedByDate(Insert(r, sorted))
  {
    if !(sorted == [] || r.date < sorted[0].date) {
      var rest := Insert(r, sorted[1..]);
      InsertSorted(r, sorted[1..]);
      InsertPermutes(r, sorted[1..]);
      var out := [sorted[0]] + rest;
      forall j | 0 < j < |out| ensures sorted[0].date <= out[j].date {
        assert out[j] == rest[j - 1];
        assert rest[j - 1] in multiset(rest);
      }
    }
  }

  /** A permutation carries the same cells. */
  lemma CellsOfPermutation(a: seq<Row>, b: seq<Row>)
    requires multiset(a) == multiset(b)
    ensures Cells(a) == Cells(b)
  {
    forall v | v in Cells(a) ensures v in Cells(b) {
      var i :| 0 <= i < |a| && a[i].values == v;
      assert a[i] in multiset(b);
      var j :| 0 <= j < |b| && b[j] == a[i];
    }
    forall v | v in Cells(b) ensures v in Cells(a) {
      var j :| 0 <= j < |b| && b[j].values == v;
      assert b[j] in multiset(a);
      var i :| 0 <= i < |a| && a[i] == b[j];
    }
  }

  /** Inserting a row with new cells into rows with distinct cells keeps them distinct. */
  lemma {:induction false} InsertDistinct(r: Row, sorted: seq<Row>)
    requires DistinctCells(sorted) && r.values !in Cells(sorted)
    ensures DistinctCells(Insert(r, sorted))
  {
    var out := Insert(r, sorted);
    if sorted == [] || r.date < sorted[0].date {
      forall i, j | 0 <= i < j < |out| ensures out[i].values != out[j].values {
        assert out[j] == sorted[j - 1];
        if i == 0 {
          assert sorted[j - 1].values in Cells(sorted);
        } else {
          assert out[i] == sorted[i - 1];
        }
      }
    } else {
      var head := sorted[0];
      var tail := sorted[1..];
      var rest := Insert(r, tail);
      assert Cells(tail) <= Cells(sorted) by {
        forall v | v in Cells(tail) ensures v in Cells(sorted) {
          var j :| 0 <= j < |tail| && tail[j].values == v;
          assert tail[j] == sorted[j + 1];
        }
      }
      assert DistinctCells(tail) by {
        forall i, j | 0 <= i < j < |tail| ensures tail[i].values != tail[j].values {
          assert tail[i] == sorted[i + 1] && tail[j] == sorted[j + 1];
        }
      }
      InsertDistinct(r, tail);
      InsertPermutes(r, tail);
      CellsOfPermutation(rest, tail + [r]);
      CellsOfPrefix(tail + [r]);
      assert (tail + [r])[..|tail|] == tail;
      assert head.values !in Cells(rest) by {
        forall j | 0 <= j < |tail| ensures tail[j].values != head.values {
          assert tail[j] == sorted[j + 1];
        }
        assert head.values != r.values by {
          assert head.values in Cells(sorted);
        }
      }
      forall i, j | 0 <= i < j < |out| ensures out[i].values != out[j].values {
        assert out[j] == rest[j - 1];
        if i == 0 {
          assert rest[j - 1].values in Cells(rest);
        } else {
          assert out[i] == rest[i - 1];
        }
      }
    }
  }

  lemma CellsCons(r: Row, rows: seq<Row>)
    ensures Cells([r] + rows) == {r.values} + Cells(rows)
  {
    var s := [r] + rows;
    forall v | v in Cells(s) ensures v in {r.values} + Cells(rows) {
      var i :| 0 <= i < |s| && s[i].values == v;
      if i > 0 { assert s[i] == rows[i - 1]; }
    }
    forall v | v in Cells(rows) ensures v in Cells(s) {
      var i :| 0 <= i < |rows| && rows[i].values == v;
      assert s[i + 1] == rows[i];
    }
    assert s[0] == r;
  }

  /**
    `sort_index`: the rows in ascending date order.  pandas does not promise
    which of several rows with the same date comes first; this ordering keeps
    them in input order, and the lemma below promises no more than pandas does.
   */
  function SortByDate(rows: seq<Row>): seq<Row>
  {
    if rows == [] then [] else Insert(rows[|rows| - 1], SortByDate(rows[..|rows| - 1]))
  }

  /** Sorting yields an ascending permutation of its input. */
  lemma {:induction false} SortByDateSpec(rows: seq<Row>)
    ensures SortedByDate(SortByDate(rows))
    ensures multiset(SortByDate(rows)) == multiset(rows)
  {
    if rows != [] {
      var init := rows[..|rows| - 1];
      var last := rows[|rows| - 1];
      SortByDateSpec(init);
      InsertSorted(last, SortByDate(init));
      InsertPermutes(last, SortByDate(init));
      assert rows == init + [last];
    }
  }

  /** Sorting rows with distinct cells keeps them distinct. */
  lemma {:induction false} SortByDateDistinct(rows: seq<Row>)
    requires DistinctCells(rows)
    ensures DistinctCells(SortByDate(rows))
  {
    if rows != [] {
      var init := rows[..|rows| - 1];
      var last := rows[|rows| - 1];
      assert DistinctCells(init) by {
        forall i, j | 0 <= i < j < |init| ensures init[i].values != init[j].values {
          assert init[i] == rows[i] && init[j] == rows[j];
        }
      }
      assert last.values !in Cells(init) by {
        forall j | 0 <= j < |init| ensures init[j].values != last.values {
          assert init[j] == rows[j];
        }
      }
      SortByDateDistinct(init);
      SortByDateSpec(init);
      CellsOfPermutation(SortByDate(init), init);
      InsertDistinct(last, SortByDate(init));
    }
  }

  // ---------------------------------------------------------------------------
  // The merge policy
  // ---------------------------------------------------------------------------

  /** The frame the metrics are computed from: `df` alone, or history and `df` merged. */
  function MergeHistory(df: Frame, history: Option<Frame>): (full: Frame)
    requires WellFormed(df)
    ensures WellFormed(full)
  {
    if history.None? || IsEmpty(history.value) then df
    else
      var c := Concat(history.value, df);
      var rows := SortByDate(DropDuplicates(c.rows));
      MergedWellFormed(c);
      Frame(c.columns, rows)
  }

  lemma MergedWellFormed(c: Frame)
    requires WellFormed(c)
    ensures WellFormed(Frame(c.columns, SortByDate(DropDuplicates(c.rows))))
  {
    var d := DropDuplicates(c.rows);
    var rows := SortByDate(d);
    DropDuplicatesSpec(c.rows);
    SortByDateSpec(d);
    forall i | 0 <= i < |rows| ensures rows[i].values.Keys == c.columns {
      assert rows[i] in multiset(d);
      var k :| 0 <= k < |d| && d[k] == rows[i];
      var j :| 0 <= j < |c.rows| && c.rows[j] == d[k] && IsFirst(c.rows, j);
    }
  }

  /**
    Deduplicating then sorting: ascending by date, no two rows with the same
    cells, exactly the cells of the input, each row the first occurrence of its
    cells, and empty only when the input is.
   */
  lemma DedupSortSpec(rows: seq<Row>)
    ensures var out := SortByDate(DropDuplicates(rows));
      && SortedByDate(out)
      && DistinctCells(out)
      && Cells(out) == Cells(rows)
      && (forall r :: r in out ==> exists i :: 0 <= i < |rows| && rows[i] == r && IsFirst(rows, i))
      && (|out| == 0 <==> |rows| == 0)
  {
    var d := DropDuplicates(rows);
    var out := SortByDate(d);
    DropDuplicatesSpec(rows);
    SortByDateSpec(d);
    SortByDateDistinct(d);
    CellsOfPermutation(out, d);
    forall r | r in out
      ensures exists i :: 0 <= i < |rows| && rows[i] == r && IsFirst(rows, i)
    {
      assert r in multiset(d);
      var k :| 0 <= k < |d| && d[k] == r;
    }
    if |rows| > 0 {
      assert rows[0].values in Cells(rows);
      assert |multiset(out)| == |multiset(d)|;
    }
  }

  /**
    With no history, or an empty one, the fresh frame is used as it is: unsorted
    and not deduplicated.  Otherwise the result has the union of the columns,
    and its rows are the concatenation deduplicated and sorted as above; it
    has at least one row when the fresh frame does.
   */
  lemma MergeHistorySpec(df: Frame, history: Option<Frame>)
    requires WellFormed(df)
    ensures history.None? || IsEmpty(history.value) ==> MergeHistory(df, history) == df
    ensures history.Some? && !IsEmpty(history.value) ==>
      var c := Concat(history.value, df);
      var full := MergeHistory(df, history);
      && full.columns == history.value.columns + df.columns
      && SortedByDate(full.rows)
      && DistinctCells(full.rows)
      && Cells(full.rows) == Cells(c.rows)
      && (forall r :: r in full.rows ==> exists i :: 0 <= i < |c.rows| && c.rows[i] == r && IsFirst(c.rows, i))
    ensures |df.rows| > 0 ==> |MergeHistory(df, history).rows| > 0
  {
    if history.Some? && !IsEmpty(history.value) {
      var c := Concat(history.value, df);
      DedupSortSpec(c.rows);
      assert MergeHistory(df, history).rows == SortByDate(DropDuplicates(c.rows));
    }
  }

  /** The history row wins: a fresh row whose cells already occur in the history is dropped. */
  lemma HistoryRowWins(df: Frame, h: Frame, j: nat)
    requires WellFormed(df) && !IsEmpty(h) && j < |df.rows|
    requires Pad(df.rows[j], h.columns + df.columns).values in Cells(Concat(h, df).rows[..|h.rows|])
    ensures forall r :: r in MergeHistory(df, Some(h)).rows && r.values == Pad(df.rows[j], h.columns + df.columns).values ==>
      r in Concat(h, df).rows[..|h.rows|]
  {
    var c := Concat(h, df);
    MergeHistorySpec(df, Some(h));
    var v := Pad(df.rows[j], h.columns + df.columns).values;
    forall r | r in MergeHistory(df, Some(h)).rows && r.values == v
      ensures r in c.rows[..|h.rows|]
    {
      var i :| 0 <= i < |c.rows| && c.rows[i] == r && IsFirst(c.rows, i);
      var i0 :| 0 <= i0 < |h.rows| && c.rows[..|h.rows|][i0].values == v;
      assert c.rows[i0].values == c.rows[i].values;
      assert i <= i0;
      assert c.rows[..|h.rows|][i] == r;
    }
  }

  /** Two rows at different dates with the same cells collapse to the first one. */
  lemma EqualCellsCollapse()
    ensures
      var v := map[GoldSpot := Some(2000.0)];
      var d := Frame({GoldSpot}, [Row(2, v)]);
      var h := Frame({GoldSpot}, [Row(1, v)]);
      MergeHistory(d, Some(h)).rows == [Row(1, v)]
  {
    var v := map[GoldSpot := Some(2000.0)];
    var d := Frame({GoldSpot}, [Row(2, v)]);
    var h := Frame({GoldSpot}, [Row(1, v)]);
    var c := Concat(h, d);
    assert Pad(Row(1, v), {GoldSpot}) == Row(1, v);
    assert Pad(Row(2, v), {GoldSpot}) == Row(2, v);
    assert PadAll(h.rows, {GoldSpot}) == [Row(1, v)];
    assert PadAll(d.rows, {GoldSpot}) == [Row(2, v)];
    assert c.columns == {GoldSpot};
    assert c.rows == [Row(1, v), Row(2, v)];
    assert c.rows[..1] == [Row(1, v)];
    CellsCons(Row(1, v), []);
    assert Cells([]) == {};
    assert DropDuplicates(c.rows) == [Row(1, v)];
  }

  /** Two rows at the same date with different values are both kept, history first. */
  lemma ConflictingValuesBothKept()
    ensures
      var d := Frame({GoldSpot}, [Row(1, map[GoldSpot := Some(2001.0)])]);
      var h := Frame({GoldSpot}, [Row(1, map[GoldSpot := Some(2000.0)])]);
      MergeHistory(d, Some(h)).rows == h.rows + d.rows
  {
    var a := map[GoldSpot := Some(2000.0)];
    var b := map[GoldSpot := Some(2001.0)];
    var d := Frame({GoldSpot}, [Row(1, b)]);
    var h := Frame({GoldSpot}, [Row(1, a)]);
    var c := Concat(h, d);
    assert Pad(Row(1, a), {GoldSpot}) == Row(1, a);
    assert Pad(Row(1, b), {GoldSpot}) == Row(1, b);
    assert PadAll(h.rows, {GoldSpot}) == [Row(1, a)];
    assert PadAll(d.rows, {GoldSpot}) == [Row(1, b)];
    assert c.columns == {GoldSpot};
    assert c.rows == [Row(1, a), Row(1, b)];
    assert c.rows[..1] == [Row(1, a)];
    CellsCons(Row(1, a), []);
    assert Cells([]) == {};
    assert a[GoldSpot] != b[GoldSpot];
    assert DropDuplicates(c.rows) == [Row(1, a), Row(1, b)];
    var two := [Row(1, a), Row(1, b)];
    assert two[..1] == [Row(1, a)];
    assert SortByDate([Row(1, a)]) == [Row(1, a)];
    assert Insert(Row(1, b), [Row(1, a)]) == two;
  }
}
