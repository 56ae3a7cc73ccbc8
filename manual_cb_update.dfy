/**
  The manual central-bank update: the quarter-format check on the typed
  quarter, and the upsert that removes an existing quarter on request and
  appends the new row last.  The answers to the prompts, the parsed tonnes and
  the day of the update are parameters; the table is the file as read.
 */
module ManualUpdate {
  import opened Wrappers
  import opened CentralBank

  // ---------------------------------------------------------------------------
  // Answers
  // ---------------------------------------------------------------------------

  /** `str.strip()`: leading and trailing whitespace removed. */
  function Strip(s: string): (t: string)
    ensures |t| <= |s|
    ensures t != [] ==> !IsSpace(t[0]) && !IsSpace(t[|t| - 1])
    ensures t == [] ==> forall k :: 0 <= k < |s| ==> IsSpace(s[k])
    ensures s != [] && !IsSpace(s[0]) && !IsSpace(s[|s| - 1]) ==> t == s
  {
    if s == [] then s
    else if IsSpace(s[0]) then Strip(s[1..])
    else if IsSpace(s[|s| - 1]) then Strip(s[..|s| - 1])
    else s
  }

  /** t is the infix s[a..b] of s, with only whitespace before a and from b on. */
  predicate InnerPart(s: string, t: string)
  {
    exists a, b :: 0 <= a <= b <= |s| && t == s[a..b]
      && (forall k :: 0 <= k < a ==> IsSpace(s[k])) && (forall k :: b <= k < |s| ==> IsSpace(s[k]))
  }

  /** Only outer whitespace goes: the result is the text between the outer whitespace runs. */
  lemma {:induction false} StripIsInfix(s: string)
    ensures InnerPart(s, Strip(s))
  {
    if s == [] {
      assert Strip(s) == s[0..0];
    } else if IsSpace(s[0]) {
      StripIsInfix(s[1..]);
      InnerPartOfTail(s, Strip(s));
    } else if IsSpace(s[|s| - 1]) {
      StripIsInfix(s[..|s| - 1]);
      InnerPartOfInit(s, Strip(s));
    } else {
      assert Strip(s) == s[0..|s|];
    }
  }

  lemma InnerPartOfTail(s: string, t: string)
    requires s != [] && IsSpace(s[0]) && InnerPart(s[1..], t)
    ensures InnerPart(s, t)
  {
    var r := s[1..];
    var a, b :| 0 <= a <= b <= |r| && t == r[a..b]
      && (forall k :: 0 <= k < a ==> IsSpace(r[k])) && (forall k :: b <= k < |r| ==> IsSpace(r[k]));
    assert t == s[a + 1..b + 1];
    forall k | 0 <= k < a + 1 ensures IsSpace(s[k]) {
      if k > 0 { assert s[k] == r[k - 1]; }
    }
    forall k | b + 1 <= k < |s| ensures IsSpace(s[k]) {
      assert s[k] == r[k - 1];
    }
  }

  lemma InnerPartOfInit(s: string, t: string)
    requires s != [] && IsSpace(s[|s| - 1]) && InnerPart(s[..|s| - 1], t)
    ensures InnerPart(s, t)
  {
    var r := s[..|s| - 1];
    var a, b :| 0 <= a <= b <= |r| && t == r[a..b]
      && (forall k :: 0 <= k < a ==> IsSpace(r[k])) && (forall k :: b <= k < |r| ==> IsSpace(r[k]));
    assert t == s[a..b];
    forall k | 0 <= k < a ensures IsSpace(s[k]) {
      assert s[k] == r[k];
    }
    forall k | b <= k < |s| ensures IsSpace(s[k]) {
      if k < |r| { assert s[k] == r[k]; }
    }
  }

  /** `str.lower()` on ASCII letters; other characters are kept. */
  function Lower(s: string): (t: string)
    ensures |t| == |s|
  {
    seq(|s|, k requires 0 <= k < |s| => if 'A' <= s[k] <= 'Z' then (s[k] as int + 32) as char else s[k])
  }

  /** `answer.strip().lower() == 'y'`. */
  predicate IsYes(answer: string)
  {
    Lower(Strip(answer)) == "y"
  }

  /** Yes is a lone `y` or `Y`, with any whitespace around it. */
  lemma IsYesMeans(answer: string)
    ensures IsYes(answer) <==> Strip(answer) == "y" || Strip(answer) == "Y"
  {
    var t := Strip(answer);
    if IsYes(answer) {
      assert |t| == 1 && Lower(t)[0] == 'y';
    }
    if t == "Y" {
      assert Lower(t) == "y";
    }
    if t == "y" {
      assert Lower(t) == "y";
    }
  }

  // ---------------------------------------------------------------------------
  // The quarter-format check
  // ---------------------------------------------------------------------------

  /**
    `re.match(r'Q[1-4]_\d{4}', quarter)`: anchored at the start only, so any
    text may follow the four digits; the `Q` is case-sensitive.
   */
  predicate IsValidQuarter(q: string)
  {
    && |q| >= 7
    && q[0] == 'Q' && '1' <= q[1] <= '4' && q[2] == '_'
    && AllDigits(q[3..7])
  }

  /** Trailing text is accepted, a lower-case `q`, a fifth quarter and a two-digit year are not. */
  lemma QuarterCheckExamples()
    ensures IsValidQuarter("Q1_2025")
    ensures IsValidQuarter("Q4_2025 final")
    ensures !IsValidQuarter("q1_2025")
    ensures !IsValidQuarter("Q5_2025")
    ensures !IsValidQuarter("Q1_25")
    ensures !IsValidQuarter("Q1-2025")
  {
    assert "Q1_2025"[3..7] == "2025";
    assert "Q4_2025 final"[3..7] == "2025";
  }

  /**
    A label the monitor derives from a link is accepted by the check exactly
    when its year has four digits: a three-digit year ("Q1_202") is kept as it
    is by the monitor but refused here.
   */
  lemma NormalizedQuarterCheck(q: string)
    requires IsQuarterLabel(q)
    ensures IsValidQuarter(q) <==> |q| == 7
  {
    if |q| == 7 {
      assert q[3..7] == q[3..];
    }
  }

  // ---------------------------------------------------------------------------
  // The upsert
  // ---------------------------------------------------------------------------

  /** `df[df['quarter'] != quarter]`: every row of that quarter removed, the rest in order. */
  function RemoveQuarter(rows: seq<CbRow>, quarter: string): (r: seq<CbRow>)
    ensures |r| <= |rows|
    ensures forall k :: 0 <= k < |r| ==> r[k].quarter != quarter
    ensures forall k :: 0 <= k < |rows| && rows[k].quarter != quarter ==> rows[k] in r
    ensures forall k :: 0 <= k < |r| ==> r[k] in rows
  {
    if rows == [] then []
    else
      var rest := RemoveQuarter(rows[..|rows| - 1], quarter);
      var last := rows[|rows| - 1];
      if last.quarter == quarter then rest else rest + [last]
  }

  /** Removing a quarter keeps the other rows in their order: it distributes over concatenation. */
  lemma {:induction false} RemoveQuarterAppend(a: seq<CbRow>, b: seq<CbRow>, quarter: string)
    ensures RemoveQuarter(a + b, quarter) == RemoveQuarter(a, quarter) + RemoveQuarter(b, quarter)
    decreases |b|
  {
    if b == [] {
      assert a + b == a;
    } else {
      var b' := b[..|b| - 1];
      RemoveQuarterAppend(a, b', quarter);
      assert (a + b)[..|a + b| - 1] == a + b';
      assert (a + b)[|a + b| - 1] == b[|b| - 1];
    }
  }

  /** A table without the quarter is left as it is. */
  lemma {:induction false} RemoveAbsentQuarter(rows: seq<CbRow>, quarter: string)
    requires !HasQuarter(rows, quarter)
    ensures RemoveQuarter(rows, quarter) == rows
  {
    if rows != [] {
      RemoveAbsentQuarter(rows[..|rows| - 1], quarter);
    }
  }

  /** `quarter in df['quarter'].values`. */
  predicate HasQuarter(rows: seq<CbRow>, quarter: string)
  {
    exists k :: 0 <= k < |rows| && rows[k].quarter == quarter
  }

  /** How many rows hold the quarter. */
  function CountQuarter(rows: seq<CbRow>, quarter: string): nat
  {
    if rows == [] then 0
    else CountQuarter(rows[..|rows| - 1], quarter) + (if rows[|rows| - 1].quarter == quarter then 1 else 0)
  }

  /** The outcome of the interactive update: the result flag and the table afterwards. */
  datatype Outcome = Outcome(ok: bool, table: CbFile)

  /**
    The update as the answers drive it.  A missing file, a malformed quarter, a
    tonnes answer that is not a number, a confirmation other than yes, a
    declined overwrite or an unreadable file each end it with `False` and the
    file unchanged.  Otherwise the rows of the quarter (if any) are removed and
    the new row, stamped with `today`, is appended last.
   */
  method InteractiveUpdate(
    file: CbFile, quarterAnswer: string, tonnes: Option<real>, sourceAnswer: string,
    confirmAnswer: string, overwriteAnswer: string, today: int)
    returns (outcome: Outcome)
    ensures !outcome.ok ==> outcome.table == file
    ensures outcome.ok <==>
      && !file.NoFile?
      && IsValidQuarter(Strip(quarterAnswer))
      && tonnes.Some?
      && IsYes(confirmAnswer)
      && file.Rows?
      && (HasQuarter(file.rows, Strip(quarterAnswer)) ==> IsYes(overwriteAnswer))
    ensures outcome.ok ==>
      var quarter := Strip(quarterAnswer);
      var source := if Strip(sourceAnswer) == "" then "WGC" else Strip(sourceAnswer);
      outcome.table == Rows(RemoveQuarter(file.rows, quarter) + [CbRow(quarter, tonnes.value, source, today)])
  {
    if file.NoFile? {
      return Outcome(false, file);
    }

    var quarter := Strip(quarterAnswer);
    if !IsValidQuarter(quarter) {
      return Outcome(false, file);
    }

    if tonnes.None? {
      return Outcome(false, file);
    }

    var source := Strip(sourceAnswer);
    if source == "" {
      source := "WGC";
    }

    if !IsYes(confirmAnswer) {
      return Outcome(false, file);
    }

    if !file.Rows? {
      return Outcome(false, file);
    }
    var rows := file.rows;

    if HasQuarter(rows, quarter) {
      if IsYes(overwriteAnswer) {
        rows := RemoveQuarter(rows, quarter);
      } else {
        return Outcome(false, file);
      }
    } else {
      RemoveAbsentQuarter(rows, quarter);
    }

    rows := rows + [CbRow(quarter, tonnes.value, source, today)];
    outcome := Outcome(true, Rows(rows));
  }

  // ---------------------------------------------------------------------------
  // Properties of an accepted update
  // ---------------------------------------------------------------------------

  /** A new quarter is appended: the table grows by one row and keeps its old rows in front. */
  lemma NewQuarterAppends(rows: seq<CbRow>, row: CbRow)
    requires !HasQuarter(rows, row.quarter)
    ensures RemoveQuarter(rows, row.quarter) + [row] == rows + [row]
  {
    RemoveAbsentQuarter(rows, row.quarter);
  }

  /** After an accepted update the quarter appears exactly once, in the last row. */
  lemma QuarterOnceAfterUpdate(rows: seq<CbRow>, row: CbRow)
    ensures CountQuarter(RemoveQuarter(rows, row.quarter) + [row], row.quarter) == 1
  {
    var r := RemoveQuarter(rows, row.quarter) + [row];
    assert r[..|r| - 1] == RemoveQuarter(rows, row.quarter);
    NoneCounted(RemoveQuarter(rows, row.quarter), row.quarter);
  }

  lemma {:induction false} NoneCounted(rows: seq<CbRow>, quarter: string)
    requires forall k :: 0 <= k < |rows| ==> rows[k].quarter != quarter
    ensures CountQuarter(rows, quarter) == 0
  {
    if rows != [] {
      NoneCounted(rows[..|rows| - 1], quarter);
    }
  }

  /**
    The monitor then reports the new row as the latest, current on the day of
    the update, even when an earlier row holds a later quarter.
   */
  lemma UpdatedRowIsLatest(rows: seq<CbRow>, row: CbRow)
    ensures var d := LatestData(Rows(RemoveQuarter(rows, row.quarter) + [row]), row.validatedDay);
      && d.Latest? && d.quarter == row.quarter && d.tonnes == row.tonnes
      && d.daysOld == 0 && d.status == Current
  {
  }

  /** Overwriting a quarter in the middle of the table moves it to the end. */
  lemma OverwriteMovesToEnd()
    ensures
      var q1 := CbRow("Q1_2025", 244.0, "WGC", 10);
      var q2 := CbRow("Q2_2025", 166.0, "WGC", 100);
      RemoveQuarter([q1, q2], "Q1_2025") + [CbRow("Q1_2025", 250.0, "IMF", 120)]
        == [q2, CbRow("Q1_2025", 250.0, "IMF", 120)]
  {
    var q1 := CbRow("Q1_2025", 244.0, "WGC", 10);
    var q2 := CbRow("Q2_2025", 166.0, "WGC", 100);
    assert [q1, q2][..1] == [q1];
    assert [q1][..0] == [];
  }
}
