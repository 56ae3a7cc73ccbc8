/**
  The central-bank side of the monitor: recognising quarterly report links,
  remembering which quarters have been announced, and reading the latest row
  of the hand-maintained quarterly table with its freshness.
 */
module CentralBank {
  import opened Wrappers

  // ---------------------------------------------------------------------------
  // The link-text pattern Q([1-4])[\s\-']+(\d{2,4}), case-insensitive
  // ---------------------------------------------------------------------------

  /** `\s` for a text pattern: the characters Python counts as whitespace. */
  predicate IsSpace(c: char)
  {
    || c == ' ' || '\t' <= c <= '\r' || '\U{1C}' <= c <= '\U{1F}'
    || c == '\U{85}' || c == '\U{A0}' || c == '\U{1680}' || '\U{2000}' <= c <= '\U{200A}'
    || c == '\U{2028}' || c == '\U{2029}' || c == '\U{202F}' || c == '\U{205F}' || c == '\U{3000}'
  }

  /** The separator class `[\s\-']`. */
  predicate IsSeparator(c: char)
  {
    IsSpace(c) || c == '-' || c == '\''
  }

  /** `\d`, restricted to the ASCII digits. */
  predicate IsDigit(c: char)
  {
    '0' <= c <= '9'
  }

  predicate AllDigits(s: string)
  {
    forall k :: 0 <= k < |s| ==> IsDigit(s[k])
  }

  /** The length of the longest run of separators starting at i. */
  function SeparatorRun(s: string, i: nat): (n: nat)
    requires i <= |s|
    ensures i + n <= |s|
    ensures forall k :: i <= k < i + n ==> IsSeparator(s[k])
    ensures i + n < |s| ==> !IsSeparator(s[i + n])
    decreases |s| - i
  {
    if i < |s| && IsSeparator(s[i]) then 1 + SeparatorRun(s, i + 1) else 0
  }

  /** The length of the longest run of digits starting at i. */
  function DigitRun(s: string, i: nat): (n: nat)
    requires i <= |s|
    ensures i + n <= |s|
    ensures forall k :: i <= k < i + n ==> IsDigit(s[k])
    ensures i + n < |s| ==> !IsDigit(s[i + n])
    decreases |s| - i
  {
    if i < |s| && IsDigit(s[i]) then 1 + DigitRun(s, i + 1) else 0
  }

  /** The two groups of a match: the quarter digit and the year digits. */
  datatype QuarterMatch = QuarterMatch(quarter: char, year: string)

  /**
    The pattern anchored at position i.  The separator and digit classes are
    disjoint, so the greedy separator run never gives characters back and the
    year takes as many digits as follow, up to four.
   */
  function MatchAt(s: string, i: nat): (m: Option<QuarterMatch>)
    requires i <= |s|
    ensures m.Some? ==> '1' <= m.value.quarter <= '4' && 2 <= |m.value.year| <= 4 && AllDigits(m.value.year)
    ensures m.Some? ==> i + 2 <= |s| && (s[i] == 'Q' || s[i] == 'q') && m.value.quarter == s[i + 1]
  {
    if i + 2 <= |s| && (s[i] == 'Q' || s[i] == 'q') && '1' <= s[i + 1] <= '4' then
      var sep := SeparatorRun(s, i + 2);
      var start := i + 2 + sep;
      var digits := DigitRun(s, start);
      if sep == 0 || digits < 2 then None
      else Some(QuarterMatch(s[i + 1], s[start..start + (if digits < 4 then digits else 4)]))
    else None
  }

  /**
    A match's year is the text right after the separator run: the whole digit
    run there, cut to four digits.
   */
  lemma MatchAtYear(s: string, i: nat)
    requires i <= |s| && MatchAt(s, i).Some?
    ensures i + 2 <= |s|
    ensures
      var start := i + 2 + SeparatorRun(s, i + 2);
      var n := DigitRun(s, start);
      && SeparatorRun(s, i + 2) > 0 && n >= 2
      && |MatchAt(s, i).value.year| == (if n < 4 then n else 4)
      && MatchAt(s, i).value.year == s[start..start + |MatchAt(s, i).value.year|]
  {
  }

  /** A run of k separators from j is consumed in full. */
  lemma {:induction false} SeparatorRunCovers(s: string, j: nat, k: nat)
    requires j + k <= |s|
    requires forall t :: j <= t < j + k ==> IsSeparator(s[t])
    ensures SeparatorRun(s, j) >= k
    decreases k
  {
    if k > 0 {
      SeparatorRunCovers(s, j + 1, k - 1);
    }
  }

  /** A run of n digits from j is consumed in full. */
  lemma {:induction false} DigitRunCovers(s: string, j: nat, n: nat)
    requires j + n <= |s|
    requires forall t :: j <= t < j + n ==> IsDigit(s[t])
    ensures DigitRun(s, j) >= n
    decreases n
  {
    if n > 0 {
      DigitRunCovers(s, j + 1, n - 1);
    }
  }

  /**
    Text of the pattern's shape at i does match: `Q` or `q`, a digit 1-4, k >= 1
    separators and n >= 2 digits.  The separator run is exactly those k
    characters, so the year starts right after them and has at least
    min(n, 4) digits.
   */
  lemma MatchAtComplete(s: string, i: nat, k: nat, n: nat)
    requires i + 2 + k + n <= |s|
    requires (s[i] == 'Q' || s[i] == 'q') && '1' <= s[i + 1] <= '4'
    requires k >= 1 && n >= 2
    requires forall t :: i + 2 <= t < i + 2 + k ==> IsSeparator(s[t])
    requires forall t :: i + 2 + k <= t < i + 2 + k + n ==> IsDigit(s[t])
    ensures MatchAt(s, i).Some?
    ensures SeparatorRun(s, i + 2) == k
    ensures |MatchAt(s, i).value.year| >= (if n < 4 then n else 4)
  {
    SeparatorRunCovers(s, i + 2, k);
    assert IsDigit(s[i + 2 + k]);
    assert !IsSeparator(s[i + 2 + k]);
    DigitRunCovers(s, i + 2 + k, n);
  }

  /** `re.search`: the leftmost position from i on where the pattern matches. */
  function SearchFrom(s: string, i: nat): (pos: Option<nat>)
    requires i <= |s|
    ensures pos.Some? ==> i <= pos.value <= |s| && MatchAt(s, pos.value).Some?
    ensures pos.Some? ==> forall k :: i <= k < pos.value ==> MatchAt(s, k).None?
    ensures pos.None? ==> forall k :: i <= k <= |s| ==> MatchAt(s, k).None?
    decreases |s| - i
  {
    if MatchAt(s, i).Some? then Some(i)
    else if i == |s| then None
    else SearchFrom(s, i + 1)
  }

  /** `Q<n>_<year>` with n in 1..4 and a year of three or four digits. */
  predicate IsQuarterLabel(q: string)
  {
    && (|q| == 6 || |q| == 7)
    && q[0] == 'Q' && '1' <= q[1] <= '4' && q[2] == '_'
    && AllDigits(q[3..])
  }

  /**
    The quarter label of a link text, `Q<n>_<year>`, where a two-digit year is
    prefixed with "20" and a three- or four-digit year is kept as it is; the
    leading `Q` is upper case whatever the case in the text.
   */
  function NormalizeQuarter(text: string): (q: Option<string>)
    ensures q.Some? <==> SearchFrom(text, 0).Some?
    ensures q.Some? ==> IsQuarterLabel(q.value)
    ensures q.Some? ==>
      var m := MatchAt(text, SearchFrom(text, 0).value).value;
      && q.value[..3] == ['Q', m.quarter, '_']
      && q.value[3..] == (if |m.year| == 2 then "20" + m.year else m.year)
  {
    var pos := SearchFrom(text, 0);
    if pos.None? then None
    else
      var m := MatchAt(text, pos.value).value;
      var year := if |m.year| == 2 then "20" + m.year else m.year;
      Some(['Q', m.quarter, '_'] + year)
  }

  /**
    The label is read off the link text: `Q`, the quarter digit at the leftmost
    match, `_`, then the digit run after the separators cut to four digits,
    with "20" before a two-digit year.
   */
  lemma NormalizeQuarterReadsText(text: string, p: nat)
    requires SearchFrom(text, 0) == Some(p)
    ensures p + 2 <= |text|
    ensures
      var start := p + 2 + SeparatorRun(text, p + 2);
      var n := DigitRun(text, start);
      var y := text[start..start + (if n < 4 then n else 4)];
      NormalizeQuarter(text) == Some(['Q', text[p + 1], '_'] + (if |y| == 2 then "20" + y else y))
  {
    MatchAtYear(text, p);
  }

  lemma NormalizeSpaceSeparated()
    ensures NormalizeQuarter("Q3 2025") == Some("Q3_2025")
  {
    var t := "Q3 2025";
    assert SeparatorRun(t, 2) == 1 && DigitRun(t, 3) == 4;
    assert t[3..7] == "2025";
    assert MatchAt(t, 0) == Some(QuarterMatch('3', "2025"));
    assert SearchFrom(t, 0) == Some(0);
    assert ['Q', '3', '_'] + "2025" == "Q3_2025";
  }

  lemma NormalizeHyphenSeparated()
    ensures NormalizeQuarter("Q1-2025") == Some("Q1_2025")
  {
    var t := "Q1-2025";
    assert SeparatorRun(t, 2) == 1 && DigitRun(t, 3) == 4;
    assert t[3..7] == "2025";
    assert MatchAt(t, 0) == Some(QuarterMatch('1', "2025"));
    assert SearchFrom(t, 0) == Some(0);
    assert ['Q', '1', '_'] + "2025" == "Q1_2025";
  }

  /** A two-digit year is read as 20xx. */
  lemma NormalizeTwoDigitYear()
    ensures NormalizeQuarter("Q4'24") == Some("Q4_2024")
  {
    var t := "Q4'24";
    assert SeparatorRun(t, 2) == 1 && DigitRun(t, 3) == 2;
    assert t[3..5] == "24";
    assert MatchAt(t, 0) == Some(QuarterMatch('4', "24"));
    assert SearchFrom(t, 0) == Some(0);
    assert ['Q', '4', '_'] + ("20" + "24") == "Q4_2024";
  }

  /** A three-digit year is kept verbatim. */
  lemma NormalizeThreeDigitYear()
    ensures NormalizeQuarter("Q3 202") == Some("Q3_202")
  {
    var t := "Q3 202";
    assert SeparatorRun(t, 2) == 1 && DigitRun(t, 3) == 3;
    assert t[3..6] == "202";
    assert MatchAt(t, 0) == Some(QuarterMatch('3', "202"));
    assert SearchFrom(t, 0) == Some(0);
    assert ['Q', '3', '_'] + "202" == "Q3_202";
  }

  /** The label may sit inside longer text and the `q` may be lower case; the label's `Q` is upper case. */
  lemma NormalizeInsideText()
    ensures NormalizeQuarter("GDT q2 24") == Some("Q2_2024")
  {
    var t := "GDT q2 24";
    assert MatchAt(t, 0).None? && MatchAt(t, 1).None? && MatchAt(t, 2).None? && MatchAt(t, 3).None?;
    assert SeparatorRun(t, 6) == 1 && DigitRun(t, 7) == 2;
    assert t[7..9] == "24";
    assert MatchAt(t, 4) == Some(QuarterMatch('2', "24"));
    assert SearchFrom(t, 0) == Some(4);
    assert ['Q', '2', '_'] + ("20" + "24") == "Q2_2024";
  }

  /** Quarter 5 and an underscore separator are not recognised. */
  lemma NormalizeRejects()
    ensures NormalizeQuarter("Q5 25") == None
    ensures NormalizeQuarter("Q3_25") == None
  {
    var a := "Q5 25";
    assert forall k :: 0 <= k <= |a| ==> MatchAt(a, k).None?;
    var b := "Q3_25";
    assert SeparatorRun(b, 2) == 0;
    assert forall k :: 0 <= k <= |b| ==> MatchAt(b, k).None?;
  }

  // ---------------------------------------------------------------------------
  // check_for_new_report: the first unseen quarter
  // ---------------------------------------------------------------------------

  /** Only the first five report links are examined. */
  const LinksExamined: nat := 5

  /** The quarter labels found in the link texts, in link order; texts without a label are skipped. */
  function FoundQuarters(texts: seq<string>): (found: seq<string>)
    ensures |found| <= |texts|
    ensures forall k :: 0 <= k < |found| ==> IsQuarterLabel(found[k])
  {
    if texts == [] then []
    else
      var rest := FoundQuarters(texts[..|texts| - 1]);
      var q := NormalizeQuarter(texts[|texts| - 1]);
      if q.Some? then rest + [q.value] else rest
  }

  /** The first found quarter not yet checked; `None` when every found quarter has been checked. */
  function FirstUnseen(found: seq<string>, checked: seq<string>): (r: Option<string>)
    ensures r.Some? ==> r.value in found && r.value !in checked
    ensures r.None? <==> forall q :: q in found ==> q in checked
  {
    if found == [] then None
    else if found[0] !in checked then Some(found[0])
    else FirstUnseen(found[1..], checked)
  }

  /** Every quarter found before the selected one had been checked already. */
  lemma {:induction false} FirstUnseenIsFirst(found: seq<string>, checked: seq<string>)
    requires FirstUnseen(found, checked).Some?
    ensures exists i :: (0 <= i < |found| && found[i] == FirstUnseen(found, checked).value
      && forall j :: 0 <= j < i ==> found[j] in checked)
  {
    if found[0] in checked {
      var r := FirstUnseen(found[1..], checked);
      FirstUnseenIsFirst(found[1..], checked);
      var i :| 0 <= i < |found[1..]| && found[1..][i] == r.value && forall j :: 0 <= j < i ==> found[1..][j] in checked;
      assert found[i + 1] == r.value;
      assert forall j :: 0 < j < i + 1 ==> found[j] == found[1..][j - 1];
    } else {
      assert found[0] == FirstUnseen(found, checked).value;
    }
  }

  /**
    A quarter returned once is recorded, and the record only grows by
    appending, so no later check, against any record extending that one,
    returns it again.
   */
  lemma NeverAnnouncedTwice(found: seq<string>, checked: seq<string>, later: seq<string>, laterChecked: seq<string>)
    requires FirstUnseen(found, checked).Some?
    requires checked + [FirstUnseen(found, checked).value] <= laterChecked
    ensures FirstUnseen(later, laterChecked) != FirstUnseen(found, checked)
  {
    var q := FirstUnseen(found, checked).value;
    assert laterChecked[|checked|] == q;
  }

  /** The loop collecting the labels of the examined links, in link order. */
  method FindQuarters(links: seq<string>) returns (found: seq<string>)
    ensures found == FoundQuarters(links)
  {
    found := [];
    var i := 0;
    while i < |links|
      invariant 0 <= i <= |links|
      invariant found == FoundQuarters(links[..i])
    {
      assert links[..i + 1][..i] == links[..i];
      assert links[..i + 1][i] == links[i];
      var q := NormalizeQuarter(links[i]);
      if q.Some? {
        found := found + [q.value];
      }
      i := i + 1;
    }
    assert links[..i] == links;
  }

  /** The monitor's persisted state: the quarters already announced. */
  class CentralBankMonitor {
    var checkedQuarters: seq<string>

    constructor(checkedQuarters: seq<string>)
      ensures this.checkedQuarters == checkedQuarters
    {
      this.checkedQuarters := checkedQuarters;
    }

    /**
      One check of the reports page, given the link texts it lists (`None` when
      the page could not be fetched).  At most one quarter is announced: the
      first one found among the first five links that is not yet recorded;
      it is appended to the record before it is returned.
     */
    method CheckForNewReport(page: Option<seq<string>>) returns (quarter: Option<string>)
      modifies this
      ensures page.None? ==> quarter.None?
      ensures page.Some? ==>
        var links := if |page.value| <= LinksExamined then page.value else page.value[..LinksExamined];
        quarter == FirstUnseen(FoundQuarters(links), old(checkedQuarters))
      ensures checkedQuarters == old(checkedQuarters) + (if quarter.Some? then [quarter.value] else [])
    {
      if page.None? {
        return None;
      }
      var n := if |page.value| <= LinksExamined then |page.value| else LinksExamined;
      var found := FindQuarters(page.value[..n]);
      assert page.value[..n] == if |page.value| <= LinksExamined then page.value else page.value[..LinksExamined];

      var j := 0;
      while j < |found|
        invariant 0 <= j <= |found|
        invariant checkedQuarters == old(checkedQuarters)
        invariant FirstUnseen(found, checkedQuarters) == FirstUnseen(found[j..], checkedQuarters)
      {
        assert found[j..][0] == found[j];
        if found[j] !in checkedQuarters {
          checkedQuarters := checkedQuarters + [found[j]];
          return Some(found[j]);
        }
        assert found[j..][1..] == found[j + 1..];
        j := j + 1;
      }
      assert found[j..] == [];
      return None;
    }
  }

  // ---------------------------------------------------------------------------
  // get_latest_data: status and freshness
  // ---------------------------------------------------------------------------

  /** One row of the quarterly table; the validation date is a day number. */
  datatype CbRow = CbRow(quarter: string, tonnes: real, source: string, validatedDay: int)

  /** What reading the table file gives: no file, a failure with its message, or the rows in file order. */
  datatype CbFile = NoFile | Unreadable(error: string) | Rows(rows: seq<CbRow>)

  datatype Status = Missing | Empty | Current | Stale | Error

  /** The dictionary `get_latest_data` returns. */
  datatype CbData =
    | Unavailable(status: Status, error: string, message: Option<string>)
    | Latest(
        quarter: string, tonnes: real, source: string, validatedDay: int,
        daysOld: int, isStale: bool, status: Status, allQuarters: seq<CbRow>)

  /** Data older than this many days is stale. */
  const StaleAfterDays: int := 90

  /**
    The latest row of the table with its age on day `today`.  "Latest" is the
    last row in file order, whatever its quarter.
   */
  function LatestData(file: CbFile, today: int): (d: CbData)
    ensures d.status == Missing <==> file.NoFile?
    ensures d.status == Error <==> file.Unreadable?
    ensures d.status == Empty <==> file.Rows? && file.rows == []
    ensures d.Latest? <==> file.Rows? && file.rows != []
    ensures file.Unreadable? ==> d.error == file.error
    ensures d.Latest? ==>
      var last := file.rows[|file.rows| - 1];
      && d.quarter == last.quarter && d.tonnes == last.tonnes && d.source == last.source
      && d.validatedDay == last.validatedDay && d.allQuarters == file.rows
      && d.daysOld == today - last.validatedDay
      && (d.isStale <==> d.daysOld > StaleAfterDays)
      && (d.status == Stale <==> d.isStale)
      && (d.status == Current <==> !d.isStale)
  {
    match file
    case NoFile =>
      Unavailable(Missing, "CB data file not found", Some("Run: python scripts/manual_cb_update.py --init"))
    case Unreadable(e) =>
      Unavailable(Error, e, None)
    case Rows(rows) =>
      if rows == [] then Unavailable(Empty, "CB data file is empty", None)
      else
        var last := rows[|rows| - 1];
        var daysOld := today - last.validatedDay;
        Latest(last.quarter, last.tonnes, last.source, last.validatedDay,
               daysOld, daysOld > StaleAfterDays, if daysOld > StaleAfterDays then Stale else Current, rows)
  }

  /** Ninety days old is still current; ninety-one is stale. */
  lemma FreshnessBoundary(rows: seq<CbRow>, today: int)
    requires rows != []
    ensures today - rows[|rows| - 1].validatedDay == 90 ==> LatestData(Rows(rows), today).status == Current
    ensures today - rows[|rows| - 1].validatedDay == 91 ==> LatestData(Rows(rows), today).status == Stale
  {
  }

  /** The last row wins even when an earlier row holds a later quarter. */
  lemma LatestIsLastRow()
    ensures
      var rows := [CbRow("Q3_2025", 220.0, "WGC", 100), CbRow("Q1_2025", 244.0, "WGC", 50)];
      LatestData(Rows(rows), 120).quarter == "Q1_2025"
  {
  }
}
