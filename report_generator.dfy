/**
  The report's computed parts: the score bar, the valuation, momentum and
  central-bank interpretation ladders, and the "N/A" rules for numeric fields.
  Markdown layout and float formatting are not modelled; a formatted number is
  the value it shows.
 */
module Report {
  import opened Wrappers
  import opened Frames
  import opened Snapshot
  import opened CentralBank
  import opened RegimeScorer

  // ---------------------------------------------------------------------------
  // The score bar
  // ---------------------------------------------------------------------------

  const BarWidth := 21
  const Centre := 10
  const Line := '─'
  const CentreMark := '┼'
  const Marker := '█'

  /** Python's `int(x)`: truncation toward zero. */
  function Trunc(x: real): (n: int)
    ensures x >= 0.0 ==> n as real <= x < n as real + 1.0
    ensures x < 0.0 ==> n as real - 1.0 < x <= n as real
  {
    if x >= 0.0 then x.Floor else -((-x).Floor)
  }

  /** `int((score + 5) / 10 * 20)`: the cell the marker is written to, before any bounds check. */
  function MarkerIndex(score: real): int
  {
    Trunc((score + 5.0) / 10.0 * 20.0)
  }

  /** Python list indexing on 21 cells: -21..-1 count from the end, 0..20 from the front. */
  predicate IndexOk(i: int)
  {
    -BarWidth <= i < BarWidth
  }

  function Wrapped(i: int): (k: nat)
    requires IndexOk(i)
    ensures k < BarWidth
    ensures i >= 0 ==> k == i
    ensures i < 0 ==> k == i + BarWidth
  {
    if i < 0 then i + BarWidth else i
  }

  /** The 21 cells with the marker at `pos`; the centre mark shows unless the marker covers it. */
  function BarCells(pos: nat): (b: seq<char>)
    requires pos < BarWidth
    ensures |b| == BarWidth
  {
    seq(BarWidth, k requires 0 <= k < BarWidth => if k == pos then Marker else if k == Centre then CentreMark else Line)
  }

  function Count(s: seq<char>, c: char): nat
  {
    if s == [] then 0 else Count(s[..|s| - 1], c) + (if s[|s| - 1] == c then 1 else 0)
  }

  /**
    `_create_score_bar` as written: a list of 21 lines, the centre mark at 10,
    then the marker at `int((score + 5) / 10 * 20)`.  `None` is the IndexError
    raised when that index is outside the list.
   */
  method CreateScoreBar(score: real) returns (bar: Option<string>)
    ensures bar.Some? <==> IndexOk(MarkerIndex(score))
    ensures bar.Some? ==> bar.value == BarCells(Wrapped(MarkerIndex(score)))
  {
    var position := MarkerIndex(score);
    var cells := new char[BarWidth](_ => Line);
    cells[Centre] := CentreMark;
    if !IndexOk(position) {
      return None;
    }
    cells[Wrapped(position)] := Marker;
    bar := Some(cells[..]);
  }

  /** The marker is the only one of its kind; the centre mark is lost when the marker lands on it. */
  lemma BarMarks(pos: nat)
    requires pos < BarWidth
    ensures Count(BarCells(pos), Marker) == 1
    ensures Count(BarCells(pos), CentreMark) == if pos == Centre then 0 else 1
  {
    var b := BarCells(pos);
    CountPrefix(b, BarWidth, pos);
    assert b[..BarWidth] == b;
  }

  /** Counting over a prefix of a bar: the marker and the centre mark each once at most. */
  lemma {:induction false} CountPrefix(b: seq<char>, n: nat, pos: nat)
    requires pos < BarWidth && b == BarCells(pos) && n <= BarWidth
    ensures Count(b[..n], Marker) == if pos < n then 1 else 0
    ensures Count(b[..n], CentreMark) == if Centre < n && pos != Centre then 1 else 0
  {
    if n > 0 {
      CountPrefix(b, n - 1, pos);
      assert b[..n][..n - 1] == b[..n - 1];
    } else {
      assert b[..0] == [];
    }
  }

  /** The marker index is `int(2 * score + 10)`. */
  lemma MarkerIndexIsTwiceScore(score: real)
    ensures MarkerIndex(score) == Trunc(2.0 * score + 10.0)
  {
    assert (score + 5.0) / 10.0 * 20.0 == 2.0 * score + 10.0;
  }

  /** The index lands on the bar from the front exactly for -5.5 < score < 5.5. */
  lemma MarkerIndexInBar(score: real)
    ensures 0 <= MarkerIndex(score) < BarWidth <==> -5.5 < score < 5.5
  {
    MarkerIndexIsTwiceScore(score);
  }

  /**
    As written, the two extreme scores the scorer can return misbehave: +5.5
    gives index 21 and the bar raises IndexError; -5.5 gives index -1, which
    Python reads as the last cell, so the most bearish score is drawn at the
    bullish end.
   */
  lemma ScoreBarAtExtremes()
    ensures MarkerIndex(5.5) == 21 && !IndexOk(MarkerIndex(5.5))
    ensures MarkerIndex(-5.5) == -1 && IndexOk(MarkerIndex(-5.5)) && Wrapped(MarkerIndex(-5.5)) == BarWidth - 1
  {
    MarkerIndexIsTwiceScore(5.5);
    MarkerIndexIsTwiceScore(-5.5);
  }

  /**
    For every score the scorer returns (a whole number `q` of quarter-points,
    |q| <= 22), the bar as written is drawn unless the score is +5.5, and is
    drawn in the right place unless the score is ±5.5.
   */
  lemma ScoreBarOnReachableScores(q: int)
    requires -22 <= q <= 22
    ensures IndexOk(MarkerIndex(q as real / 4.0)) <==> q != 22
    ensures 0 <= MarkerIndex(q as real / 4.0) < BarWidth <==> -22 < q < 22
  {
    MarkerIndexIsTwiceScore(q as real / 4.0);
    MarkerIndexInBar(q as real / 4.0);
  }

  /** The regime's own score: the bar as written fails exactly when the score is the maximum. */
  lemma ScoreBarForRegime(metrics: Metrics, cb: CbData)
    requires ScorerInput(metrics)
    ensures IndexOk(MarkerIndex(TotalWeight(Signals(metrics, cb)) as real / 4.0))
      <==> TotalWeight(Signals(metrics, cb)) != 22
  {
    ScoreWithinBounds(metrics, cb);
    ScoreBarOnReachableScores(TotalWeight(Signals(metrics, cb)));
  }

  /** The marker cell clamped to the bar: the evidently intended position. */
  function ClampedIndex(score: real): (k: nat)
    ensures k < BarWidth
    ensures 0 <= MarkerIndex(score) < BarWidth ==> k == MarkerIndex(score)
    ensures MarkerIndex(score) < 0 ==> k == 0
    ensures MarkerIndex(score) >= BarWidth ==> k == BarWidth - 1
  {
    var i := MarkerIndex(score);
    if i < 0 then 0 else if i >= BarWidth then BarWidth - 1 else i
  }

  /** The score bar with the marker clamped to the 21 cells; it never fails. */
  method CreateScoreBarClamped(score: real) returns (bar: string)
    ensures bar == BarCells(ClampedIndex(score))
  {
    var cells := new char[BarWidth](_ => Line);
    cells[Centre] := CentreMark;
    cells[ClampedIndex(score)] := Marker;
    bar := cells[..];
  }

  /**
    The clamped marker moves right as the score grows, sits left of centre for
    a negative score, right of it from +0.5, and at the ends for ±5.5.
   */
  lemma ClampedIndexOrdered(s1: real, s2: real)
    requires s1 <= s2
    ensures ClampedIndex(s1) <= ClampedIndex(s2)
  {
    MarkerIndexIsTwiceScore(s1);
    MarkerIndexIsTwiceScore(s2);
  }

  lemma ClampedIndexSides(score: real)
    ensures score < 0.0 ==> ClampedIndex(score) < Centre
    ensures 0.0 <= score < 0.5 ==> ClampedIndex(score) == Centre
    ensures score >= 0.5 ==> ClampedIndex(score) > Centre
    ensures score <= -5.0 ==> ClampedIndex(score) == 0
    ensures score >= 5.0 ==> ClampedIndex(score) == BarWidth - 1
  {
    MarkerIndexIsTwiceScore(score);
  }

  // ---------------------------------------------------------------------------
  // Numeric fields and "N/A"
  // ---------------------------------------------------------------------------

  /** A metric a numeric field may show: a number, NaN or None. */
  predicate Numeric(metrics: Metrics, key: Key)
  {
    key in metrics ==> metrics[key].Number? || metrics[key].NaN? || metrics[key].Null?
  }

  /** `fmt_num`: the value shown, or `None` for "N/A" when the metric is missing, None or NaN. */
  function FmtNum(metrics: Metrics, key: Key): (shown: Option<real>)
    requires Numeric(metrics, key)
    ensures shown.None? <==> key !in metrics || !metrics[key].Number?
    ensures shown.Some? ==> shown.value == metrics[key].x
  {
    if key in metrics && metrics[key].Number? then Some(metrics[key].x) else None
  }

  /** A percentage as `fmt_pct` writes it: a sign and the value times 100. */
  datatype Percent = Percent(sign: string, hundredths: real)

  /** `fmt_pct`: "N/A" as `fmt_num`; otherwise '+' for a non-negative value and the value in percent. */
  function FmtPct(metrics: Metrics, key: Key): (shown: Option<Percent>)
    requires Numeric(metrics, key)
    ensures shown.None? <==> FmtNum(metrics, key).None?
    ensures shown.Some? ==> shown.value.hundredths / 100.0 == FmtNum(metrics, key).value
    ensures shown.Some? ==> (shown.value.sign == "+" <==> FmtNum(metrics, key).value >= 0.0)
    ensures shown.Some? ==> shown.value.sign == "+" || shown.value.sign == ""
  {
    match FmtNum(metrics, key)
    case None => None
    case Some(x) => Some(Percent(if x >= 0.0 then "+" else "", x * 100.0))
  }

  /**
    The z-score line as written: `fmt_num(...) if metrics.get('real_gold_zscore')
    else 'N/A'`.  The guard is Python truthiness, under which a z-score of
    exactly 0.0 is false.
   */
  function ZScoreLine(metrics: Metrics): (shown: Option<real>)
    requires Numeric(metrics, RealGoldZScore)
    ensures shown.Some? ==> FmtNum(metrics, RealGoldZScore) == shown
  {
    if RealGoldZScore in metrics && Truthy(metrics[RealGoldZScore]) then FmtNum(metrics, RealGoldZScore) else None
  }

  /** Python truthiness of a stored metric: None and 0.0 are false, NaN is true. */
  predicate Truthy(v: MetricValue)
  {
    match v
    case Number(x) => x != 0.0
    case NaN => true
    case Null => false
    case Note(t) => t != []
    case SeriesValue(s) => s != []
  }

  /** A defined z-score of exactly 0.0 is shown as "N/A", although `fmt_num` would show it. */
  lemma ZeroZScoreHidden()
    ensures var m := map[RealGoldZScore := Number(0.0)];
      && FmtNum(m, RealGoldZScore) == Some(0.0)
      && ZScoreLine(m).None?
  {
  }

  /** The z-score line with the truthiness guard replaced by the `fmt_num` rule. */
  function ZScoreLineCorrected(metrics: Metrics): (shown: Option<real>)
    requires Numeric(metrics, RealGoldZScore)
    ensures shown.None? <==> RealGoldZScore !in metrics || !metrics[RealGoldZScore].Number?
    ensures shown.Some? ==> shown.value == metrics[RealGoldZScore].x
  {
    FmtNum(metrics, RealGoldZScore)
  }

  /** The two agree everywhere except on a z-score of exactly 0.0. */
  lemma ZScoreLinesAgree(metrics: Metrics)
    requires Numeric(metrics, RealGoldZScore)
    ensures ZScoreLine(metrics) != ZScoreLineCorrected(metrics)
      <==> RealGoldZScore in metrics && metrics[RealGoldZScore] == Number(0.0)
  {
  }

  // ---------------------------------------------------------------------------
  // Interpretation ladders
  // ---------------------------------------------------------------------------

  /** The valuation line's five readings. */
  datatype Valuation = SignificantlyOvervalued | ModeratelyOvervalued | UndervaluedVs5Y | FairValue | InsufficientHistory

  /** The valuation ladder of the metrics section. */
  function ValuationOf(metrics: Metrics): (v: Valuation)
    requires Numeric(metrics, RealGoldZScore)
  {
    match FmtNum(metrics, RealGoldZScore)
    case None => InsufficientHistory
    case Some(z) =>
      if z > 1.5 then SignificantlyOvervalued
      else if z > 1.0 then ModeratelyOvervalued
      else if z < -1.0 then UndervaluedVs5Y
      else FairValue
  }

  function ValuationText(v: Valuation): string
  {
    match v
    case SignificantlyOvervalued => "⚠️ Significantly overvalued vs 5Y average"
    case ModeratelyOvervalued => "⚠️ Moderately overvalued vs 5Y average"
    case UndervaluedVs5Y => "💡 Undervalued vs 5Y average"
    case FairValue => "Fair value range"
    case InsufficientHistory => "Insufficient history for z-score"
  }

  /**
    The report's valuation reading and the scorer's valuation entry use the
    same cuts: each scorer entry has its own reading, and no entry means "fair
    value" for a number and "insufficient history" otherwise.
   */
  lemma ValuationMatchesScorer(metrics: Metrics)
    requires Numeric(metrics, RealGoldZScore)
    ensures ValuationSignal(metrics) == Some(Overvalued) <==> ValuationOf(metrics) == SignificantlyOvervalued
    ensures ValuationSignal(metrics) == Some(ElevatedValuation) <==> ValuationOf(metrics) == ModeratelyOvervalued
    ensures ValuationSignal(metrics) == Some(Undervalued) <==> ValuationOf(metrics) == UndervaluedVs5Y
    ensures ValuationSignal(metrics).None? && FmtNum(metrics, RealGoldZScore).Some?
      <==> ValuationOf(metrics) == FairValue
    ensures FmtNum(metrics, RealGoldZScore).None? <==> ValuationOf(metrics) == InsufficientHistory
  {
  }

  /** A momentum reading the interpretation line can compare: `None` would raise. */
  predicate Orderable(metrics: Metrics, key: Key)
  {
    Reading(metrics, key).Number? || Reading(metrics, key).NaN?
  }

  /** `metrics.get(key, 0) < 0`: false for a missing key and for NaN. */
  predicate Falling(metrics: Metrics, key: Key)
    requires Orderable(metrics, key)
  {
    Reading(metrics, key).Number? && Reading(metrics, key).x < 0.0
  }

  function RealYieldText(metrics: Metrics): (text: string)
    requires Orderable(metrics, RealYieldKey)
  {
    if Falling(metrics, RealYieldKey) then "Falling real yields = bullish for gold"
    else "Rising real yields = bearish for gold"
  }

  function DollarText(metrics: Metrics): (text: string)
    requires Orderable(metrics, UsdKey)
  {
    if Falling(metrics, UsdKey) then "Weakening USD = bullish for gold"
    else "Strengthening USD = bearish for gold"
  }

  /**
    The momentum lines say "bullish" (the falling / weakening text) exactly when the scorer gives that ladder
    a positive weight; a flat, missing or NaN reading, which the scorer calls
    stable, is described as rising.
   */
  lemma MomentumTextMatchesScorer(metrics: Metrics)
    requires Orderable(metrics, RealYieldKey) && Orderable(metrics, UsdKey)
    ensures ScorerInput(metrics)
    ensures Falling(metrics, RealYieldKey) <==> Weight(RealYieldSignal(Reading(metrics, RealYieldKey)).value) > 0
    ensures Falling(metrics, UsdKey) <==> Weight(UsdSignal(Reading(metrics, UsdKey)).value) > 0
  {
  }

  /** `'Elevated risk (VIX >20)' if metrics.get('vix_current', 0) > 20`. */
  function RiskText(metrics: Metrics): (text: string)
    requires Orderable(metrics, CurrentOf(Vix))
    ensures text == "Elevated risk (VIX >20)"
      <==> Reading(metrics, CurrentOf(Vix)).Number? && Reading(metrics, CurrentOf(Vix)).x > 20.0
  {
    var v := Reading(metrics, CurrentOf(Vix));
    if v.Number? && v.x > 20.0 then "Elevated risk (VIX >20)" else "Normal risk levels"
  }

  /** The central-bank text: > 250 strong, > 100 moderate, > 0 weak, otherwise net selling. */
  function CbText(tonnes: real): (text: string)
  {
    if tonnes > 250.0 then "Strong structural buying"
    else if tonnes > 100.0 then "Moderate buying"
    else if tonnes > 0.0 then "Weak buying"
    else "Net selling"
  }

  /**
    For a current row the report's text follows the scorer's entry, except
    that zero tonnes reads as net selling here and as weak buying there.
   */
  lemma CbTextMatchesScorer(cb: CbData)
    requires cb.Latest? && cb.status == Current && !cb.isStale
    ensures CbSignal(cb) == StrongCbBuying <==> CbText(cb.tonnes) == "Strong structural buying"
    ensures CbSignal(cb) == ModerateCbBuying <==> CbText(cb.tonnes) == "Moderate buying"
    ensures CbSignal(cb) == CbSelling ==> CbText(cb.tonnes) == "Net selling"
    ensures CbText(cb.tonnes) == "Net selling" && CbSignal(cb) != CbSelling <==> cb.tonnes == 0.0
    ensures CbText(cb.tonnes) == "Weak buying" ==> CbSignal(cb) == WeakCbBuying
  {
  }

  // ---------------------------------------------------------------------------
  // The central-bank section
  // ---------------------------------------------------------------------------

  /** What the central-bank section shows. */
  datatype CbView =
    | NoData(message: string)
    | LoadError(error: string)
    | DataView(quarter: string, tonnes: real, source: string, validatedDay: Option<int>,
               staleDays: Option<int>, interpretation: string)

  const InitHint := "Initialize data with: python scripts/manual_cb_update.py --init"

  /**
    `_build_cb_section`: 'missing' and 'error' get their own notices; every
    other status, including 'empty', falls through to the data view, whose
    absent fields read as "N/A" and 0 tonnes.
   */
  function CbSection(cb: CbData): (v: CbView)
    ensures v.NoData? <==> cb.status == Missing
    ensures v.LoadError? <==> cb.status == Error
    ensures v.DataView? ==> v.interpretation == CbText(v.tonnes)
    ensures v.DataView? && cb.Latest? ==>
      v.quarter == cb.quarter && v.tonnes == cb.tonnes && v.source == cb.source
      && (v.staleDays.Some? <==> cb.isStale)
  {
    if cb.status == Missing then
      NoData(if cb.Unavailable? && cb.message.Some? then cb.message.value else InitHint)
    else if cb.status == Error then
      LoadError(if cb.Unavailable? then cb.error else "Unknown error")
    else if cb.Latest? then
      DataView(cb.quarter, cb.tonnes, cb.source, Some(cb.validatedDay),
               if cb.isStale then Some(cb.daysOld) else None, CbText(cb.tonnes))
    else
      DataView("N/A", 0.0, "N/A", None, None, CbText(0.0))
  }

  /**
    An empty table is not reported as missing: the section shows the data view
    with "N/A" fields and zero tonnes described as net selling, while the
    scorer records "CB data missing".
   */
  lemma EmptyTableSection(today: int)
    ensures CbSection(LatestData(Rows([]), today)) == DataView("N/A", 0.0, "N/A", None, None, "Net selling")
    ensures CbSignal(LatestData(Rows([]), today)) == CbDataMissing
  {
  }

  /** A missing file shows the monitor's hint; an unreadable one shows its error. */
  lemma UnavailableSections(e: string, today: int)
    ensures CbSection(LatestData(NoFile, today)) == NoData("Run: python scripts/manual_cb_update.py --init")
    ensures CbSection(LatestData(Unreadable(e), today)) == LoadError(e)
  {
  }
}
