/**
  The flat metric map assembled by `calculate_all_metrics`: the frame is merged
  with the stored history, the derived series are computed, and for each named
  metric a key is set, set to `None`, or omitted when its value is undefined.
 */
module Snapshot {
  import opened Wrappers
  import opened Frames
  import opened DerivedMetrics
  import opened HistoryMerge

  /** The momentum look-backs, in rows. */
  datatype Period = P30 | P60 | P90

  function Days(p: Period): (d: nat)
    ensures d >= 30
  {
    match p
    case P30 => 30
    case P60 => 60
    case P90 => 90
  }

  /** The keys of the metric map (`<metric>_momentum_<period>`, `<metric>_current`, ...). */
  datatype Key =
    | RealGoldPriceCurrent
    | RealGoldPriceSeries
    | RealGoldZScore
    | RealGoldZScoreNote
    | GoldSpRatioCurrent
    | GoldSpZScore
    | BreakevenCurrent
    | MomentumOf(metric: Column, period: Period)
    | CurrentOf(metric: Column)

  /** A value stored in the map: a float, a float NaN, Python's None, a text note, or a whole series. */
  datatype MetricValue = Number(x: real) | NaN | Null | Note(text: string) | SeriesValue(s: Series)

  type Metrics = map<Key, MetricValue>

  const MomentumMetrics: seq<Column> := [RealYield, Dxy, GoldSpot, Vix, Gpr]
  const MomentumPeriods: seq<Period> := [P30, P60, P90]
  const LatestMetrics: seq<Column> := [RealYield, NominalYield, Dxy, GoldSpot, Sp500, Cpi, Vix, Gpr]

  /** Five years and one year of trading days. */
  const ZWindow: nat := 1260
  const ZMinPeriods: nat := 252

  const InsufficientHistoryNote := "Insufficient history for 5Y z-score"

  /** A cell stored as it is: a NaN cell is stored as NaN, not omitted. */
  function Stored(v: Option<real>): (m: MetricValue)
    ensures m.Number? <==> v.Some?
    ensures m.Number? ==> m.x == v.value
    ensures v.None? ==> m == NaN
  {
    if v.Some? then Number(v.value) else NaN
  }

  function Last(s: Series): Option<real>
    requires |s| > 0
  {
    s[|s| - 1]
  }

  // ---------------------------------------------------------------------------
  // The nested momentum loop
  // ---------------------------------------------------------------------------

  /** The momentum keys the loop sets: one per listed metric present and period whose momentum is defined. */
  ghost predicate MomentumSet(full: Frame, m: Metrics, metrics: seq<Column>, done: nat)
    requires WellFormed(full) && done <= |metrics|
  {
    forall c, p ::
      && (MomentumOf(c, p) in m <==> c in metrics[..done] && c in full.columns && Momentum(Col(full, c), Days(p)).Some?)
      && (MomentumOf(c, p) in m ==> m[MomentumOf(c, p)] == Number(Momentum(Col(full, c), Days(p)).value))
  }

  /** The keys other than momentum keys are as they were. */
  ghost predicate OnlyMomentumChanged(m0: Metrics, m: Metrics)
  {
    forall k: Key :: !k.MomentumOf? ==> (k in m <==> k in m0) && (k in m0 ==> m[k] == m0[k])
  }

  /**
    The loop over the momentum metrics and, for a metric present in the frame,
    over the periods: a key is set exactly when the momentum is defined.
   */
  method AddMomentum(full: Frame, m0: Metrics) returns (m: Metrics)
    requires WellFormed(full)
    requires forall c, p :: MomentumOf(c, p) !in m0
    ensures MomentumSet(full, m, MomentumMetrics, |MomentumMetrics|)
    ensures OnlyMomentumChanged(m0, m)
  {
    m := m0;
    var i := 0;
    while i < |MomentumMetrics|
      invariant 0 <= i <= |MomentumMetrics|
      invariant MomentumSet(full, m, MomentumMetrics, i)
      invariant OnlyMomentumChanged(m0, m)
    {
      var c := MomentumMetrics[i];
      assert MomentumMetrics[..i + 1] == MomentumMetrics[..i] + [c];
      if c in full.columns {
        var j := 0;
        while j < |MomentumPeriods|
          invariant 0 <= j <= |MomentumPeriods|
          invariant OnlyMomentumChanged(m0, m)
          invariant forall c', p ::
            && (MomentumOf(c', p) in m <==>
                  || (c' in MomentumMetrics[..i] && c' in full.columns && Momentum(Col(full, c'), Days(p)).Some?)
                  || (c' == c && p in MomentumPeriods[..j] && Momentum(Col(full, c), Days(p)).Some?))
            && (MomentumOf(c', p) in m ==> m[MomentumOf(c', p)] == Number(Momentum(Col(full, c'), Days(p)).value))
        {
          var p := MomentumPeriods[j];
          assert MomentumPeriods[..j + 1] == MomentumPeriods[..j] + [p];
          var momentum := Momentum(Col(full, c), Days(p));
          if momentum.Some? {
            m := m[MomentumOf(c, p) := Number(momentum.value)];
          }
          j := j + 1;
        }
        assert MomentumPeriods[..j] == MomentumPeriods;
        forall p: Period ensures p in MomentumPeriods {
          if p == P30 {
            assert MomentumPeriods[0] == p;
          } else if p == P60 {
            assert MomentumPeriods[1] == p;
          } else {
            assert MomentumPeriods[2] == p;
          }
        }
      }
      i := i + 1;
    }
    assert MomentumMetrics[..i] == MomentumMetrics;
  }

  // ---------------------------------------------------------------------------
  // The latest-value loop
  // ---------------------------------------------------------------------------

  ghost predicate CurrentSet(full: Frame, m: Metrics, metrics: seq<Column>, done: nat)
    requires WellFormed(full) && done <= |metrics|
  {
    forall c ::
      && (CurrentOf(c) in m <==> c in metrics[..done] && c in full.columns && |full.rows| > 0 && Last(Col(full, c)).Some?)
      && (CurrentOf(c) in m ==> m[CurrentOf(c)] == Number(Last(Col(full, c)).value))
  }

  /** The keys other than `<metric>_current` keys are as they were. */
  ghost predicate OnlyCurrentChanged(m0: Metrics, m: Metrics)
  {
    forall k: Key :: !k.CurrentOf? ==> (k in m <==> k in m0) && (k in m0 ==> m[k] == m0[k])
  }

  /** A `<metric>_current` key is set exactly when the column is present, non-empty and its last cell is not NaN. */
  method AddCurrentValues(full: Frame, m0: Metrics) returns (m: Metrics)
    requires WellFormed(full)
    requires forall c :: CurrentOf(c) !in m0
    ensures CurrentSet(full, m, LatestMetrics, |LatestMetrics|)
    ensures OnlyCurrentChanged(m0, m)
  {
    m := m0;
    var i := 0;
    while i < |LatestMetrics|
      invariant 0 <= i <= |LatestMetrics|
      invariant CurrentSet(full, m, LatestMetrics, i)
      invariant OnlyCurrentChanged(m0, m)
    {
      var c := LatestMetrics[i];
      assert LatestMetrics[..i + 1] == LatestMetrics[..i] + [c];
      if c in full.columns && |Col(full, c)| > 0 {
        var latest := Last(Col(full, c));
        if latest.Some? {
          m := m[CurrentOf(c) := Number(latest.value)];
        }
      }
      i := i + 1;
    }
    assert LatestMetrics[..i] == LatestMetrics;
  }

  // ---------------------------------------------------------------------------
  // calculate_all_metrics
  // ---------------------------------------------------------------------------

  /** The real-price keys: present exactly when both source columns are; an undefined z-score is `None` with a note. */
  predicate RealGoldKeys(full: Frame, std: seq<real> -> real, m: Metrics)
    requires WellFormed(full) && |full.rows| > 0 && IsStd(std)
  {
    var rg := RealGoldPrice(full);
    && (RealGoldPriceCurrent in m <==> GoldSpot in full.columns && Cpi in full.columns)
    && (RealGoldPriceSeries in m <==> RealGoldPriceCurrent in m)
    && (RealGoldZScore in m <==> RealGoldPriceCurrent in m)
    && (RealGoldPriceCurrent in m ==>
          var z := ZScoreAt(rg, |rg| - 1, ZWindow, ZMinPeriods, std);
          && m[RealGoldPriceCurrent] == Stored(Last(rg))
          && m[RealGoldPriceSeries] == SeriesValue(rg)
          && m[RealGoldZScore] == (if z.Some? then Number(z.value) else Null))
    && (RealGoldZScoreNote in m <==> RealGoldZScore in m && m[RealGoldZScore] == Null)
    && (RealGoldZScoreNote in m ==> m[RealGoldZScoreNote] == Note(InsufficientHistoryNote))
  }

  /** The ratio keys: the ratio when both columns are present; its z-score only when defined. */
  predicate GoldSpKeys(full: Frame, std: seq<real> -> real, m: Metrics)
    requires WellFormed(full) && IsStd(std)
  {
    var ratio := GoldSpRatio(full);
    && (GoldSpRatioCurrent in m <==> |ratio| > 0)
    && (GoldSpRatioCurrent in m ==> m[GoldSpRatioCurrent] == Stored(Last(ratio)))
    && (GoldSpZScore in m <==> |ratio| > 0 && ZScoreAt(ratio, |ratio| - 1, ZWindow, ZMinPeriods, std).Some?)
    && (GoldSpZScore in m ==> m[GoldSpZScore] == Number(ZScoreAt(ratio, |ratio| - 1, ZWindow, ZMinPeriods, std).value))
  }

  predicate BreakevenKeys(full: Frame, m: Metrics)
    requires WellFormed(full)
  {
    var b := BreakevenInflation(full);
    && (BreakevenCurrent in m <==> |b| > 0)
    && (BreakevenCurrent in m ==> m[BreakevenCurrent] == Stored(Last(b)))
  }

  /** No momentum and no latest-value key is set. */
  predicate NoLoopKeys(m: Metrics)
  {
    forall k :: k in m ==> !k.MomentumOf? && !k.CurrentOf?
  }

  /** `real_gold_price_current`, `real_gold_price_series`, `real_gold_zscore` and its note. */
  method AddRealGold(full: Frame, std: seq<real> -> real) returns (metrics: Metrics)
    requires WellFormed(full) && |full.rows| > 0 && IsStd(std)
    ensures RealGoldKeys(full, std, metrics)
    ensures forall k :: k in metrics ==> k.RealGoldPriceCurrent? || k.RealGoldPriceSeries? || k.RealGoldZScore? || k.RealGoldZScoreNote?
  {
    metrics := map[];
    var realGold := RealGoldPrice(full);
    if |realGold| > 0 {
      metrics := metrics[RealGoldPriceCurrent := Stored(Last(realGold))];
      metrics := metrics[RealGoldPriceSeries := SeriesValue(realGold)];
      var z := ZScore(realGold, ZWindow, ZMinPeriods, std);
      assert Last(z) == ZScoreAt(realGold, |realGold| - 1, ZWindow, ZMinPeriods, std);
      if |z| > 0 && Last(z).Some? {
        metrics := metrics[RealGoldZScore := Number(Last(z).value)];
      } else {
        metrics := metrics[RealGoldZScore := Null];
        metrics := metrics[RealGoldZScoreNote := Note(InsufficientHistoryNote)];
      }
    } else {
      assert GoldSpot !in full.columns || Cpi !in full.columns;
    }
  }

  /** `gold_sp_ratio` and `gold_sp_zscore`; an undefined z-score is omitted. */
  method AddGoldSp(full: Frame, std: seq<real> -> real, m0: Metrics) returns (metrics: Metrics)
    requires WellFormed(full) && IsStd(std)
    requires GoldSpRatioCurrent !in m0 && GoldSpZScore !in m0
    ensures GoldSpKeys(full, std, metrics)
    ensures forall k :: k in m0 ==> k in metrics && metrics[k] == m0[k]
    ensures forall k :: k in metrics && k !in m0 ==> k.GoldSpRatioCurrent? || k.GoldSpZScore?
  {
    metrics := m0;
    var goldSp := GoldSpRatio(full);
    if |goldSp| > 0 {
      metrics := metrics[GoldSpRatioCurrent := Stored(Last(goldSp))];
      var z := ZScore(goldSp, ZWindow, ZMinPeriods, std);
      if |z| > 0 && Last(z).Some? {
        metrics := metrics[GoldSpZScore := Number(Last(z).value)];
      }
    }
  }

  /** `breakeven_inflation`. */
  method AddBreakeven(full: Frame, m0: Metrics) returns (metrics: Metrics)
    requires WellFormed(full)
    requires BreakevenCurrent !in m0
    ensures BreakevenKeys(full, metrics)
    ensures forall k :: k in m0 ==> k in metrics && metrics[k] == m0[k]
    ensures forall k :: k in metrics && k !in m0 ==> k.BreakevenCurrent?
  {
    metrics := m0;
    var breakeven := BreakevenInflation(full);
    if |breakeven| > 0 {
      metrics := metrics[BreakevenCurrent := Stored(Last(breakeven))];
    }
  }

  /** The keys set before the loops: real price, ratio and breakeven, in that order. */
  method AddSeriesMetrics(full: Frame, std: seq<real> -> real) returns (metrics: Metrics)
    requires WellFormed(full) && |full.rows| > 0 && IsStd(std)
    ensures RealGoldKeys(full, std, metrics) && GoldSpKeys(full, std, metrics) && BreakevenKeys(full, metrics)
    ensures NoLoopKeys(metrics)
  {
    var realGold := AddRealGold(full, std);
    var withRatio := AddGoldSp(full, std, realGold);
    SameRealGoldKeys(full, std, realGold, withRatio);
    metrics := AddBreakeven(full, withRatio);
    SameRealGoldKeys(full, std, realGold, metrics);
  }

  lemma SameRealGoldKeys(full: Frame, std: seq<real> -> real, m0: Metrics, m: Metrics)
    requires WellFormed(full) && |full.rows| > 0 && IsStd(std)
    requires RealGoldKeys(full, std, m0)
    requires forall k :: k in m0 ==> k in m && m[k] == m0[k]
    requires RealGoldPriceCurrent !in m || RealGoldPriceCurrent in m0
    requires RealGoldPriceSeries !in m || RealGoldPriceSeries in m0
    requires RealGoldZScore !in m || RealGoldZScore in m0
    requires RealGoldZScoreNote !in m || RealGoldZScoreNote in m0
    ensures RealGoldKeys(full, std, m)
  {
  }

  /** The loops leave the keys set before them alone. */
  lemma LoopsKeepSeriesKeys(full: Frame, std: seq<real> -> real, m0: Metrics, m: Metrics)
    requires WellFormed(full) && |full.rows| > 0 && IsStd(std)
    requires RealGoldKeys(full, std, m0) && GoldSpKeys(full, std, m0) && BreakevenKeys(full, m0)
    requires exists mid :: OnlyMomentumChanged(m0, mid) && OnlyCurrentChanged(mid, m)
    ensures RealGoldKeys(full, std, m) && GoldSpKeys(full, std, m) && BreakevenKeys(full, m)
  {
    var mid :| OnlyMomentumChanged(m0, mid) && OnlyCurrentChanged(mid, m);
    assert RealGoldPriceCurrent in m <==> RealGoldPriceCurrent in m0;
    assert RealGoldPriceSeries in m <==> RealGoldPriceSeries in m0;
    assert RealGoldZScore in m <==> RealGoldZScore in m0;
    assert RealGoldZScoreNote in m <==> RealGoldZScoreNote in m0;
    assert GoldSpRatioCurrent in m <==> GoldSpRatioCurrent in m0;
    assert GoldSpZScore in m <==> GoldSpZScore in m0;
    assert BreakevenCurrent in m <==> BreakevenCurrent in m0;
  }

  lemma MergedFrameUsable(df: Frame, history: Option<Frame>)
    requires WellFormed(df) && |df.rows| > 0
    ensures WellFormed(MergeHistory(df, history)) && |MergeHistory(df, history).rows| > 0
  {
    MergeHistorySpec(df, history);
  }

  lemma CurrentLoopKeepsMomentum(full: Frame, m0: Metrics, m: Metrics)
    requires WellFormed(full)
    requires MomentumSet(full, m0, MomentumMetrics, |MomentumMetrics|)
    requires OnlyCurrentChanged(m0, m)
    ensures MomentumSet(full, m, MomentumMetrics, |MomentumMetrics|)
  {
    forall c, p ensures MomentumOf(c, p) in m <==> MomentumOf(c, p) in m0 {
      assert !MomentumOf(c, p).CurrentOf?;
    }
  }

  /** The rules every key of the map follows, for the merged frame `full`. */
  ghost predicate MetricsFollowRules(full: Frame, std: seq<real> -> real, m: Metrics)
    requires WellFormed(full) && |full.rows| > 0 && IsStd(std)
  {
    && RealGoldKeys(full, std, m)
    && GoldSpKeys(full, std, m)
    && BreakevenKeys(full, m)
    && MomentumSet(full, m, MomentumMetrics, |MomentumMetrics|)
    && CurrentSet(full, m, LatestMetrics, |LatestMetrics|)
  }

  /** The series metrics, then the momentum loop, then the latest-value loop, on the merged frame. */
  method MetricsOfFrame(full: Frame, std: seq<real> -> real) returns (metrics: Metrics)
    requires WellFormed(full) && |full.rows| > 0 && IsStd(std)
    ensures RealGoldKeys(full, std, metrics)
    ensures GoldSpKeys(full, std, metrics)
    ensures BreakevenKeys(full, metrics)
    ensures MomentumSet(full, metrics, MomentumMetrics, |MomentumMetrics|)
    ensures CurrentSet(full, metrics, LatestMetrics, |LatestMetrics|)
  {
    var series := AddSeriesMetrics(full, std);
    var withMomentum := AddMomentum(full, series);
    metrics := AddCurrentValues(full, withMomentum);
    CurrentLoopKeepsMomentum(full, withMomentum, metrics);
    LoopsKeepSeriesKeys(full, std, series, metrics);
  }

  /**
    The metric map computed from the fresh frame and an optional history
    (`std` is the rolling standard deviation).  Every key is either set
    according to its rule or absent; no other key is set.
   */
  method CalculateAllMetrics(df: Frame, history: Option<Frame>, std: seq<real> -> real) returns (metrics: Metrics)
    requires WellFormed(df) && |df.rows| > 0 && IsStd(std)
    ensures WellFormed(MergeHistory(df, history)) && |MergeHistory(df, history).rows| > 0
    ensures MetricsFollowRules(MergeHistory(df, history), std, metrics)
  {
    MergedFrameUsable(df, history);
    var full := MergeHistory(df, history);
    metrics := MetricsOfFrame(full, std);
  }

  /**
    With fewer than 252 rows of merged history neither z-score is defined: the
    real-price z-score is stored as `None` with its note and the ratio z-score
    is absent.
   */
  lemma ShortHistoryHasNoZScore(full: Frame, std: seq<real> -> real, m: Metrics)
    requires WellFormed(full) && 0 < |full.rows| < ZMinPeriods && IsStd(std)
    requires GoldSpot in full.columns && Cpi in full.columns
    requires RealGoldKeys(full, std, m) && GoldSpKeys(full, std, m)
    ensures m[RealGoldZScore] == Null
    ensures m[RealGoldZScoreNote] == Note(InsufficientHistoryNote)
    ensures GoldSpZScore !in m
  {
    var rg := RealGoldPrice(full);
    ZScoreNeedsHistory(rg, |rg| - 1, ZWindow, ZMinPeriods, std);
    var ratio := GoldSpRatio(full);
    if |ratio| > 0 {
      assert |ratio| == |full.rows|;
      ZScoreNeedsHistory(ratio, |ratio| - 1, ZWindow, ZMinPeriods, std);
    }
  }
}
